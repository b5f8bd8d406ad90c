/**
 * The class resolver: which replication class a claim should carry. A class named
 * directly by annotation wins; otherwise a class selector, the claim's storage-class
 * group and its provisioner pick exactly one replication class, or none.
 */
module Vrc {
  import opened Results
  import opened Constants
  import opened Objects

  /**
   * The value of `annotation` for a claim: the claim's own non-empty value, else its
   * namespace's value ("" when the namespace is not cached or lacks the annotation).
   */
  function AnnotationValue(claim: Claim, namespaces: map<string, Namespace>, annotation: string): (v: string)
    ensures Get(claim.annotations, annotation) != "" ==> v == claim.annotations[annotation]
    ensures Get(claim.annotations, annotation) == "" && claim.namespace in namespaces ==>
              v == Get(namespaces[claim.namespace].annotations, annotation)
    ensures Get(claim.annotations, annotation) == "" && claim.namespace !in namespaces ==> v == ""
  {
    if annotation in claim.annotations && claim.annotations[annotation] != "" then
      claim.annotations[annotation]
    else if claim.namespace !in namespaces then
      ""
    else
      Get(namespaces[claim.namespace].annotations, annotation)
  }

  /** The class named directly on the claim or its namespace. */
  function ClassValue(claim: Claim, namespaces: map<string, Namespace>): (v: string)
    ensures Get(claim.annotations, VrcValueAnnotation) != "" ==> v == claim.annotations[VrcValueAnnotation]
    ensures Get(claim.annotations, VrcValueAnnotation) == "" ==>
              v == (if claim.namespace in namespaces then Get(namespaces[claim.namespace].annotations, VrcValueAnnotation) else "")
  {
    AnnotationValue(claim, namespaces, VrcValueAnnotation)
  }

  /** The class selector given on the claim or its namespace. */
  function ClassSelector(claim: Claim, namespaces: map<string, Namespace>): (v: string)
    ensures Get(claim.annotations, VrcSelectorAnnotation) != "" ==> v == claim.annotations[VrcSelectorAnnotation]
    ensures Get(claim.annotations, VrcSelectorAnnotation) == "" ==>
              v == (if claim.namespace in namespaces then Get(namespaces[claim.namespace].annotations, VrcSelectorAnnotation) else "")
  {
    AnnotationValue(claim, namespaces, VrcSelectorAnnotation)
  }

  /**
   * The storage-class group of a claim, an abstract lookup: a claim without storage
   * class, or naming a class that does not exist, gives an error; otherwise the
   * group label of the class ("" when it has none).
   */
  function StorageClassGroupOf(claim: Claim, storageClasses: map<string, StringMap>): (g: Fetch<string>)
    ensures g.FetchFailed? <==> claim.storageClassName == "" || claim.storageClassName !in storageClasses
  {
    if claim.storageClassName == "" || claim.storageClassName !in storageClasses then FetchFailed
    else Fetched(Get(storageClasses[claim.storageClassName], StorageClassGroup))
  }

  /** `m` carries label `k` with value `v`. */
  predicate HasLabel(m: StringMap, k: string, v: string)
  {
    k in m && m[k] == v
  }

  /** A policy carries both the group and the selector labels asked for. */
  predicate InGroup(p: Policy, group: string, selector: string)
  {
    HasLabel(p.labels, StorageClassGroup, group) && HasLabel(p.labels, VrcSelectorAnnotation, selector)
  }

  /** A policy serves the claim's provisioner, any policy doing so when the claim's is "". */
  predicate ServesProvisioner(p: Policy, provisioner: string)
  {
    p.provisioner == provisioner || provisioner == ""
  }

  /** The API's answer to a list by label selector: the policies holding both labels, in list order. */
  function ListPolicies(items: seq<Policy>, group: string, selector: string): (listed: seq<Policy>)
    ensures |listed| <= |items|
  {
    if items == [] then []
    else
      var last := items[|items| - 1];
      ListPolicies(items[..|items| - 1], group, selector) + (if InGroup(last, group, selector) then [last] else [])
  }

  /** Names of the listed policies that serve the provisioner, in list order. */
  function ProvisionerFilter(listed: seq<Policy>, provisioner: string): (names: seq<string>)
    ensures |names| <= |listed|
  {
    if listed == [] then []
    else
      var last := listed[|listed| - 1];
      ProvisionerFilter(listed[..|listed| - 1], provisioner) + (if ServesProvisioner(last, provisioner) then [last.name] else [])
  }

  /** Names of a sequence of policies. */
  function Names(ps: seq<Policy>): (names: seq<string>)
    ensures |names| == |ps|
  {
    if ps == [] then [] else Names(ps[..|ps| - 1]) + [ps[|ps| - 1].name]
  }

  /** Some policy of `items` carries the group and selector labels, serves the provisioner and is named `x`. */
  predicate PolicyNamed(items: seq<Policy>, group: string, selector: string, provisioner: string, x: string)
  {
    exists p :: p in items && InGroup(p, group, selector) && ServesProvisioner(p, provisioner) && p.name == x
  }

  /** A name is kept exactly when some policy of the full list is label-matched, serves the provisioner and bears it. */
  lemma FilterVrcMembers(items: seq<Policy>, group: string, selector: string, provisioner: string)
    ensures forall x :: x in ProvisionerFilter(ListPolicies(items, group, selector), provisioner) <==>
      PolicyNamed(items, group, selector, provisioner, x)
  {
    var listed := ListPolicies(items, group, selector);
    forall x ensures x in ProvisionerFilter(listed, provisioner) <==> PolicyNamed(items, group, selector, provisioner, x) {
      ProvisionerFilterMembers(listed, provisioner, x);
      if x in ProvisionerFilter(listed, provisioner) {
        var i :| 0 <= i < |listed| && ServesProvisioner(listed[i], provisioner) && listed[i].name == x;
        ListPoliciesMembers(items, group, selector, listed[i]);
      }
      if PolicyNamed(items, group, selector, provisioner, x) {
        var p :| p in items && InGroup(p, group, selector) && ServesProvisioner(p, provisioner) && p.name == x;
        ListPoliciesMembers(items, group, selector, p);
        var i :| 0 <= i < |listed| && listed[i] == p;
      }
    }
  }

  /** What the filter returns: an error when the list fails, else the provisioner filter of the listed policies. */
  function FilterVrc(group: string, selector: string, provisioner: string, policies: Fetch<seq<Policy>>): (r: Fetch<seq<string>>)
    ensures r.FetchFailed? <==> policies.FetchFailed?
    ensures r.Fetched? ==> |r.value| <= |policies.value|
    ensures r.Fetched? ==> forall x :: x in r.value <==> PolicyNamed(policies.value, group, selector, provisioner, x)
  {
    match policies
    case FetchFailed => FetchFailed
    case Fetched(items) =>
      FilterVrcMembers(items, group, selector, provisioner);
      Fetched(ProvisionerFilter(ListPolicies(items, group, selector), provisioner))
  }

  /** Lists the policies of a group and selector and keeps, in order, those serving the provisioner. */
  method FilterVrcFromSelector(group: string, selector: string, provisioner: string, policies: Fetch<seq<Policy>>)
    returns (r: Fetch<seq<string>>)
    ensures r == FilterVrc(group, selector, provisioner, policies)
  {
    if policies.FetchFailed? {
      return FetchFailed;
    }
    var items := ListPolicies(policies.value, group, selector);
    var classes: seq<string> := [];
    var i := 0;
    while i < |items|
      invariant 0 <= i <= |items|
      invariant classes == ProvisionerFilter(items[..i], provisioner)
    {
      assert items[..i + 1][..i] == items[..i];
      if items[i].provisioner == provisioner || provisioner == "" {
        classes := classes + [items[i].name];
      }
      i := i + 1;
    }
    assert items[..|items|] == items;
    return Fetched(classes);
  }

  /** The class a selector resolves to: the single candidate left, or "" on any failure or ambiguity. */
  function ClassFromSelector(claim: Claim, env: Env): (cls: string)
    ensures ClassSelector(claim, env.namespaces) == "" || env.policies.FetchFailed? ==> cls == ""
    ensures !StorageClassGroupOf(claim, env.storageClasses).Fetched? || StorageClassGroupOf(claim, env.storageClasses).value == "" ==> cls == ""
    ensures cls != "" ==> PolicyNamed(env.policies.value, StorageClassGroupOf(claim, env.storageClasses).value,
                                      ClassSelector(claim, env.namespaces), claim.provisioner, cls)
  {
    var selector := ClassSelector(claim, env.namespaces);
    if selector == "" then ""
    else
      match StorageClassGroupOf(claim, env.storageClasses)
      case FetchFailed => ""
      case Fetched(group) =>
        if group == "" then ""
        else
          match FilterVrc(group, selector, claim.provisioner, env.policies)
          case FetchFailed => ""
          case Fetched(classes) => if |classes| != 1 then "" else classes[0]
  }

  /** The class a claim should carry: the direct value when non-empty, else the selector's result. */
  function VolumeReplicationClass(claim: Claim, env: Env): (cls: string)
    ensures ClassValue(claim, env.namespaces) != "" ==> cls == ClassValue(claim, env.namespaces)
    ensures ClassValue(claim, env.namespaces) == "" ==> cls == ClassFromSelector(claim, env)
  {
    var value := ClassValue(claim, env.namespaces);
    if value != "" then value else ClassFromSelector(claim, env)
  }

  // ---------------------------------------------------------------------------
  // Properties of the resolver

  /** A non-empty annotation on the claim is returned whatever the namespaces say. */
  lemma ClaimAnnotationWins(claim: Claim, ns1: map<string, Namespace>, ns2: map<string, Namespace>, annotation: string)
    requires Get(claim.annotations, annotation) != ""
    ensures AnnotationValue(claim, ns1, annotation) == AnnotationValue(claim, ns2, annotation) == claim.annotations[annotation]
  {
  }

  /** A non-empty direct class wins over anything the selector, storage classes or policies would give. */
  lemma DirectClassWins(claim: Claim, env1: Env, env2: Env)
    requires env1.namespaces == env2.namespaces
    requires ClassValue(claim, env1.namespaces) != ""
    ensures VolumeReplicationClass(claim, env1) == VolumeReplicationClass(claim, env2)
  {
  }

  /** Selector resolution gives "" when the selector is "", the group lookup fails, the group is "" or the list fails. */
  lemma SelectorFailuresGiveEmpty(claim: Claim, env: Env)
    requires
      || ClassSelector(claim, env.namespaces) == ""
      || StorageClassGroupOf(claim, env.storageClasses) == FetchFailed
      || StorageClassGroupOf(claim, env.storageClasses) == Fetched("")
      || env.policies == FetchFailed
    ensures ClassFromSelector(claim, env) == ""
  {
  }

  /** A policy is a label-matched candidate exactly when the list holds it with both labels. */
  lemma {:induction false} ListPoliciesMembers(items: seq<Policy>, group: string, selector: string, p: Policy)
    ensures p in ListPolicies(items, group, selector) <==> p in items && InGroup(p, group, selector)
  {
    if items != [] {
      var init := items[..|items| - 1];
      ListPoliciesMembers(init, group, selector, p);
      assert items == init + [items[|items| - 1]];
    }
  }

  /** A name survives the provisioner filter exactly when some listed policy with that name serves the provisioner. */
  lemma {:induction false} ProvisionerFilterMembers(listed: seq<Policy>, provisioner: string, x: string)
    ensures x in ProvisionerFilter(listed, provisioner) <==>
      exists i :: 0 <= i < |listed| && ServesProvisioner(listed[i], provisioner) && listed[i].name == x
  {
    if listed != [] {
      var n := |listed| - 1;
      var init := listed[..n];
      ProvisionerFilterMembers(init, provisioner, x);
      if exists i :: 0 <= i < |listed| && ServesProvisioner(listed[i], provisioner) && listed[i].name == x {
        var i :| 0 <= i < |listed| && ServesProvisioner(listed[i], provisioner) && listed[i].name == x;
        if i < n {
          assert init[i] == listed[i];
        }
      }
      if exists i :: 0 <= i < |init| && ServesProvisioner(init[i], provisioner) && init[i].name == x {
        var i :| 0 <= i < |init| && ServesProvisioner(init[i], provisioner) && init[i].name == x;
        assert listed[i] == init[i];
      }
    }
  }

  /** `a` is `b` with some elements left out, order kept. */
  predicate IsSubsequence<T(==)>(a: seq<T>, b: seq<T>)
    decreases |b|
  {
    if a == [] then true
    else if b == [] then false
    else
      (a[|a| - 1] == b[|b| - 1] && IsSubsequence(a[..|a| - 1], b[..|b| - 1]))
      || IsSubsequence(a, b[..|b| - 1])
  }

  /** The provisioner filter keeps list order: its result is a subsequence of the listed names. */
  lemma {:induction false} ProvisionerFilterIsSubsequence(listed: seq<Policy>, provisioner: string)
    ensures IsSubsequence(ProvisionerFilter(listed, provisioner), Names(listed))
  {
    if listed != [] {
      var n := |listed| - 1;
      var init := listed[..n];
      ProvisionerFilterIsSubsequence(init, provisioner);
      var a := ProvisionerFilter(listed, provisioner);
      var b := Names(listed);
      assert b[..n] == Names(init);
      if ServesProvisioner(listed[n], provisioner) {
        assert a[..|a| - 1] == ProvisionerFilter(init, provisioner);
        assert a[|a| - 1] == b[|b| - 1];
      } else {
        assert a == ProvisionerFilter(init, provisioner);
        assert IsSubsequence(a, b[..|b| - 1]);
      }
    }
  }

  /** With no provisioner on the claim, every listed policy is a candidate. */
  lemma {:induction false} EmptyProvisionerKeepsAll(listed: seq<Policy>)
    ensures ProvisionerFilter(listed, "") == Names(listed)
  {
    if listed != [] {
      EmptyProvisionerKeepsAll(listed[..|listed| - 1]);
    }
  }

  /** Index `i` is the one and only listed policy serving the provisioner. */
  predicate UniqueMatch(listed: seq<Policy>, provisioner: string, i: int)
  {
    && 0 <= i < |listed|
    && ServesProvisioner(listed[i], provisioner)
    && forall j :: 0 <= j < |listed| && j != i ==> !ServesProvisioner(listed[j], provisioner)
  }

  /** The filter is empty exactly when no listed policy serves the provisioner. */
  lemma {:induction false} ProvisionerFilterEmpty(listed: seq<Policy>, provisioner: string)
    ensures ProvisionerFilter(listed, provisioner) == [] <==>
      forall j :: 0 <= j < |listed| ==> !ServesProvisioner(listed[j], provisioner)
  {
    if listed != [] {
      var n := |listed| - 1;
      var init := listed[..n];
      ProvisionerFilterEmpty(init, provisioner);
      if ProvisionerFilter(listed, provisioner) == [] {
        forall j | 0 <= j < |listed| ensures !ServesProvisioner(listed[j], provisioner) {
          if j < n { assert listed[j] == init[j]; }
        }
      } else if !ServesProvisioner(listed[n], provisioner) {
        var j :| 0 <= j < |init| && ServesProvisioner(init[j], provisioner);
        assert listed[j] == init[j];
      }
    }
  }

  /** Exactly one candidate remains exactly when exactly one listed policy serves the provisioner, and it is that one's name. */
  lemma {:induction false} SingleCandidate(listed: seq<Policy>, provisioner: string)
    ensures |ProvisionerFilter(listed, provisioner)| == 1 <==> exists i :: UniqueMatch(listed, provisioner, i)
    ensures forall i :: UniqueMatch(listed, provisioner, i) ==> ProvisionerFilter(listed, provisioner) == [listed[i].name]
  {
    if listed != [] {
      var n := |listed| - 1;
      var init := listed[..n];
      SingleCandidate(init, provisioner);
      ProvisionerFilterEmpty(init, provisioner);
      if ServesProvisioner(listed[n], provisioner) {
        // The last policy is a candidate: it is the only one iff none before it is.
        forall i | UniqueMatch(listed, provisioner, i) ensures i == n && ProvisionerFilter(init, provisioner) == [] {
          forall j | 0 <= j < |init| ensures !ServesProvisioner(init[j], provisioner) {
            assert listed[j] == init[j];
          }
        }
        if |ProvisionerFilter(listed, provisioner)| == 1 {
          forall j | 0 <= j < |listed| && j != n ensures !ServesProvisioner(listed[j], provisioner) {
            assert listed[j] == init[j];
          }
          assert UniqueMatch(listed, provisioner, n);
        }
      } else {
        // The last policy is no candidate: unique matches are those of the prefix.
        forall i | UniqueMatch(listed, provisioner, i) ensures UniqueMatch(init, provisioner, i) {
          forall j | 0 <= j < |init| && j != i ensures !ServesProvisioner(init[j], provisioner) {
            assert listed[j] == init[j];
          }
        }
        forall i | UniqueMatch(init, provisioner, i) ensures UniqueMatch(listed, provisioner, i) {
          assert listed[i] == init[i];
          forall j | 0 <= j < |listed| && j != i ensures !ServesProvisioner(listed[j], provisioner) {
            if j < n { assert listed[j] == init[j]; }
          }
        }
      }
    }
  }

  /**
   * Selector resolution returns a name exactly when the selector, the group and the
   * list are all available and exactly one label-matched policy serves the claim's
   * provisioner; the name is that policy's.
   */
  lemma SelectorResolvesUniqueCandidate(claim: Claim, env: Env)
    ensures ClassFromSelector(claim, env) != "" <==>
      var selector := ClassSelector(claim, env.namespaces);
      var group := StorageClassGroupOf(claim, env.storageClasses);
      && selector != "" && group.Fetched? && group.value != "" && env.policies.Fetched?
      && var listed := ListPolicies(env.policies.value, group.value, selector);
         exists i :: UniqueMatch(listed, claim.provisioner, i) && listed[i].name != ""
    ensures ClassFromSelector(claim, env) != "" ==>
      var selector := ClassSelector(claim, env.namespaces);
      var group := StorageClassGroupOf(claim, env.storageClasses);
      var listed := ListPolicies(env.policies.value, group.value, selector);
      exists i :: UniqueMatch(listed, claim.provisioner, i) && listed[i].name == ClassFromSelector(claim, env)
  {
    var selector := ClassSelector(claim, env.namespaces);
    var group := StorageClassGroupOf(claim, env.storageClasses);
    if selector != "" && group.Fetched? && group.value != "" && env.policies.Fetched? {
      var listed := ListPolicies(env.policies.value, group.value, selector);
      SingleCandidate(listed, claim.provisioner);
    }
  }
}
