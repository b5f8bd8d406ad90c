/**
 * The event handlers: they turn notifications about namespaces, claims and
 * descriptors into claim keys on the work queue. The queue coalesces a key that is
 * already pending, so it is a set of keys; handlers only ever add to it.
 */
module Handlers {
  import opened Constants
  import opened Keys
  import opened Objects
  import opened Utils

  /** The cached claims of one namespace, as the claim lister returns them. */
  function ClaimsInNamespace(claims: map<string, Claim>, namespace: string): (cs: set<Claim>)
    ensures forall c :: c in cs ==> c.namespace == namespace
  {
    set k | k in claims && claims[k].namespace == namespace :: claims[k]
  }

  /** The queue keys of a set of claims. */
  function KeysOf(cs: set<Claim>): set<string>
  {
    set c | c in cs :: ObjectKey(c.namespace, c.name)
  }

  /** The direct class annotation differs between two versions of a namespace, absent reading as "". */
  predicate ClassAnnotationChanged(oldNs: Namespace, newNs: Namespace)
  {
    Get(oldNs.annotations, VrcValueAnnotation) != Get(newNs.annotations, VrcValueAnnotation)
  }

  /** The keys a namespace update enqueues. */
  function NamespaceUpdateKeys(oldNs: Namespace, newNs: Namespace, claims: map<string, Claim>, faults: Faults): (keys: set<string>)
    ensures !ClassAnnotationChanged(oldNs, newNs) || faults.claimList ==> keys == {}
    ensures forall k :: k in keys ==> exists c :: c in claims.Values && c.namespace == newNs.name && k == ObjectKey(c.namespace, c.name)
  {
    if !ClassAnnotationChanged(oldNs, newNs) || faults.claimList then {}
    else KeysOf(ClaimsInNamespace(claims, newNs.name))
  }

  /** The keys a descriptor update enqueues: the descriptor's key when it is owned and its spec changed. */
  function DescriptorUpdateKeys(oldVr: VolumeReplication, newVr: VolumeReplication): (keys: set<string>)
    ensures keys != {} <==> IsParentLabelPresent(newVr.labels) && oldVr.spec != newVr.spec
    ensures keys <= {JoinKey(newVr.namespace, newVr.name)}
  {
    if !IsParentLabelPresent(newVr.labels) || oldVr.spec == newVr.spec then {}
    else {JoinKey(newVr.namespace, newVr.name)}
  }

  /** Every cached claim is filed under its own key and has no slash in its names. */
  predicate Indexed(claims: map<string, Claim>)
  {
    forall k :: k in claims ==> IndexedAt(claims, k)
  }

  class Controller {
    var queue: set<string>
    const cluster: Cluster

    constructor (cluster: Cluster)
      ensures this.cluster == cluster && queue == {}
    {
      this.cluster := cluster;
      queue := {};
    }

    /** A namespace changed: when its direct class annotation changed, requeue every claim in it. */
    method NamespaceUpdate(oldNs: Namespace, newNs: Namespace)
      modifies this`queue
      ensures queue == old(queue) + NamespaceUpdateKeys(oldNs, newNs, cluster.claims, cluster.faults)
    {
      if Get(oldNs.annotations, VrcValueAnnotation) == Get(newNs.annotations, VrcValueAnnotation) {
        return;
      }
      if cluster.faults.claimList {
        return;
      }
      var pvcs := ClaimsInNamespace(cluster.claims, newNs.name);
      var remaining := pvcs;
      while remaining != {}
        invariant remaining <= pvcs
        invariant queue == old(queue) + KeysOf(pvcs - remaining)
        decreases remaining
      {
        var pvc :| pvc in remaining;
        ghost var done := pvcs - remaining;
        assert pvcs - (remaining - {pvc}) == done + {pvc};
        assert KeysOf(done + {pvc}) == KeysOf(done) + {ObjectKey(pvc.namespace, pvc.name)};
        queue := queue + {ObjectKey(pvc.namespace, pvc.name)};
        remaining := remaining - {pvc};
      }
      assert pvcs - remaining == pvcs;
    }

    /** A claim was added, updated or deleted: requeue it. */
    method PvcUpdate(pvc: Claim)
      modifies this`queue
      ensures queue == old(queue) + {ObjectKey(pvc.namespace, pvc.name)}
    {
      queue := queue + {ObjectKey(pvc.namespace, pvc.name)};
    }

    /** A descriptor was created or deleted: requeue the claim of the same namespace and name. */
    method VolumeReplicationCreateOrDelete(vr: VolumeReplication)
      modifies this`queue
      ensures queue == old(queue) + {JoinKey(vr.namespace, vr.name)}
    {
      queue := queue + {JoinKey(vr.namespace, vr.name)};
    }

    /** A descriptor was updated: requeue its claim only when it is owned and its spec changed. */
    method VolumeReplicationUpdate(oldVr: VolumeReplication, newVr: VolumeReplication)
      modifies this`queue
      ensures queue == old(queue) + DescriptorUpdateKeys(oldVr, newVr)
      ensures !IsParentLabelPresent(newVr.labels) ==> queue == old(queue)
    {
      var key := JoinKey(newVr.namespace, newVr.name);
      if !IsParentLabelPresent(newVr.labels) {
        return;
      }
      if oldVr.spec == newVr.spec {
        return;
      }
      queue := queue + {key};
    }
  }

  // ---------------------------------------------------------------------------
  // Properties of the handlers

  /** A namespace update that leaves the direct class value as it was (absent counting as "") enqueues nothing. */
  lemma UnchangedClassEnqueuesNothing(oldNs: Namespace, newNs: Namespace, claims: map<string, Claim>, faults: Faults)
    requires Get(oldNs.annotations, VrcValueAnnotation) == Get(newNs.annotations, VrcValueAnnotation)
    ensures NamespaceUpdateKeys(oldNs, newNs, claims, faults) == {}
  {
  }

  /** Changing only the selector annotation of a namespace enqueues nothing. */
  lemma SelectorChangeEnqueuesNothing(ns: Namespace, selector: string, claims: map<string, Claim>, faults: Faults)
    ensures NamespaceUpdateKeys(ns, ns.(annotations := ns.annotations[VrcSelectorAnnotation := selector]), claims, faults) == {}
  {
  }

  /**
   * When the direct class value changed, a namespace update enqueues the key of every
   * cached claim of that namespace and no other key.
   */
  lemma NamespaceUpdateEnqueuesItsClaims(oldNs: Namespace, newNs: Namespace, claims: map<string, Claim>, faults: Faults)
    requires Indexed(claims) && ClassAnnotationChanged(oldNs, newNs) && !faults.claimList
    ensures forall k :: k in NamespaceUpdateKeys(oldNs, newNs, claims, faults) <==> k in claims && claims[k].namespace == newNs.name
    ensures forall k :: k in NamespaceUpdateKeys(oldNs, newNs, claims, faults) ==> RefOf(k).namespace == newNs.name
  {
    var keys := NamespaceUpdateKeys(oldNs, newNs, claims, faults);
    forall k | k in keys ensures k in claims && claims[k].namespace == newNs.name && RefOf(k).namespace == newNs.name {
      var c :| c in ClaimsInNamespace(claims, newNs.name) && k == ObjectKey(c.namespace, c.name);
      var k' :| k' in claims && claims[k'].namespace == newNs.name && claims[k'] == c;
      assert IndexedAt(claims, k');
      IndexedClaimRef(claims, k);
    }
    forall k | k in claims && claims[k].namespace == newNs.name ensures k in keys {
      assert IndexedAt(claims, k);
      assert claims[k] in ClaimsInNamespace(claims, newNs.name);
    }
  }

  /** An update that changes only a descriptor's metadata, parent label kept, enqueues nothing. */
  lemma MetadataUpdateEnqueuesNothing(vr: VolumeReplication, labels: StringMap, annotations: StringMap)
    ensures DescriptorUpdateKeys(vr, vr.(labels := labels, annotations := annotations)) == {}
  {
  }

  /**
   * The key a descriptor event enqueues for the descriptor built for a claim is the
   * claim's own key, and the reconciler splits it back into the descriptor's address.
   */
  lemma DescriptorKeyIsClaimKey(claim: Claim, env: Env)
    requires claim.namespace != "" && '/' !in claim.namespace && '/' !in claim.name
    ensures var vr := BuildVolumeReplication(claim, env);
      && JoinKey(vr.namespace, vr.name) == ObjectKey(claim.namespace, claim.name)
      && RefOf(JoinKey(vr.namespace, vr.name)) == Ref(vr.namespace, vr.name)
  {
    SplitJoin(claim.namespace, claim.name);
  }
}
