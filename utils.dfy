/**
 * Descriptor helpers: ownership, label merging, the descriptor built for a claim,
 * the check that a descriptor still matches its claim, and the calls that read,
 * create and delete descriptors.
 */
module Utils {
  import opened Results
  import opened Constants
  import opened Objects
  import opened Vrc

  /** A descriptor is owned by this controller when its parent label is set to a non-empty value. */
  function IsParentLabelPresent(labels: StringMap): (owned: bool)
    ensures owned <==> ParentLabel in labels && labels[ParentLabel] != ""
  {
    Get(labels, ParentLabel) != ""
  }

  /**
   * The labels of a descriptor: the claim's labels with the parent label set to the
   * claim's name, a fresh map (see the finding about the source below).
   */
  function LabelsWithParent(labels: StringMap, parent: string): (r: StringMap)
    ensures r.Keys == labels.Keys + {ParentLabel}
    ensures r[ParentLabel] == parent
    ensures forall k :: k in labels && k != ParentLabel ==> r[k] == labels[k]
  {
    labels[ParentLabel := parent]
  }

  /** The data source every descriptor of `claim` must point at. */
  function ClaimDataSource(claim: Claim): DataSource
  {
    DataSource(ClaimApiGroup, ClaimKind, claim.name)
  }

  /**
   * A descriptor matches its claim when it carries the class the claim resolves to
   * now and its data source is the claim; the replication state is not checked.
   */
  function IsVolumeReplicationCorrect(claim: Claim, env: Env, vr: VolumeReplication): (correct: bool)
    ensures correct <==>
      vr.spec.volumeReplicationClass == VolumeReplicationClass(claim, env) && vr.spec.dataSource == ClaimDataSource(claim)
  {
    if VolumeReplicationClass(claim, env) != vr.spec.volumeReplicationClass then false
    else
      var ds := vr.spec.dataSource;
      !(ds.apiGroup != ClaimApiGroup || ds.kind != ClaimKind || ds.name != claim.name)
  }

  /** The descriptor created for a claim, before it is sent to the API. */
  function BuildVolumeReplication(claim: Claim, env: Env): (vr: VolumeReplication)
    ensures vr.namespace == claim.namespace && vr.name == claim.name
    ensures vr.annotations == claim.annotations
    ensures vr.labels == LabelsWithParent(claim.labels, claim.name)
    ensures Get(vr.labels, ParentLabel) == claim.name
    ensures forall k :: k != ParentLabel ==> Get(vr.labels, k) == Get(claim.labels, k)
    ensures vr.spec.replicationState == PrimaryState
    ensures vr.spec.volumeReplicationClass == VolumeReplicationClass(claim, env)
    ensures vr.spec.dataSource == ClaimDataSource(claim)
  {
    VolumeReplication(
      claim.namespace,
      claim.name,
      claim.annotations,
      LabelsWithParent(claim.labels, claim.name),
      Spec(VolumeReplicationClass(claim, env), PrimaryState, DataSource(ClaimApiGroup, ClaimKind, claim.name)))
  }

  /** The descriptor built for a claim passes the correctness check, and is owned exactly when the claim has a name. */
  lemma BuiltIsOwnedAndCorrect(claim: Claim, env: Env)
    ensures IsVolumeReplicationCorrect(claim, env, BuildVolumeReplication(claim, env))
    ensures IsParentLabelPresent(BuildVolumeReplication(claim, env).labels) <==> claim.name != ""
  {
  }

  /** Changing any one of class, API group, kind or name of a correct descriptor makes it incorrect. */
  lemma AnyMismatchIsIncorrect(claim: Claim, env: Env, vr: VolumeReplication, other: string)
    requires IsVolumeReplicationCorrect(claim, env, vr)
    ensures other != vr.spec.volumeReplicationClass ==>
      !IsVolumeReplicationCorrect(claim, env, vr.(spec := vr.spec.(volumeReplicationClass := other)))
    ensures other != ClaimApiGroup ==>
      !IsVolumeReplicationCorrect(claim, env, vr.(spec := vr.spec.(dataSource := vr.spec.dataSource.(apiGroup := other))))
    ensures other != ClaimKind ==>
      !IsVolumeReplicationCorrect(claim, env, vr.(spec := vr.spec.(dataSource := vr.spec.dataSource.(kind := other))))
    ensures other != claim.name ==>
      !IsVolumeReplicationCorrect(claim, env, vr.(spec := vr.spec.(dataSource := vr.spec.dataSource.(name := other))))
  {
  }

  /** Reading a claim from the cache: an error, no claim (a missing key is not an error), or the claim. */
  function GetPersistentVolumeClaim(claims: map<string, Claim>, faults: Faults, key: string): (r: Fetch<Option<Claim>>)
    ensures r.FetchFailed? <==> faults.claimGet
    ensures !faults.claimGet && key !in claims ==> r == Fetched(None)
    ensures !faults.claimGet && key in claims ==> r == Fetched(Some(claims[key]))
  {
    if faults.claimGet then FetchFailed
    else if key !in claims then Fetched(None)
    else Fetched(Some(claims[key]))
  }

  /** Reading the descriptor a key stands for from the API: NotFound reads as no descriptor. */
  function GetVolumeReplication(store: map<Ref, VolumeReplication>, faults: Faults, key: string): (r: Fetch<Option<VolumeReplication>>)
    ensures r.FetchFailed? <==> faults.descriptorGet
    ensures !faults.descriptorGet ==> (r.value.Some? <==> RefOf(key) in store)
    ensures r.Fetched? && r.value.Some? ==> r.value.value == store[RefOf(key)]
  {
    if faults.descriptorGet then FetchFailed
    else if RefOf(key) in store then Fetched(Some(store[RefOf(key)]))
    else Fetched(None)
  }

  /**
   * Deletes a descriptor. NotFound counts as success, and any other failure is only
   * logged: the caller never sees an error.
   */
  method CleanupVolumeReplication(cluster: Cluster, name: string, namespace: string)
    modifies cluster`store
    ensures !cluster.faults.descriptorDelete ==> cluster.store == old(cluster.store) - {Ref(namespace, name)}
    ensures cluster.faults.descriptorDelete ==> cluster.store == old(cluster.store)
  {
    if !cluster.faults.descriptorDelete {
      cluster.store := cluster.store - {Ref(namespace, name)};
    }
  }

  /** Creates the descriptor built for a claim, in the claim's namespace. */
  method CreateVolumeReplication(cluster: Cluster, claim: Claim) returns (err: Option<ApiError>)
    modifies cluster`store
    ensures var ref := Ref(claim.namespace, claim.name);
      if cluster.faults.descriptorCreate then err == Some(Transient) && cluster.store == old(cluster.store)
      else if ref in old(cluster.store) then err == Some(AlreadyExists) && cluster.store == old(cluster.store)
      else err == None && cluster.store == old(cluster.store)[ref := BuildVolumeReplication(claim, cluster.env)]
  {
    var vr := BuildVolumeReplication(claim, cluster.env);
    var ref := Ref(vr.namespace, vr.name);
    if cluster.faults.descriptorCreate {
      return Some(Transient);
    }
    if ref in cluster.store {
      return Some(AlreadyExists);
    }
    cluster.store := cluster.store[ref := vr];
    return None;
  }

  // ---------------------------------------------------------------------------
  // The label merge as the source writes it. A Go map is a reference: nil, or a
  // table shared by every holder. The source writes the parent label into the map it
  // is given -- the claim's own labels in the cache -- and writing into a nil map
  // panics. The rest of the model uses LabelsWithParent, which returns a new map.

  /** A non-nil Go map of strings, shared by reference. */
  class GoStringMap {
    var entries: StringMap

    constructor (entries: StringMap)
      ensures this.entries == entries
    {
      this.entries := entries;
    }
  }

  datatype LabelWrite = Panicked | Returned(labels: GoStringMap)

  /** The merge as written: sets the parent label in the caller's map and returns that same map. */
  method GetLabelsWithParentAsWritten(labels: GoStringMap?, parent: string) returns (r: LabelWrite)
    modifies labels
    ensures labels == null ==> r == Panicked
    ensures labels != null ==> r == Returned(labels) && labels.entries == old(labels.entries)[ParentLabel := parent]
  {
    if labels == null {
      return Panicked;
    }
    labels.entries := labels.entries[ParentLabel := parent];
    return Returned(labels);
  }

  /** A claim without labels (a nil map) makes the merge as written panic. */
  method NilLabelsPanicAsWritten() returns (r: LabelWrite)
    ensures r == Panicked
  {
    r := GetLabelsWithParentAsWritten(null, "data-1");
  }

  /** The merge as written changes the labels of the claim it was given. */
  method ClaimLabelsChangeAsWritten() returns (before: StringMap, after: StringMap)
    ensures ParentLabel !in before && Get(after, ParentLabel) == "data-1" && before != after
  {
    var claimLabels := new GoStringMap(map["app" := "db"]);
    before := claimLabels.entries;
    var _ := GetLabelsWithParentAsWritten(claimLabels, "data-1");
    after := claimLabels.entries;
  }

  /**
   * The corrected merge gives the parent label alone for a claim without labels,
   * and differs from the claim's labels in the parent label only.
   */
  lemma LabelsWithParentCorrected(labels: StringMap, parent: string)
    ensures LabelsWithParent(map[], parent) == map[ParentLabel := parent]
    ensures LabelsWithParent(labels, parent) - {ParentLabel} == labels - {ParentLabel}
  {
  }
}
