/**
 * The reconciler: for one work-queue key it reads the claim and the descriptor,
 * decides on at most one create or delete, and makes that call.
 */
module Replicator {
  import opened Results
  import opened Keys
  import opened Objects
  import opened Vrc
  import opened Utils

  /** The one call into the descriptor API a pass makes, if any. */
  datatype Call = NoCall | CreateCall(vr: VolumeReplication) | DeleteCall(ref: Ref)

  /** The claim was read and exists without a deletion timestamp. */
  predicate ClaimActive(pvc: Fetch<Option<Claim>>)
  {
    pvc.Fetched? && pvc.value.Some? && !pvc.value.value.deleting
  }

  /** The decision table of one pass, over what the two reads returned. */
  function Decide(key: string, pvc: Fetch<Option<Claim>>, vr: Fetch<Option<VolumeReplication>>, env: Env): (call: Call)
    // A failed read of the claim, or of the descriptor other than NotFound, aborts the pass.
    ensures pvc.FetchFailed? || vr.FetchFailed? ==> call == NoCall
    // A descriptor without the parent label is never touched, whatever the claim's state.
    ensures vr.Fetched? && vr.value.Some? && !IsParentLabelPresent(vr.value.value.labels) ==> call == NoCall
    // A claim gone or being deleted: delete at the key's address, even with no descriptor there.
    ensures (pvc.Fetched? && vr.Fetched? && (vr.value.None? || IsParentLabelPresent(vr.value.value.labels))
             && (pvc.value.None? || pvc.value.value.deleting)) ==> call == DeleteCall(RefOf(key))
    // An owned descriptor of an active claim goes when no class resolves or it no longer matches.
    ensures ClaimActive(pvc) && vr.Fetched? && vr.value.Some? && IsParentLabelPresent(vr.value.value.labels) ==>
            call == (if VolumeReplicationClass(pvc.value.value, env) == ""
                        || !IsVolumeReplicationCorrect(pvc.value.value, env, vr.value.value)
                     then DeleteCall(RefOf(key)) else NoCall)
    // A create happens exactly for an active claim without descriptor whose class resolves, and builds its descriptor.
    ensures call.CreateCall? <==>
            ClaimActive(pvc) && vr == Fetched(None) && VolumeReplicationClass(pvc.value.value, env) != ""
    ensures call.CreateCall? ==> call.vr == BuildVolumeReplication(pvc.value.value, env)
    // An active claim without descriptor whose class does not resolve is left alone.
    ensures ClaimActive(pvc) && vr == Fetched(None) && VolumeReplicationClass(pvc.value.value, env) == "" ==> call == NoCall
    // Every delete is addressed at the key's namespace and name.
    ensures call.DeleteCall? ==> call.ref == RefOf(key)
  {
    match pvc
    case FetchFailed => NoCall
    case Fetched(claim) =>
      match vr
      case FetchFailed => NoCall
      case Fetched(descriptor) =>
        if descriptor.Some? && !IsParentLabelPresent(descriptor.value.labels) then NoCall
        else if claim.None? || claim.value.deleting then DeleteCall(RefOf(key))
        else
          var cls := VolumeReplicationClass(claim.value, env);
          if descriptor.Some? && (cls == "" || !IsVolumeReplicationCorrect(claim.value, env, descriptor.value)) then
            DeleteCall(RefOf(key))
          else if descriptor.None? && cls != "" then
            CreateCall(BuildVolumeReplication(claim.value, env))
          else NoCall
  }

  /** The address a call acts on. */
  function Target(call: Call): Ref
    requires !call.NoCall?
  {
    match call
    case CreateCall(vr) => Ref(vr.namespace, vr.name)
    case DeleteCall(ref) => ref
  }

  /** The descriptor store after a call: a failed call, or a create over an existing descriptor, changes nothing. */
  function Apply(store: map<Ref, VolumeReplication>, faults: Faults, call: Call): (after: map<Ref, VolumeReplication>)
    ensures call.NoCall? ==> after == store
    ensures !call.NoCall? ==> forall r :: r != Target(call) ==> (r in after <==> r in store) && (r in store ==> after[r] == store[r])
    // A delete that does not fail removes exactly its address; a failed one changes nothing.
    ensures call.DeleteCall? && !faults.descriptorDelete ==> after == store - {call.ref}
    ensures call.DeleteCall? && faults.descriptorDelete ==> after == store
    // A create that does not fail stores its descriptor at a free address; otherwise nothing changes.
    ensures call.CreateCall? && !faults.descriptorCreate && Target(call) !in store ==> after == store[Target(call) := call.vr]
    ensures call.CreateCall? && (faults.descriptorCreate || Target(call) in store) ==> after == store
  {
    match call
    case NoCall => store
    case DeleteCall(ref) => if faults.descriptorDelete then store else store - {ref}
    case CreateCall(vr) =>
      var ref := Ref(vr.namespace, vr.name);
      if faults.descriptorCreate || ref in store then store else store[ref := vr]
  }

  /** Reconciles the claim `key` names; returns the call it made. */
  method ReconcileVolumeReplication(cluster: Cluster, key: string) returns (call: Call)
    modifies cluster`store
    ensures call == Decide(key, GetPersistentVolumeClaim(cluster.claims, cluster.faults, key),
                           GetVolumeReplication(old(cluster.store), cluster.faults, key), cluster.env)
    ensures cluster.store == Apply(old(cluster.store), cluster.faults, call)
  {
    var (namespace, name) := SplitKey(key);
    var pvc := GetPersistentVolumeClaim(cluster.claims, cluster.faults, key);
    if pvc.FetchFailed? {
      return NoCall;
    }
    var volumeReplication := GetVolumeReplication(cluster.store, cluster.faults, key);
    if volumeReplication.FetchFailed? {
      return NoCall;
    }
    if volumeReplication.value.Some? && !IsParentLabelPresent(volumeReplication.value.value.labels) {
      return NoCall;
    }
    if pvc.value.None? || pvc.value.value.deleting {
      CleanupVolumeReplication(cluster, name, namespace);
      return DeleteCall(Ref(namespace, name));
    }
    var claim := pvc.value.value;
    var replicationClass := VolumeReplicationClass(claim, cluster.env);
    if volumeReplication.value.Some? {
      var vrcExists := replicationClass != "";
      var vrCorrect := IsVolumeReplicationCorrect(claim, cluster.env, volumeReplication.value.value);
      if !vrcExists || !vrCorrect {
        CleanupVolumeReplication(cluster, name, namespace);
        return DeleteCall(Ref(namespace, name));
      }
    }
    if volumeReplication.value.None? && replicationClass != "" {
      var _ := CreateVolumeReplication(cluster, claim);
      return CreateCall(BuildVolumeReplication(claim, cluster.env));
    }
    return NoCall;
  }

  // ---------------------------------------------------------------------------
  // Passes over an unchanged cluster

  /** The call a pass makes on a given cluster state. */
  function DecideFor(env: Env, claims: map<string, Claim>, faults: Faults, store: map<Ref, VolumeReplication>, key: string): Call
  {
    Decide(key, GetPersistentVolumeClaim(claims, faults, key), GetVolumeReplication(store, faults, key), env)
  }

  /** The descriptor store after one pass. */
  function Pass(env: Env, claims: map<string, Claim>, faults: Faults, store: map<Ref, VolumeReplication>, key: string): map<Ref, VolumeReplication>
  {
    Apply(store, faults, DecideFor(env, claims, faults, store, key))
  }

  /**
   * The state the reconciler aims at for one key: a descriptor it does not own is
   * left alone; otherwise a descriptor exists exactly when the claim is active and a
   * class resolves, and then it matches the claim.
   */
  predicate Settled(env: Env, claims: map<string, Claim>, store: map<Ref, VolumeReplication>, key: string)
  {
    var ref := RefOf(key);
    if ref in store && !IsParentLabelPresent(store[ref].labels) then true
    else if key in claims && !claims[key].deleting && VolumeReplicationClass(claims[key], env) != "" then
      ref in store && IsVolumeReplicationCorrect(claims[key], env, store[ref])
    else ref !in store
  }

  /** A descriptor without the parent label survives every pass, whatever fails. */
  lemma UnownedNeverTouched(env: Env, claims: map<string, Claim>, faults: Faults, store: map<Ref, VolumeReplication>, key: string)
    requires RefOf(key) in store && !IsParentLabelPresent(store[RefOf(key)].labels)
    ensures DecideFor(env, claims, faults, store, key) == NoCall
    ensures Pass(env, claims, faults, store, key) == store
  {
  }

  /** Once a pass has created the descriptor, the next pass on the same cluster makes no call. */
  lemma CreateThenNoCall(env: Env, claims: map<string, Claim>, store: map<Ref, VolumeReplication>, key: string)
    requires IndexedAt(claims, key)
    requires DecideFor(env, claims, NoFaults, store, key).CreateCall?
    ensures DecideFor(env, claims, NoFaults, Pass(env, claims, NoFaults, store, key), key) == NoCall
  {
    var claim := claims[key];
    IndexedClaimRef(claims, key);
    BuiltIsOwnedAndCorrect(claim, env);
  }

  /**
   * A pass deletes a drifted descriptor (no class resolves, or it no longer matches);
   * the next pass creates the descriptor with the class resolved now, when there is one.
   */
  lemma DriftDeleteThenRecreate(env: Env, claims: map<string, Claim>, store: map<Ref, VolumeReplication>, key: string)
    requires IndexedAt(claims, key) && key in claims && !claims[key].deleting
    requires RefOf(key) in store && IsParentLabelPresent(store[RefOf(key)].labels)
    requires VolumeReplicationClass(claims[key], env) == "" || !IsVolumeReplicationCorrect(claims[key], env, store[RefOf(key)])
    ensures DecideFor(env, claims, NoFaults, store, key) == DeleteCall(RefOf(key))
    ensures var next := DecideFor(env, claims, NoFaults, Pass(env, claims, NoFaults, store, key), key);
      next == if VolumeReplicationClass(claims[key], env) != "" then CreateCall(BuildVolumeReplication(claims[key], env)) else NoCall
  {
  }

  /**
   * A claim that is gone or being deleted gets a delete at every pass, also once no
   * descriptor is left; from the first pass on the store no longer changes.
   */
  lemma RemovedClaimDeleteRepeats(env: Env, claims: map<string, Claim>, store: map<Ref, VolumeReplication>, key: string)
    requires key !in claims || claims[key].deleting
    requires RefOf(key) !in store || IsParentLabelPresent(store[RefOf(key)].labels)
    ensures DecideFor(env, claims, NoFaults, store, key) == DeleteCall(RefOf(key))
    ensures var once := Pass(env, claims, NoFaults, store, key);
      && RefOf(key) !in once
      && DecideFor(env, claims, NoFaults, once, key) == DeleteCall(RefOf(key))
      && Pass(env, claims, NoFaults, once, key) == once
  {
  }

  /** A settled store is left as it is by a pass, and no create is made. */
  lemma SettledIsFixpoint(env: Env, claims: map<string, Claim>, store: map<Ref, VolumeReplication>, key: string)
    requires IndexedAt(claims, key) && Settled(env, claims, store, key)
    ensures !DecideFor(env, claims, NoFaults, store, key).CreateCall?
    ensures Pass(env, claims, NoFaults, store, key) == store
  {
  }

  /** One pass from any store either settles it or deletes a drifted descriptor whose claim still resolves a class. */
  lemma OnePass(env: Env, claims: map<string, Claim>, store: map<Ref, VolumeReplication>, key: string)
    requires IndexedAt(claims, key)
    ensures var once := Pass(env, claims, NoFaults, store, key);
      || Settled(env, claims, once, key)
      || (RefOf(key) !in once && key in claims && !claims[key].deleting && VolumeReplicationClass(claims[key], env) != "")
  {
    var ref := RefOf(key);
    if key in claims {
      IndexedClaimRef(claims, key);
      BuiltIsOwnedAndCorrect(claims[key], env);
    }
  }

  /** Two passes over an unchanged cluster settle every key, and a settled store is a fixpoint. */
  lemma TwoPassesSettle(env: Env, claims: map<string, Claim>, store: map<Ref, VolumeReplication>, key: string)
    requires IndexedAt(claims, key)
    ensures var twice := Pass(env, claims, NoFaults, Pass(env, claims, NoFaults, store, key), key);
      && Settled(env, claims, twice, key)
      && Pass(env, claims, NoFaults, twice, key) == twice
  {
    var once := Pass(env, claims, NoFaults, store, key);
    OnePass(env, claims, store, key);
    if Settled(env, claims, once, key) {
      SettledIsFixpoint(env, claims, once, key);
    } else {
      // The first pass deleted a drifted descriptor; the second creates it anew.
      IndexedClaimRef(claims, key);
      BuiltIsOwnedAndCorrect(claims[key], env);
    }
    var twice := Pass(env, claims, NoFaults, once, key);
    SettledIsFixpoint(env, claims, twice, key);
  }
}
