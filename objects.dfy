/**
 * The cluster objects the controller sees, as typed records. Missing map entries and
 * missing fields of a descriptor read as "", as they do in the source.
 */
module Objects {
  import opened Results
  import opened Keys

  type StringMap = map<string, string>

  /** Reading a key of a string map: "" when the key is absent (a nil map is the empty map). */
  function Get(m: StringMap, k: string): (v: string)
    ensures k in m ==> v == m[k]
    ensures k !in m ==> v == ""
  {
    if k in m then m[k] else ""
  }

  /**
   * A persistent volume claim. `storageClassName` is "" when the claim names no
   * storage class; `provisioner` is the claim's provisioner as its annotations give
   * it ("" when none); `deleting` is set when the claim carries a deletion timestamp.
   */
  datatype Claim = Claim(
    namespace: string,
    name: string,
    annotations: StringMap,
    labels: StringMap,
    storageClassName: string,
    provisioner: string,
    deleting: bool)

  datatype Namespace = Namespace(name: string, annotations: StringMap)

  /** A replication class (policy): its name, its labels and the provisioner in its spec. */
  datatype Policy = Policy(name: string, labels: StringMap, provisioner: string)

  datatype DataSource = DataSource(apiGroup: string, kind: string, name: string)

  datatype Spec = Spec(volumeReplicationClass: string, replicationState: string, dataSource: DataSource)

  /** A replication descriptor (VolumeReplication). */
  datatype VolumeReplication = VolumeReplication(
    namespace: string,
    name: string,
    annotations: StringMap,
    labels: StringMap,
    spec: Spec)

  /** Address of a descriptor in the API: namespace and name. */
  datatype Ref = Ref(namespace: string, name: string)

  /** The descriptor address a work-queue key stands for. */
  function RefOf(key: string): Ref
  {
    var (namespace, name) := SplitKey(key);
    Ref(namespace, name)
  }

  /**
   * What the class resolver reads: the namespace cache, the storage classes (name to
   * labels) and the answer of the API to a list of replication classes.
   */
  datatype Env = Env(
    namespaces: map<string, Namespace>,
    storageClasses: map<string, StringMap>,
    policies: Fetch<seq<Policy>>)

  /** Which calls into the cluster fail with an error other than NotFound. */
  datatype Faults = Faults(claimGet: bool, claimList: bool, descriptorGet: bool, descriptorCreate: bool, descriptorDelete: bool)

  const NoFaults := Faults(false, false, false, false, false)

  /**
   * The cluster as the controller sees it: the resolver's view, the claim cache keyed
   * by object key, and the descriptor store of the API.
   */
  class Cluster {
    var env: Env
    var claims: map<string, Claim>
    var store: map<Ref, VolumeReplication>
    var faults: Faults

    constructor (env: Env, claims: map<string, Claim>, store: map<Ref, VolumeReplication>, faults: Faults)
      ensures this.env == env && this.claims == claims && this.store == store && this.faults == faults
    {
      this.env := env;
      this.claims := claims;
      this.store := store;
      this.faults := faults;
    }
  }

  /** The claim cached under `key` is filed under its own object key, and its names hold no slash. */
  predicate IndexedAt(claims: map<string, Claim>, key: string)
  {
    key in claims ==>
      var c := claims[key];
      ObjectKey(c.namespace, c.name) == key && '/' !in c.namespace && '/' !in c.name
  }

  /** The claim cached under `key` lives at the descriptor address the key splits into. */
  lemma IndexedClaimRef(claims: map<string, Claim>, key: string)
    requires key in claims && IndexedAt(claims, key)
    ensures RefOf(key) == Ref(claims[key].namespace, claims[key].name)
  {
    SplitObjectKey(claims[key].namespace, claims[key].name);
  }
}
