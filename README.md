# volume-replicator: the reconciliation decision engine, in Dafny

The controller keeps one VolumeReplication (a *descriptor*) beside each
PersistentVolumeClaim (a *claim*) that should be replicated. For a claim key it
resolves the replication class (VolumeReplicationClass, a *policy*) the claim
should carry, and decides whether the descriptor must be created, deleted or left
alone. Event handlers turn namespace, claim and descriptor notifications into
claim keys on a work queue.

Modules, one per source file of the core:

- `Vrc` (`vrc.dfy`) — the class resolver. A class named directly by the
  `replication.superphenix.net/class` annotation wins, the claim's non-empty value
  before its namespace's. Otherwise the `classSelector` annotation (same
  precedence), the claim's storage-class group and its provisioner select the
  policies; a name comes back only when exactly one candidate is left. The
  provisioner filter is the loop of `FilterVrcFromSelector`, proved equal to the
  recursive `ProvisionerFilter`. `ClassValue` and `ClassSelector` are the two
  annotation readers.
- `Utils` (`utils.dfy`) — ownership test, label merge, the descriptor built for a
  claim, the correctness check, the claim and descriptor reads, and the create and
  delete calls as module-level methods that take a `Cluster` and change its
  `store` field, the descriptor store of the API.
- `Replicator` (`replicator.dfy`) — `Decide`, the decision table, and
  `ReconcileVolumeReplication`, which makes the one call `Decide` picks. Lemmas
  about repeated passes over an unchanged cluster: a create is followed by
  silence, a drift delete by a re-create, and two passes always reach a settled
  store that further passes leave alone.
- `Handlers` (`handlers.dfy`) — a `Controller` class whose `queue` field is the
  set of pending keys, and the four handlers as methods that only add to it.
- `Keys`, `Objects`, `Constants`, `Results` — queue keys (join and split at the
  slash), the typed cluster objects, the annotation and label keys, and
  Option/Fetch results.

Calls into the cluster are parameters of the model. `Env` holds the namespace
cache, the storage classes and the answer of the policy list (`FetchFailed` for
an error). `Cluster.claims` is the claim cache keyed by object key. A `Faults`
record says which reads, lists, creates and deletes fail with an error other than
NotFound. Missing map entries and missing descriptor fields read as "", as Go map
indexing and the unstructured accessors give them. The two storage-class helpers
whose bodies are not part of this model are abstract: `StorageClassGroupOf` is an
error for a claim without storage class or with an unknown one, else the class's
group label. The claim's provisioner is an opaque `Claim` field.

Notes on the code:

- A gone or deleting claim gets a delete at every pass, also when no descriptor
  is left (the NotFound is ignored). Repeated passes therefore settle on an
  unchanged store, not on no call (`RemovedClaimDeleteRepeats`,
  `TwoPassesSettle`).
- Policies are listed with a label selector, which also matches policies
  carrying further labels besides the group and the selector (`ListPolicies`).
- The data-source kind is `PersistentVolumeClaim`.
- `getVolumeReplicationClass` is defined twice. The model follows the one in
  `internal/replicator/vrc.go` (direct value, then selector). The older one in
  `internal/replicator/utils.go` and the constant names `VrcAnnotation` and
  `VrParentLabel` that no file defines are read as the `class` annotation and the
  `parent` label of `internal/constants/const.go`.

## Model

| member | source | states |
|---|---|---|
| `Keys.ObjectKey` | internal/replicator/handlers.go:43-48 | a claim's queue key is "namespace/name", or the bare name for an empty namespace |
| `Keys.JoinKey` | internal/replicator/handlers.go:54-55 | a descriptor's key puts one slash between namespace and name |
| `Keys.SplitKey` | internal/replicator/replicator.go:72 | the parts never hold a slash; a key without slash is a bare name; a key with a slash is either malformed, giving two empty parts, or exactly namespace, slash, name |
| `Keys.SplitJoin` | internal/replicator/replicator.go:70-72 | splitting a "namespace/name" key gives back the namespace and the name when neither holds a slash |
| `Keys.SplitObjectKey` | internal/replicator/replicator.go:70-72 | splitting a claim's queue key gives back its namespace and name |
| `Keys.SplitMalformed` | internal/replicator/replicator.go:72 | a key with two slashes splits into two empty parts; the error is ignored |
| `Objects.Get` | internal/replicator/vrc.go:102-103 | reading an absent key of a string map gives "" |
| `Objects.IndexedClaimRef` | internal/replicator/replicator.go:72-86 | the claim cached under a key and the descriptor read for that key share namespace and name |
| `Vrc.AnnotationValue` | internal/replicator/vrc.go:89-104 | a non-empty claim annotation is returned; else the namespace's value; "" when the namespace is not cached |
| `Vrc.ClassValue` | internal/replicator/vrc.go:75-77 | the direct class is the claim's non-empty `class` annotation, else its namespace's, else "" |
| `Vrc.ClassSelector` | internal/replicator/vrc.go:83-85 | the selector is the claim's non-empty `classSelector` annotation, else its namespace's, else "" |
| `Vrc.ClaimAnnotationWins` | internal/replicator/vrc.go:89-93 | a non-empty claim annotation is the answer whatever any namespace says |
| `Vrc.VolumeReplicationClass` | internal/replicator/vrc.go:17-26 | a non-empty direct class is returned, otherwise the selector's result |
| `Vrc.ClassFromSelector` | internal/replicator/vrc.go:33-69 | an empty selector, a failed or empty group or a failed list give ""; a non-empty result is the name of a listed policy carrying the group and selector labels and serving the claim's provisioner |
| `Vrc.DirectClassWins` | internal/replicator/vrc.go:17-26 | with a non-empty direct class, storage classes and policies cannot change the resolved class |
| `Vrc.StorageClassGroupOf` | internal/replicator/vrc.go:40-45 | the group lookup fails exactly for a claim without storage class or with an unknown one |
| `Vrc.SelectorFailuresGiveEmpty` | internal/replicator/vrc.go:33-58 | an empty selector, a failed group lookup, an empty group or a failed list all resolve to "" |
| `Vrc.ListPolicies` | internal/replicator/vrc.go:110-123 | the label-selected list is no longer than the full list |
| `Vrc.ListPoliciesMembers` | internal/replicator/vrc.go:112-120 | a policy is listed exactly when it carries the group label and the selector label with the values asked for |
| `Vrc.ProvisionerFilter` | internal/replicator/vrc.go:126-135 | the filtered names are no more than the listed policies |
| `Vrc.FilterVrc` | internal/replicator/vrc.go:109-138 | an error exactly when the list fails; otherwise at most as many names as policies, and a name is returned exactly when some policy with both labels serves the provisioner and bears it |
| `Vrc.FilterVrcMembers` | internal/replicator/vrc.go:112-135 | the names kept are exactly those of label-matched policies of the full list that serve the provisioner |
| `Vrc.FilterVrcFromSelector` | internal/replicator/vrc.go:109-138 | a failed list gives an error and no names; otherwise the loop returns exactly the provisioner filter of the listed policies |
| `Vrc.ProvisionerFilterMembers` | internal/replicator/vrc.go:127-135 | a name is kept exactly when a listed policy with that name has the claim's provisioner, or the claim's is "" |
| `Vrc.ProvisionerFilterIsSubsequence` | internal/replicator/vrc.go:126-135 | the kept names are a subsequence of the listed names, in list order |
| `Vrc.EmptyProvisionerKeepsAll` | internal/replicator/vrc.go:129-131 | a claim without provisioner keeps every listed policy |
| `Vrc.ProvisionerFilterEmpty` | internal/replicator/vrc.go:126-135 | nothing is kept exactly when no listed policy serves the provisioner |
| `Vrc.SingleCandidate` | internal/replicator/vrc.go:60-68 | exactly one name is kept iff exactly one listed policy serves the provisioner, and the name is that policy's |
| `Vrc.SelectorResolvesUniqueCandidate` | internal/replicator/vrc.go:33-69 | the selector resolves to a name iff selector, group and list are available and exactly one candidate remains; the name is that candidate's |
| `Utils.IsParentLabelPresent` | internal/replicator/utils.go:122-124 | owned iff the parent label is present with a non-empty value; absent, nil labels or "" are not owned |
| `Utils.LabelsWithParent` | internal/replicator/utils.go:127-130 | the result maps the parent label to the parent, overwriting an old value, and keeps every other label |
| `Utils.IsVolumeReplicationCorrect` | internal/replicator/utils.go:17-35 | correct iff the spec class equals the class resolved now and the data source is v1/PersistentVolumeClaim/claim name |
| `Utils.AnyMismatchIsIncorrect` | internal/replicator/utils.go:22-32 | changing any one of class, API group, kind or name of a correct descriptor makes it incorrect |
| `Utils.BuildVolumeReplication` | internal/replicator/utils.go:66-85 | the built descriptor has the claim's name, namespace and annotations, its labels merged with the parent label by `LabelsWithParent`, the resolved class, state primary and the claim as data source |
| `Utils.BuiltIsOwnedAndCorrect` | internal/replicator/utils.go:64-91 | the built descriptor passes the correctness check for its claim, and is owned iff the claim has a name |
| `Utils.GetPersistentVolumeClaim` | internal/replicator/utils.go:49-60 | a failed cache read is an error; a missing key is no claim and no error |
| `Utils.GetVolumeReplication` | internal/replicator/utils.go:94-98 | the descriptor at the address the key splits into; NotFound reads as no descriptor |
| `Utils.CleanupVolumeReplication` | internal/replicator/utils.go:38-46 | a successful or NotFound delete removes only that address from the store; a failure leaves the store as it was; no error reaches the caller |
| `Utils.CreateVolumeReplication` | internal/replicator/utils.go:64-91 | creates the built descriptor at the claim's address; an existing descriptor or a failure leaves the store as it was and returns the error |
| `Utils.GetLabelsWithParentAsWritten` | internal/replicator/utils.go:127-130 | as written: a nil map panics; otherwise the caller's own map gets the parent label and is returned |
| `Utils.NilLabelsPanicAsWritten` | internal/replicator/utils.go:127-130 | as written, a claim without labels makes the merge panic |
| `Utils.ClaimLabelsChangeAsWritten` | internal/replicator/utils.go:127-130 | as written, the labels of the claim passed in gain the parent label |
| `Utils.LabelsWithParentCorrected` | internal/replicator/utils.go:127-130 | the corrected merge gives the parent label alone for a claim without labels and differs from the claim's labels in the parent label only |
| `Replicator.Decide` | internal/replicator/replicator.go:70-130 | the decision table: read errors abort; an unowned descriptor is never touched; a gone or deleting claim gets a delete; an owned descriptor goes when no class resolves or it is incorrect; a create happens exactly for an active claim without descriptor and a non-empty class; an active claim without descriptor and with no class gets no call |
| `Replicator.Apply` | internal/replicator/replicator.go:95-129 | one call changes the store at its own address only; a delete that does not fail removes that address, a create that does not fail stores its descriptor at a free address, and a failed call or no call changes nothing |
| `Replicator.ReconcileVolumeReplication` | internal/replicator/replicator.go:70-130 | the pass makes exactly the call `Decide` gives for what it read, and the store changes as that call does |
| `Replicator.UnownedNeverTouched` | internal/replicator/replicator.go:89-92 | a descriptor without parent label gets no call and survives the pass, whatever fails |
| `Replicator.CreateThenNoCall` | internal/replicator/replicator.go:112-129 | after a pass that created the descriptor, the next pass makes no call |
| `Replicator.DriftDeleteThenRecreate` | internal/replicator/replicator.go:112-129 | a drifted owned descriptor is deleted; the next pass creates it with the class resolved now, if any |
| `Replicator.RemovedClaimDeleteRepeats` | internal/replicator/replicator.go:95-99 | a gone or deleting claim gets a delete at every pass, also with no descriptor left, and the store stops changing after the first |
| `Replicator.SettledIsFixpoint` | internal/replicator/replicator.go:89-129 | on a settled store a pass changes nothing and creates nothing |
| `Replicator.OnePass` | internal/replicator/replicator.go:89-129 | one pass settles the key, unless it deleted a drifted descriptor of a claim that still resolves a class |
| `Replicator.TwoPassesSettle` | internal/replicator/replicator.go:59-130 | two passes on an unchanged cluster reach a settled store: an owned descriptor exists iff the claim is active with a class, and then it is correct; later passes leave it |
| `Handlers.ClaimsInNamespace` | internal/replicator/handlers.go:23-27 | the claim lister returns only claims of the namespace asked for |
| `Handlers.NamespaceUpdateKeys` | internal/replicator/handlers.go:17-40 | an unchanged class value or a failed claim list enqueue nothing; every key enqueued is that of a cached claim of the namespace |
| `Handlers.DescriptorUpdateKeys` | internal/replicator/handlers.go:61-77 | a key is enqueued exactly when the new descriptor is owned and its spec changed, and it is the descriptor's "namespace/name" |
| `Handlers.Controller.constructor` | internal/replicator/replicator.go:19-23 | a new controller starts with an empty queue |
| `Handlers.Controller.NamespaceUpdate` | internal/replicator/handlers.go:17-38 | adds the keys of the namespace's claims when the direct class value changed, and nothing else; the queue only grows |
| `Handlers.Controller.PvcUpdate` | internal/replicator/handlers.go:43-51 | adds exactly the claim's key |
| `Handlers.Controller.VolumeReplicationCreateOrDelete` | internal/replicator/handlers.go:54-58 | adds exactly "namespace/name" of the descriptor |
| `Handlers.Controller.VolumeReplicationUpdate` | internal/replicator/handlers.go:61-77 | adds nothing for an unowned descriptor or an unchanged spec, else exactly the descriptor's key |
| `Handlers.UnchangedClassEnqueuesNothing` | internal/replicator/handlers.go:18-21 | equal direct class values, absent counting as "", enqueue nothing |
| `Handlers.SelectorChangeEnqueuesNothing` | internal/replicator/handlers.go:19 | a change of the namespace's selector annotation alone enqueues nothing |
| `Handlers.NamespaceUpdateEnqueuesItsClaims` | internal/replicator/handlers.go:23-38 | after a class change, exactly the keys of that namespace's cached claims are enqueued, none from another namespace |
| `Handlers.MetadataUpdateEnqueuesNothing` | internal/replicator/handlers.go:71-74 | an update to labels or annotations alone enqueues nothing |
| `Handlers.DescriptorKeyIsClaimKey` | internal/replicator/handlers.go:54-58 | the key a descriptor event enqueues is its claim's key, and the reconciler splits it back into the descriptor's address |

## Findings

| source | as written | input that shows it | evidently intended | confidence | as-written member | corrected member |
|---|---|---|---|---|---|---|
| internal/replicator/utils.go:127-130 | writes the parent label into the map it is given; a nil map makes the write panic | a claim without labels (nil map), as in the create case of the reconciler's own tests | a claim without labels gets a descriptor labelled with the parent label only | high, not executed | `Utils.NilLabelsPanicAsWritten` | `Utils.LabelsWithParentCorrected` |
| internal/replicator/utils.go:127-130 | returns the caller's own map after writing into it, so building a descriptor changes the labels of the cached claim | a claim labelled {"app": "db"} named "data-1" | a new map; the claim's labels stay as they were, as the label-merge test checks | high, not executed | `Utils.ClaimLabelsChangeAsWritten` | `Utils.LabelsWithParent` |

The rest of the model uses the corrected, copying merge.

## Left out

- Worker plumbing (`Run`, `runWorker`, `processNextItem`): goroutines, the rate-limited queue's retries, `Done` and shutdown. The queue is the set of pending keys that the handlers add to.
- Informer factories, resync and cache sync, the Kubernetes and dynamic clients, leader election and the command-line entry point: I/O and concurrency.
- The claim-name exclusion pattern: its matching code is not part of this model, and regular-expression matching is out of scope.
- Logging.
- The bodies of `getStorageClassGroup` and `getPvcProvisioner` are not part of this model; the group lookup is the abstract `StorageClassGroupOf` and the provisioner an opaque claim field, so the fallback to the deprecated provisioner annotation is not modelled.
- The older `getVolumeReplicationClass` in `internal/replicator/utils.go:104-119`: it clashes with the one in `vrc.go`; only the `vrc.go` version is modelled.
- Unstructured objects: a descriptor is a typed record, so spec fields beyond class, state and data source, and the `apiVersion` and `kind` fields, are not modelled; comparing two specs is datatype equality.
- The error path of the key function in `handlers.go` (it fails only for objects without metadata, which a claim never is).
- `Handlers.Controller.NamespaceUpdate`: the lister's result is a set, so the order in which keys are added is not modelled; with a set queue the order does not matter.
- `Utils.CreateVolumeReplication`: an `AlreadyExists` error stands for whatever the API answers when the address is taken; the reconciler only logs it.
- `Replicator.ReconcileVolumeReplication`: one pass sees one answer from the namespace cache, the storage classes and the policy list. The source resolves the class up to three times per pass (`replicator.go:102`, inside `isVolumeReplicationCorrect` at `utils.go:22` and inside `createVolumeReplication` at `utils.go:77`), each time re-reading the namespace cache and listing the policies anew, so a list that fails or changes between those calls (creating a descriptor with class "", or deleting a correct one) is not modelled.
- `Replicator.Decide`: that a created descriptor carries the class just decided holds only under the single answer above; the source builds it from a fresh resolution.
- `Keys.SplitMalformed`: for a key with two slashes the model goes on with ("", "") and the pass deletes at that empty address. In the source the read of a descriptor with an empty name is refused by the dynamic client with an error other than NotFound, which aborts the pass; that client is not part of this model. The handlers never enqueue such keys.
