/** The annotation and label keys the controller reads and writes. */
module Constants {
  /** Annotation naming the replication class directly, on a claim or on its namespace. */
  const VrcValueAnnotation: string := "replication.superphenix.net/class"
  /** Annotation naming the class selector, on a claim or on its namespace; also a policy label. */
  const VrcSelectorAnnotation: string := "replication.superphenix.net/classSelector"
  /** Label marking a descriptor as owned by this controller; its value is the claim's name. */
  const ParentLabel: string := "replication.superphenix.net/parent"
  /** Label carrying the storage-class group, on storage classes and on policies. */
  const StorageClassGroup: string := "replication.superphenix.net/storageClassGroup"

  /** The fixed fields of every descriptor's spec and data source. */
  const PrimaryState: string := "primary"
  const ClaimApiGroup: string := "v1"
  const ClaimKind: string := "PersistentVolumeClaim"
}
