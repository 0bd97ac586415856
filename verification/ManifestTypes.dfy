/** Manifest entries as they travel from the sender to the receiver
    (vendored-from-bore/transfer.rs:162-215). */
module ManifestTypes {
  import opened Common

  datatype EntryKind = RegularFile | Directory | Symlink | CharDevice | BlockDevice

  datatype ManifestEntry = ManifestEntry(
    id: nat,
    relPath: string,
    kind: EntryKind,
    size: Option<nat>,
    fullHash: Option<Digest>,
    chunkCount: nat)

  /** `entry.size.unwrap_or(0)` */
  function SizeOf(entry: ManifestEntry): nat {
    match entry.size
    case Some(size) => size
    case None => 0
  }

  predicate UniqueIds(entries: seq<ManifestEntry>) {
    forall i, j :: 0 <= i < j < |entries| ==> entries[i].id != entries[j].id
  }
}
