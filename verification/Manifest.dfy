/** What the receiver checks of a manifest before it touches the disk
    (vendored-from-bore/transfer.rs:1868-1927). */
module Manifest {
  import opened Chunking
  import opened Common
  import opened ManifestTypes
  import opened PathCodec

  datatype RootSource = Filesystem | Stdin

  datatype ManifestError =
    | EmptyManifest
    | RootHasPath
    | DuplicateId
    | BadPath
    | DuplicatePath
    | BelowNonDirectory
    | MissingMetadata
    | BadChunkCount
    | BadStdinEntry

  type Names = seq<Name>

  /** The path of an entry, if it decodes to one of normal components only. */
  function PathNames(relPath: string): Option<Names> {
    match DecodeRelative(relPath)
    case Err(_) => None
    case Ok(path) => if AllNormal(Components(path)) then Some(PathCodec.Names(Components(path))) else None
  }

  function MetadataError(rootSource: RootSource, e: ManifestEntry): Option<ManifestError> {
    if !e.kind.RegularFile? then None
    else if rootSource.Stdin? then (if e.relPath != "" || e.size.Some? then Some(BadStdinEntry) else None)
    else if e.size.None? || e.fullHash.None? then Some(MissingMetadata)
    else if e.chunkCount != ChunkCountFor(e.size.value) then Some(BadChunkCount)
    else None
  }

  // ------------------------------------------------------------------- the checks, one entry at a time

  predicate IdTaken(entries: seq<ManifestEntry>, k: nat)
    requires k < |entries|
  {
    exists j :: 0 <= j < k && entries[j].id == entries[k].id
  }

  predicate PathTaken(paths: seq<Option<Names>>, k: nat)
    requires k < |paths|
  {
    exists j :: 0 <= j < k && paths[j] == paths[k]
  }

  /** An earlier entry that is no directory lies on the way to this one. */
  predicate Blocked(entries: seq<ManifestEntry>, paths: seq<Option<Names>>, k: nat)
    requires k < |entries| == |paths| && paths[k].Some?
  {
    exists j :: 0 <= j < k && paths[j].Some? && paths[j].value < paths[k].value && !entries[j].kind.Directory?
  }

  function EntryError(rootSource: RootSource, entries: seq<ManifestEntry>, paths: seq<Option<Names>>, k: nat): Option<ManifestError>
    requires k < |entries| == |paths|
  {
    if IdTaken(entries, k) then Some(DuplicateId)
    else if paths[k].None? then Some(BadPath)
    else if PathTaken(paths, k) then Some(DuplicatePath)
    else if Blocked(entries, paths, k) then Some(BelowNonDirectory)
    else MetadataError(rootSource, entries[k])
  }

  /** The first error from entry `k` on. */
  function FirstError(rootSource: RootSource, entries: seq<ManifestEntry>, paths: seq<Option<Names>>, k: nat): Option<ManifestError>
    requires k <= |entries| == |paths|
    decreases |entries| - k
  {
    if k == |entries| then None
    else
      var error := EntryError(rootSource, entries, paths, k);
      if error.Some? then error else FirstError(rootSource, entries, paths, k + 1)
  }

  function Paths(entries: seq<ManifestEntry>): (paths: seq<Option<Names>>)
    ensures |paths| == |entries|
  {
    seq(|entries|, k requires 0 <= k < |entries| => PathNames(entries[k].relPath))
  }

  /** What `validate_manifest` answers: the first thing that is wrong, if any. */
  function Verdict(rootSource: RootSource, entries: seq<ManifestEntry>): Option<ManifestError> {
    if |entries| == 0 then Some(EmptyManifest)
    else if entries[0].relPath != "" then Some(RootHasPath)
    else FirstError(rootSource, entries, Paths(entries), 0)
  }

  // -------------------------------------------------------------------------------- the method

  ghost predicate Seen(entries: seq<ManifestEntry>, paths: seq<Option<Names>>, k: nat, ids: set<nat>, kinds: map<Names, EntryKind>)
    requires k <= |entries| == |paths|
  {
    && (forall id :: id in ids <==> exists j :: 0 <= j < k && entries[j].id == id)
    && (forall j :: 0 <= j < k ==> paths[j].Some? && paths[j].value in kinds && kinds[paths[j].value] == entries[j].kind)
    && (forall p :: p in kinds ==> exists j :: 0 <= j < k && paths[j] == Some(p))
  }

  lemma SeenOneMore(entries: seq<ManifestEntry>, paths: seq<Option<Names>>, k: nat, ids: set<nat>, kinds: map<Names, EntryKind>)
    requires k < |entries| == |paths| && Seen(entries, paths, k, ids, kinds)
    requires paths[k].Some? && paths[k].value !in kinds
    ensures Seen(entries, paths, k + 1, ids + {entries[k].id}, kinds[paths[k].value := entries[k].kind])
  {
    var kinds' := kinds[paths[k].value := entries[k].kind];
    forall p | p in kinds' ensures exists j :: 0 <= j < k + 1 && paths[j] == Some(p) {
      if p in kinds {
        var j :| 0 <= j < k && paths[j] == Some(p);
      } else {
        assert paths[k] == Some(p);
      }
    }
    var ids' := ids + {entries[k].id};
    forall id ensures id in ids' <==> exists j :: 0 <= j < k + 1 && entries[j].id == id {
      if id in ids {
        var j :| 0 <= j < k && entries[j].id == id;
      } else if id in ids' {
        assert entries[k].id == id;
      }
    }
  }

  lemma TakenIffInKinds(entries: seq<ManifestEntry>, paths: seq<Option<Names>>, k: nat, ids: set<nat>, kinds: map<Names, EntryKind>)
    requires k < |entries| == |paths| && Seen(entries, paths, k, ids, kinds) && paths[k].Some?
    ensures PathTaken(paths, k) <==> paths[k].value in kinds
  {
    if paths[k].value in kinds {
      var j :| 0 <= j < k && paths[j] == Some(paths[k].value);
    }
  }

  /** `path.parent()` until there is none: the ancestors from the nearest to the root. */
  method FindsNonDirectory(kinds: map<Names, EntryKind>, path: Names) returns (found: bool)
    ensures found <==> exists p :: p in kinds && p < path && !kinds[p].Directory?
  {
    var length := |path|;
    while length > 0
      invariant 0 <= length <= |path|
      invariant forall m :: length <= m < |path| && path[..m] in kinds ==> kinds[path[..m]].Directory?
    {
      length := length - 1;
      if path[..length] in kinds && !kinds[path[..length]].Directory? {
        return true;
      }
    }
    forall p | p in kinds && p < path ensures kinds[p].Directory? {
      assert p == path[..|p|];
    }
    return false;
  }

  lemma BlockedIffFound(entries: seq<ManifestEntry>, paths: seq<Option<Names>>, k: nat, ids: set<nat>,
                        kinds: map<Names, EntryKind>, all: map<Names, EntryKind>)
    requires k < |entries| == |paths| && Seen(entries, paths, k, ids, kinds) && paths[k].Some?
    requires all == kinds[paths[k].value := entries[k].kind]
    ensures Blocked(entries, paths, k) <==> exists p :: p in all && p < paths[k].value && !all[p].Directory?
  {
    if exists p :: p in all && p < paths[k].value && !all[p].Directory? {
      var p :| p in all && p < paths[k].value && !all[p].Directory?;
      var j :| 0 <= j < k && paths[j] == Some(p);
      assert Blocked(entries, paths, k);
    }
    if Blocked(entries, paths, k) {
      var j :| 0 <= j < k && paths[j].Some? && paths[j].value < paths[k].value && !entries[j].kind.Directory?;
      assert paths[j].value in all;
    }
  }

  method CheckMetadata(rootSource: RootSource, e: ManifestEntry) returns (r: Option<ManifestError>)
    ensures r == MetadataError(rootSource, e)
  {
    if e.kind.RegularFile? {
      match rootSource {
        case Filesystem =>
          if e.size.None? || e.fullHash.None? {
            return Some(MissingMetadata);
          }
          if e.chunkCount != ChunkCountFor(e.size.value) {
            return Some(BadChunkCount);
          }
        case Stdin =>
          if e.relPath != "" || e.size.Some? {
            return Some(BadStdinEntry);
          }
      }
    }
    return None;
  }

  method ValidateManifest(rootSource: RootSource, entries: seq<ManifestEntry>) returns (r: Option<ManifestError>)
    ensures r == Verdict(rootSource, entries)
  {
    if |entries| == 0 {
      return Some(EmptyManifest);
    }
    if entries[0].relPath != "" {
      return Some(RootHasPath);
    }
    ghost var paths := Paths(entries);
    var ids: set<nat> := {};
    var kinds: map<Names, EntryKind> := map[];
    for k := 0 to |entries|
      invariant Seen(entries, paths, k, ids, kinds)
      invariant FirstError(rootSource, entries, paths, 0) == FirstError(rootSource, entries, paths, k)
    {
      if entries[k].id in ids {
        return Some(DuplicateId);
      }
      var path := PathNames(entries[k].relPath);
      assert path == paths[k];
      if path.None? {
        return Some(BadPath);
      }
      TakenIffInKinds(entries, paths, k, ids, kinds);
      if path.value in kinds {
        return Some(DuplicatePath);
      }
      SeenOneMore(entries, paths, k, ids, kinds);
      ghost var before, idsBefore := kinds, ids;
      ids := ids + {entries[k].id};
      kinds := kinds[path.value := entries[k].kind];
      var blocked := FindsNonDirectory(kinds, path.value);
      BlockedIffFound(entries, paths, k, idsBefore, before, kinds);
      if blocked {
        return Some(BelowNonDirectory);
      }
      var error := CheckMetadata(rootSource, entries[k]);
      if error.Some? {
        return error;
      }
    }
    return None;
  }

  // -------------------------------------------------------------------- what acceptance means

  /** No entry is at or below an earlier one that is not a directory; none is at an earlier one. */
  ghost predicate TreeShaped(entries: seq<ManifestEntry>) {
    forall i, j :: 0 <= i < j < |entries| ==> Compatible(entries[i], entries[j])
  }

  predicate Compatible(earlier: ManifestEntry, later: ManifestEntry) {
    MayPrecede(PathNames(earlier.relPath), earlier.kind, PathNames(later.relPath))
  }

  predicate MayPrecede(p: Option<Names>, kind: EntryKind, q: Option<Names>) {
    p.Some? && q.Some? && p.value <= q.value ==> p != q && kind.Directory?
  }

  lemma PrecedesByCases(p: Option<Names>, kind: EntryKind, q: Option<Names>)
    requires q.Some?
    ensures MayPrecede(p, kind, q) <==> p != q && !(p.Some? && p.value < q.value && !kind.Directory?)
  {
    if p.Some? && p.value <= q.value && |p.value| == |q.value| {
      assert p.value == q.value;
    }
  }

  ghost predicate Acceptable(rootSource: RootSource, entries: seq<ManifestEntry>) {
    && |entries| > 0 && entries[0].relPath == ""
    && UniqueIds(entries)
    && (forall k :: 0 <= k < |entries| ==> PathNames(entries[k].relPath).Some?)
    && TreeShaped(entries)
    && (forall k :: 0 <= k < |entries| ==> MetadataError(rootSource, entries[k]).None?)
  }

  lemma {:induction false} NoErrorFrom(rootSource: RootSource, entries: seq<ManifestEntry>, paths: seq<Option<Names>>, k: nat)
    requires k <= |entries| == |paths|
    ensures FirstError(rootSource, entries, paths, k).None? <==>
            forall i :: k <= i < |entries| ==> EntryError(rootSource, entries, paths, i).None?
    decreases |entries| - k
  {
    if k < |entries| {
      NoErrorFrom(rootSource, entries, paths, k + 1);
    }
  }

  lemma NoErrorAt(rootSource: RootSource, entries: seq<ManifestEntry>, k: nat)
    requires k < |entries|
    ensures EntryError(rootSource, entries, Paths(entries), k).None? <==>
            && (forall j :: 0 <= j < k ==> entries[j].id != entries[k].id)
            && PathNames(entries[k].relPath).Some?
            && (forall j :: 0 <= j < k ==> Compatible(entries[j], entries[k]))
            && MetadataError(rootSource, entries[k]).None?
  {
    var paths := Paths(entries);
    assert paths[k] == PathNames(entries[k].relPath);
    if paths[k].Some? {
      forall j | 0 <= j < k
        ensures Compatible(entries[j], entries[k]) <==>
                  paths[j] != paths[k] && !(paths[j].Some? && paths[j].value < paths[k].value && !entries[j].kind.Directory?)
      {
        assert paths[j] == PathNames(entries[j].relPath);
        PrecedesByCases(paths[j], entries[j].kind, paths[k]);
      }
    }
  }

  /** A manifest is accepted exactly when it has a root at the empty path, distinct ids, paths of
      normal components that are distinct and never below an earlier entry that is no directory,
      and complete metadata with the right number of chunks. */
  lemma AcceptedIffAcceptable(rootSource: RootSource, entries: seq<ManifestEntry>)
    ensures Verdict(rootSource, entries).None? <==> Acceptable(rootSource, entries)
  {
    if |entries| > 0 && entries[0].relPath == "" {
      NoErrorFrom(rootSource, entries, Paths(entries), 0);
      forall k | 0 <= k < |entries|
        ensures EntryError(rootSource, entries, Paths(entries), k).None? <==>
                && (forall j :: 0 <= j < k ==> entries[j].id != entries[k].id)
                && PathNames(entries[k].relPath).Some?
                && (forall j :: 0 <= j < k ==> Compatible(entries[j], entries[k]))
                && MetadataError(rootSource, entries[k]).None?
      {
        NoErrorAt(rootSource, entries, k);
      }
    }
  }

  // ------------------------------------------------------------------- what acceptance leaves open

  /** `upper` is on the way to `lower`. */
  predicate Above(upper: ManifestEntry, lower: ManifestEntry) {
    ProperPrefix(PathNames(upper.relPath), PathNames(lower.relPath))
  }

  predicate ProperPrefix(p: Option<Names>, q: Option<Names>) {
    p.Some? && q.Some? && p.value < q.value
  }

  /** What has other entries below it, listed before or after, is a directory. */
  ghost predicate Consistent(entries: seq<ManifestEntry>) {
    forall i, j :: 0 <= i < |entries| && 0 <= j < |entries| && Above(entries[i], entries[j]) ==> entries[i].kind.Directory?
  }

  /** What has entries below it that come earlier is a directory. The check does not look at this. */
  ghost predicate LaterAncestorsAreDirectories(entries: seq<ManifestEntry>) {
    forall i, j :: 0 <= i < j < |entries| && Above(entries[j], entries[i]) ==> entries[j].kind.Directory?
  }

  /** An accepted manifest is that of some tree exactly when the ancestors it lists too late are
      directories as well. */
  lemma ConsistentIff(rootSource: RootSource, entries: seq<ManifestEntry>)
    requires Verdict(rootSource, entries).None?
    ensures Consistent(entries) <==> LaterAncestorsAreDirectories(entries)
  {
    AcceptedIffAcceptable(rootSource, entries);
    if LaterAncestorsAreDirectories(entries) {
      forall i, j | 0 <= i < |entries| && 0 <= j < |entries| && Above(entries[i], entries[j])
        ensures entries[i].kind.Directory?
      {
        if i < j {
          assert Compatible(entries[i], entries[j]);
        } else {
          assert i != j;
        }
      }
    }
  }

  /** Every entry comes before the entries below it, as the sender lists them. */
  ghost predicate ParentsFirst(entries: seq<ManifestEntry>) {
    forall i, j :: 0 <= i < |entries| && 0 <= j < |entries| && Above(entries[i], entries[j]) ==> i < j
  }

  /** In the sender's order nothing is too late. */
  lemma ParentsFirstIsConsistent(rootSource: RootSource, entries: seq<ManifestEntry>)
    requires Verdict(rootSource, entries).None? && ParentsFirst(entries)
    ensures Consistent(entries)
  {
    ConsistentIff(rootSource, entries);
  }

  lemma NamesDecode(names: Names)
    requires NormalNames(names)
    ensures PathNames(Join(EncodedNames(names), '/')) == Some(names)
  {
    DecodedNames(names);
    JoinedComponents(names);
  }

  /** Only earlier ancestors are looked up: a manifest that lists `a/b` before the file `a` is
      accepted, though no tree has both. */
  lemma LaterAncestorSlipsThrough(a: Name, b: Name, content: Bytes) returns (entries: seq<ManifestEntry>)
    requires NormalName(a) && NormalName(b)
    ensures Verdict(Filesystem, entries).None? && !Consistent(entries)
  {
    var size := |content|;
    var root := ManifestEntry(0, "", Directory, None, None, 0);
    var upper := ManifestEntry(1, Join(EncodedNames([a]), '/'), RegularFile, Some(size), Some(Blake3(content)), ChunkCountFor(size));
    var lower := upper.(id := 2, relPath := Join(EncodedNames([a, b]), '/'));
    entries := [root, lower, upper];
    NamesDecode([a, b]);
    NamesDecode([a]);
    NamesDecode([]);
    ThreeEntries(root, lower, upper, a, b);
    assert Above(entries[2], entries[1]);
  }

  lemma ThreeEntries(root: ManifestEntry, lower: ManifestEntry, upper: ManifestEntry, a: Name, b: Name)
    requires root.relPath == "" && root.kind.Directory? && PathNames("") == Some([])
    requires PathNames(lower.relPath) == Some([a, b]) && PathNames(upper.relPath) == Some([a])
    requires root.id != lower.id && root.id != upper.id && lower.id != upper.id
    requires MetadataError(Filesystem, lower).None? && MetadataError(Filesystem, upper).None?
    ensures Verdict(Filesystem, [root, lower, upper]).None?
    ensures Above(upper, lower)
  {
    assert [a] < [a, b];
    assert Compatible(root, lower) && Compatible(root, upper) && Compatible(lower, upper);
    ThreeAcceptable(root, lower, upper);
  }

  lemma ThreeAcceptable(root: ManifestEntry, lower: ManifestEntry, upper: ManifestEntry)
    requires root.relPath == "" && root.id != lower.id && root.id != upper.id && lower.id != upper.id
    requires Compatible(root, lower) && Compatible(root, upper) && Compatible(lower, upper)
    requires forall e :: e in {root, lower, upper} ==> EntryFine(e)
    ensures Verdict(Filesystem, [root, lower, upper]).None?
  {
    var entries := [root, lower, upper];
    forall k | 0 <= k < |entries| ensures PathNames(entries[k].relPath).Some? && MetadataError(Filesystem, entries[k]).None? {
      assert EntryFine(entries[k]);
    }
    AcceptedIffAcceptable(Filesystem, entries);
  }

  predicate EntryFine(e: ManifestEntry) {
    PathNames(e.relPath).Some? && MetadataError(Filesystem, e).None?
  }
}
