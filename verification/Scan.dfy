/** How the sender turns a file tree, or several, into a manifest
    (vendored-from-bore/transfer.rs:2392-2458, 2521-2562, 2563-2715).

    Children come in the order in which the program visits them; nothing here depends on it. */
module Scan {
  import opened Chunking
  import opened Common
  import opened Manifest
  import opened ManifestTypes
  import opened PathCodec

  /** What is found at a path. `Special` is a socket or a pipe. */
  datatype Node = File(content: Bytes) | Dir(children: seq<Child>) | Link | CharDev | BlockDev | Special

  datatype Child = Child(name: Name, node: Node)

  datatype Options = Options(excludeLinks: bool, excludeDevices: bool)

  datatype ScanError = TooManyEntries | SizeOverflow | ExcludedRoot | Unsupported | NothingToTransfer

  datatype Scanned = Scanned(entries: seq<ManifestEntry>, totalBytes: nat, nextId: nat)

  const MAX_U32: nat := 0xFFFF_FFFF
  const MAX_U64: nat := 0xFFFF_FFFF_FFFF_FFFF

  predicate Excluded(o: Options, node: Node) {
    match node
    case Link => o.excludeLinks
    case CharDev => o.excludeDevices
    case BlockDev => o.excludeDevices
    case _ => false
  }

  function KindOf(node: Node): EntryKind
    requires !node.Special?
  {
    match node
    case File(_) => RegularFile
    case Dir(_) => Directory
    case Link => Symlink
    case CharDev => CharDevice
    case BlockDev => BlockDevice
  }

  function EntryFor(id: nat, relPath: string, node: Node): ManifestEntry
    requires !node.Special?
  {
    if node.File? then
      var size := |node.content|;
      ManifestEntry(id, relPath, RegularFile, Some(size), Some(Blake3(node.content)), ChunkCountFor(size))
    else ManifestEntry(id, relPath, KindOf(node), None, None, 0)
  }

  /** `encode_relative_path` of a path made of these names; it cannot fail, as `RelPathEncodes` shows. */
  function RelPath(rel: Names): string {
    Join(EncodedNames(rel), '/')
  }

  lemma RelPathEncodes(rel: Names)
    requires NormalNames(rel)
    ensures EncodeRelative(Join(rel, SLASH)) == Ok(RelPath(rel))
  {
    JoinedComponents(rel);
  }

  /** The entry itself, before any children. An excluded node uses up an id all the same. */
  function ScanSelf(o: Options, s: Scanned, node: Node, rel: Names): Result<Scanned, ScanError> {
    if s.nextId + 1 > MAX_U32 then Err(TooManyEntries)
    else if Excluded(o, node) then (if rel == [] then Err(ExcludedRoot) else Ok(s.(nextId := s.nextId + 1)))
    else if node.Special? then Err(Unsupported)
    else if node.File? && s.totalBytes + |node.content| > MAX_U64 then Err(SizeOverflow)
    else
      Ok(Scanned(s.entries + [EntryFor(s.nextId, RelPath(rel), node)],
                 s.totalBytes + if node.File? then |node.content| else 0, s.nextId + 1))
  }

  function ScanNode(o: Options, s: Scanned, node: Node, rel: Names): Result<Scanned, ScanError>
    decreases node
  {
    var self := ScanSelf(o, s, node, rel);
    if self.Ok? && node.Dir? then ScanFirst(o, self.value, node.children, |node.children|, rel) else self
  }

  /** The first `k` children of the directory at `rel`. */
  function ScanFirst(o: Options, s: Scanned, children: seq<Child>, k: nat, rel: Names): Result<Scanned, ScanError>
    requires k <= |children|
    decreases children, k
  {
    if k == 0 then Ok(s)
    else
      var before := ScanFirst(o, s, children, k - 1, rel);
      if before.Err? then before else ScanNode(o, before.value, children[k - 1].node, rel + [children[k - 1].name])
  }

  const NOTHING_YET := Scanned([], 0, 0)

  /** `scan_filesystem_transfer` */
  function ScanSource(o: Options, node: Node): Result<Scanned, ScanError> {
    var scanned := ScanNode(o, NOTHING_YET, node, []);
    if scanned.Ok? && |scanned.value.entries| == 0 then Err(NothingToTransfer) else scanned
  }

  const VIRTUAL_ROOT := ManifestEntry(0, "", Directory, None, None, 0)
  const WITH_ROOT := Scanned([VIRTUAL_ROOT], 0, 1)

  /** `scan_multi_filesystem_transfer`: the sources become children of a root that only exists in
      the manifest, each under its own file name. */
  function ScanSources(o: Options, sources: seq<Child>): Result<Scanned, ScanError> {
    var scanned := ScanFirst(o, WITH_ROOT, sources, |sources|, []);
    if scanned.Ok? && |scanned.value.entries| <= 1 then Err(NothingToTransfer) else scanned
  }

  // ---------------------------------------------------------------- the scan, pushing into vectors

  lemma {:induction false} ErrorsStay(o: Options, s: Scanned, children: seq<Child>, k: nat, n: nat, rel: Names)
    requires k <= n <= |children| && ScanFirst(o, s, children, k, rel).Err?
    ensures ScanFirst(o, s, children, n, rel) == ScanFirst(o, s, children, k, rel)
    decreases n
  {
    if k < n {
      ErrorsStay(o, s, children, k, n - 1, rel);
    }
  }

  class Scanner {
    var entries: seq<ManifestEntry>
    var totalBytes: nat
    var nextId: nat

    function View(): Scanned
      reads this
    {
      Scanned(entries, totalBytes, nextId)
    }

    constructor ()
      ensures View() == Scanned([], 0, 0)
    {
      entries, totalBytes, nextId := [], 0, 0;
    }

    /** The body of `scan_entry` but for the children of a directory. */
    method Visit(o: Options, node: Node, rel: Names) returns (error: Option<ScanError>)
      modifies this
      ensures error.None? ==> ScanSelf(o, old(View()), node, rel) == Ok(View())
      ensures error.Some? ==> ScanSelf(o, old(View()), node, rel) == Err(error.value)
    {
      var relPath := RelPath(rel);
      var id := nextId;
      if nextId + 1 > MAX_U32 {
        return Some(TooManyEntries);
      }
      nextId := nextId + 1;
      match node {
        case Dir(_) =>
        case File(content) =>
          if totalBytes + |content| > MAX_U64 {
            return Some(SizeOverflow);
          }
          totalBytes := totalBytes + |content|;
        case Special =>
          return Some(Unsupported);
        case _ =>
          if Excluded(o, node) {
            return if rel == [] then Some(ExcludedRoot) else None;
          }
      }
      entries := entries + [EntryFor(id, relPath, node)];
      return None;
    }

    /** `scan_entry`. After an error the scan is given up. */
    method ScanEntry(o: Options, node: Node, rel: Names) returns (error: Option<ScanError>)
      modifies this
      ensures error.None? ==> ScanNode(o, old(View()), node, rel) == Ok(View())
      ensures error.Some? ==> ScanNode(o, old(View()), node, rel) == Err(error.value)
      decreases node
    {
      error := Visit(o, node, rel);
      if error.Some? || !node.Dir? {
        return;
      }
      ghost var self := View();
      for k := 0 to |node.children|
        invariant error.None? && ScanFirst(o, self, node.children, k, rel) == Ok(View())
      {
        error := ScanEntry(o, node.children[k].node, rel + [node.children[k].name]);
        if error.Some? {
          ErrorsStay(o, self, node.children, k + 1, |node.children|, rel);
          return;
        }
      }
    }

    /** `scan_multi_filesystem_transfer` */
    method ScanAll(o: Options, sources: seq<Child>) returns (error: Option<ScanError>)
      modifies this
      ensures error.None? ==> ScanSources(o, sources) == Ok(View())
      ensures error.Some? ==> ScanSources(o, sources) == Err(error.value)
    {
      entries, totalBytes, nextId := [VIRTUAL_ROOT], 0, 1;
      for k := 0 to |sources|
        invariant ScanFirst(o, WITH_ROOT, sources, k, []) == Ok(View())
      {
        assert [] + [sources[k].name] == [sources[k].name];
        error := ScanEntry(o, sources[k].node, [sources[k].name]);
        if error.Some? {
          ErrorsStay(o, WITH_ROOT, sources, k + 1, |sources|, []);
          return;
        }
      }
      return if |entries| <= 1 then Some(NothingToTransfer) else None;
    }
  }

  // --------------------------------------------------------------------------- what a scan keeps

  /** A tree as a file system holds it. */
  ghost predicate WellFormed(node: Node) {
    node.Dir? ==> ChildrenFit(node.children) && Distinct(node.children)
  }

  ghost predicate ChildrenFit(children: seq<Child>) {
    forall k :: 0 <= k < |children| ==> NormalName(children[k].name) && WellFormed(children[k].node)
  }

  predicate Distinct(children: seq<Child>) {
    forall i, j :: 0 <= i < j < |children| ==> children[i].name != children[j].name
  }

  predicate DistinctListed(o: Options, children: seq<Child>) {
    forall i, j :: 0 <= i < j < |children| && !Excluded(o, children[i].node) && !Excluded(o, children[j].node) ==>
        children[i].name != children[j].name
  }

  /** Where an entry is and what it is. */
  datatype Place = Place(path: Option<Names>, kind: EntryKind)

  predicate IsEncoded(relPath: string, names: Names) {
    NormalNames(names) && relPath == RelPath(names)
  }

  /** The names behind an encoded path. */
  ghost function EncodedPath(relPath: string): Option<Names> {
    if exists names :: IsEncoded(relPath, names) then
      var names :| IsEncoded(relPath, names);
      Some(names)
    else None
  }

  lemma EncodedPathIs(rel: Names)
    requires NormalNames(rel)
    ensures EncodedPath(RelPath(rel)) == Some(rel)
  {
    assert IsEncoded(RelPath(rel), rel);
    var names := EncodedPath(RelPath(rel)).value;
    NamesDecode(names);
    NamesDecode(rel);
  }

  lemma EncodedDecodes(relPath: string)
    requires EncodedPath(relPath).Some?
    ensures PathNames(relPath) == EncodedPath(relPath)
  {
    var names := EncodedPath(relPath).value;
    NamesDecode(names);
  }

  ghost function Places(entries: seq<ManifestEntry>): (places: seq<Place>)
    ensures |places| == |entries|
  {
    if |entries| == 0 then []
    else
      var last := entries[|entries| - 1];
      Places(entries[..|entries| - 1]) + [Place(EncodedPath(last.relPath), last.kind)]
  }

  lemma {:induction false} PlaceAt(entries: seq<ManifestEntry>, k: nat)
    requires k < |entries|
    ensures Places(entries)[k] == Place(EncodedPath(entries[k].relPath), entries[k].kind)
  {
    if k < |entries| - 1 {
      PlaceAt(entries[..|entries| - 1], k);
    }
  }

  /** At or below `rel`. */
  predicate Under(rel: Names, place: Place) {
    place.path.Some? && rel <= place.path.value
  }

  /** Not at or above `rel`, unless it is a directory. */
  predicate OpenTo(rel: Names, place: Place) {
    place.path.Some? && (place.path.value <= rel ==> place.kind.Directory?)
  }

  predicate NoneUnder(places: seq<Place>, rel: Names) {
    forall k :: 0 <= k < |places| ==> !Under(rel, places[k])
  }

  predicate AllOpenTo(places: seq<Place>, rel: Names) {
    forall k :: 0 <= k < |places| ==> OpenTo(rel, places[k])
  }

  predicate AllUnderFrom(places: seq<Place>, start: nat, rel: Names) {
    forall k :: start <= k < |places| ==> Under(rel, places[k])
  }

  /** Every path is fine, may follow those before it, and comes before those below it. */
  predicate Shaped(places: seq<Place>) {
    && (forall i :: 0 <= i < |places| ==> places[i].path.Some?)
    && (forall i, j :: 0 <= i < j < |places| ==> MayPrecede(places[i].path, places[i].kind, places[j].path))
    && (forall i, j :: 0 <= i < |places| && 0 <= j < |places| && ProperPrefix(places[i].path, places[j].path) ==> i < j)
  }

  function SumSizes(entries: seq<ManifestEntry>): nat {
    if |entries| == 0 then 0 else SumSizes(entries[..|entries| - 1]) + SizeOf(entries[|entries| - 1])
  }

  predicate Increasing(s: Scanned) {
    && (forall i, j :: 0 <= i < j < |s.entries| ==> s.entries[i].id < s.entries[j].id)
    && (forall k :: 0 <= k < |s.entries| ==> s.entries[k].id < s.nextId)
    && s.nextId <= MAX_U32
  }

  predicate AllComplete(entries: seq<ManifestEntry>) {
    forall k :: 0 <= k < |entries| ==> MetadataError(Filesystem, entries[k]).None?
  }

  ghost predicate Good(s: Scanned) {
    && Increasing(s)
    && AllComplete(s.entries)
    && Shaped(Places(s.entries))
    && s.totalBytes == SumSizes(s.entries) <= MAX_U64
  }

  // ------------------------------------------------------------------------ facts about places

  lemma PlacePushed(places: seq<Place>, kind: EntryKind, rel: Names)
    requires Shaped(places) && NoneUnder(places, rel) && AllOpenTo(places, rel)
    ensures var longer := places + [Place(Some(rel), kind)];
            && Shaped(longer) && AllUnderFrom(longer, |places|, rel)
            && (kind.Directory? ==> AllOpenTo(longer, rel))
            && forall name :: NoneUnder(longer, rel + [name])
  {
    var longer := places + [Place(Some(rel), kind)];
    forall i | 0 <= i < |places|
      ensures MayPrecede(places[i].path, places[i].kind, Some(rel)) && !ProperPrefix(Some(rel), places[i].path)
    {
      assert !Under(rel, places[i]) && OpenTo(rel, places[i]);
    }
    forall name, k | 0 <= k < |longer| ensures !Under(rel + [name], longer[k]) {
      PrefixOfChild(if longer[k].path.Some? then longer[k].path.value else [], rel, name);
      assert k < |places| ==> !Under(rel, places[k]);
    }
  }

  lemma PrefixOfChild(path: Names, rel: Names, name: Name)
    ensures path <= rel + [name] ==> path == rel + [name] || path <= rel
    ensures rel + [name] <= path ==> rel <= path && path != rel && path[|rel|] == name
  {
    var child := rel + [name];
    assert child[..|rel|] == rel && child[|rel|] == name;
    if path <= child && |path| == |child| {
      assert path == child;
    } else if path <= child {
      assert path == child[..|path|] == rel[..|path|];
    }
  }

  /** Places under one child are not under another, and none of them is above their parent. */
  lemma UnderOneChild(places: seq<Place>, start: nat, rel: Names, name: Name, other: Name)
    requires start <= |places| && AllUnderFrom(places, start, rel + [name])
    ensures AllUnderFrom(places, start, rel)
    ensures NoneUnder(places[..start], rel + [other]) && name != other ==> NoneUnder(places, rel + [other])
    ensures AllOpenTo(places[..start], rel) ==> AllOpenTo(places, rel)
  {
    forall k | start <= k < |places|
      ensures Under(rel, places[k]) && OpenTo(rel, places[k]) && (name != other ==> !Under(rel + [other], places[k]))
    {
      assert Under(rel + [name], places[k]);
      PrefixOfChild(places[k].path.value, rel, name);
      PrefixOfChild(places[k].path.value, rel, other);
    }
    assert forall k :: 0 <= k < start ==> places[k] == places[..start][k];
  }

  lemma OpenToChild(places: seq<Place>, rel: Names, name: Name)
    requires AllOpenTo(places, rel) && NoneUnder(places, rel + [name])
    ensures AllOpenTo(places, rel + [name])
  {
    forall k | 0 <= k < |places| ensures OpenTo(rel + [name], places[k]) {
      assert OpenTo(rel, places[k]) && !Under(rel + [name], places[k]);
      PrefixOfChild(places[k].path.value, rel, name);
    }
  }

  // ------------------------------------------------------------------------------- step by step

  lemma EntryForIsFine(id: nat, relPath: string, node: Node)
    requires !node.Special?
    ensures MetadataError(Filesystem, EntryFor(id, relPath, node)).None?
    ensures SizeOf(EntryFor(id, relPath, node)) == if node.File? then |node.content| else 0
  {
  }

  lemma OneMore(s: Scanned, e: ManifestEntry)
    requires Increasing(s) && e.id == s.nextId < MAX_U32
    ensures SumSizes(s.entries + [e]) == SumSizes(s.entries) + SizeOf(e)
    ensures Places(s.entries + [e]) == Places(s.entries) + [Place(EncodedPath(e.relPath), e.kind)]
    ensures Increasing(Scanned(s.entries + [e], s.totalBytes + SizeOf(e), s.nextId + 1))
  {
    assert (s.entries + [e])[..|s.entries|] == s.entries;
  }

  /** What the scan of a node adds: places at or below `rel`, the first of them at `rel`. */
  predicate Adds(before: seq<Place>, after: seq<Place>, rel: Names, excluded: bool) {
    && before <= after && AllUnderFrom(after, |before|, rel)
    && (if excluded then after == before else |after| > |before| && after[|before|].path == Some(rel))
  }

  lemma SelfKeepsGood(o: Options, s: Scanned, node: Node, rel: Names)
    requires Good(s) && NormalNames(rel) && ScanSelf(o, s, node, rel).Ok?
    requires !Excluded(o, node) ==> NoneUnder(Places(s.entries), rel) && AllOpenTo(Places(s.entries), rel)
    ensures var s' := ScanSelf(o, s, node, rel).value;
            && Good(s') && Adds(Places(s.entries), Places(s'.entries), rel, Excluded(o, node))
            && (node.Dir? ==> AllOpenTo(Places(s'.entries), rel) && forall name :: NoneUnder(Places(s'.entries), rel + [name]))
  {
    if !Excluded(o, node) {
      var e := SelfPushes(o, s, node, rel);
      PushKeepsGood(s, e, rel);
    }
  }

  lemma SelfPushes(o: Options, s: Scanned, node: Node, rel: Names) returns (e: ManifestEntry)
    requires NormalNames(rel) && ScanSelf(o, s, node, rel).Ok? && !Excluded(o, node)
    ensures ScanSelf(o, s, node, rel).value == Scanned(s.entries + [e], s.totalBytes + SizeOf(e), s.nextId + 1)
    ensures EncodedPath(e.relPath) == Some(rel) && MetadataError(Filesystem, e).None? && (node.Dir? ==> e.kind.Directory?)
    ensures e.id == s.nextId < MAX_U32 && (s.totalBytes <= MAX_U64 ==> s.totalBytes + SizeOf(e) <= MAX_U64)
  {
    e := EntryFor(s.nextId, RelPath(rel), node);
    EncodedPathIs(rel);
    EntryForIsFine(s.nextId, RelPath(rel), node);
  }

  lemma PushKeepsGood(s: Scanned, e: ManifestEntry, rel: Names)
    requires Good(s) && NoneUnder(Places(s.entries), rel) && AllOpenTo(Places(s.entries), rel) && s.nextId < MAX_U32
    requires EncodedPath(e.relPath) == Some(rel) && MetadataError(Filesystem, e).None?
    requires e.id == s.nextId && s.totalBytes + SizeOf(e) <= MAX_U64
    ensures var s' := Scanned(s.entries + [e], s.totalBytes + SizeOf(e), s.nextId + 1);
            && Good(s') && Adds(Places(s.entries), Places(s'.entries), rel, false)
            && (e.kind.Directory? ==> AllOpenTo(Places(s'.entries), rel))
            && forall name :: NoneUnder(Places(s'.entries), rel + [name])
  {
    OneMore(s, e);
    PlacePushed(Places(s.entries), e.kind, rel);
  }

  /** No listed child from `k` on has a place yet. */
  predicate Awaited(o: Options, places: seq<Place>, children: seq<Child>, k: nat, rel: Names) {
    forall i :: k <= i < |children| && !Excluded(o, children[i].node) ==> NoneUnder(places, rel + [children[i].name])
  }

  lemma {:induction false} NodeKeepsGood(o: Options, s: Scanned, node: Node, rel: Names)
    requires Good(s) && NormalNames(rel) && WellFormed(node) && ScanNode(o, s, node, rel).Ok?
    requires !Excluded(o, node) ==> NoneUnder(Places(s.entries), rel) && AllOpenTo(Places(s.entries), rel)
    ensures var s' := ScanNode(o, s, node, rel).value;
            Good(s') && Adds(Places(s.entries), Places(s'.entries), rel, Excluded(o, node))
    decreases node
  {
    SelfKeepsGood(o, s, node, rel);
    if node.Dir? {
      var self := ScanSelf(o, s, node, rel).value;
      NoChildYet(o, Places(self.entries), node.children, rel);
      FirstKeepsGood(o, self, node.children, |node.children|, rel);
      AddsMore(Places(s.entries), Places(self.entries), Places(ScanNode(o, s, node, rel).value.entries), rel);
    }
  }

  lemma NoChildYet(o: Options, places: seq<Place>, children: seq<Child>, rel: Names)
    requires AllOpenTo(places, rel) && forall name :: NoneUnder(places, rel + [name])
    ensures BetweenChildren(o, |places|, places, children, 0, rel)
  {
  }

  lemma AddsMore(before: seq<Place>, self: seq<Place>, after: seq<Place>, rel: Names)
    requires Adds(before, self, rel, false) && self <= after && AllUnderFrom(after, |self|, rel)
    ensures Adds(before, after, rel, false)
  {
    assert forall k :: 0 <= k < |self| ==> after[k] == self[k];
  }

  /** What holds between two children; `start` places were there before the first. */
  predicate BetweenChildren(o: Options, start: nat, places: seq<Place>, children: seq<Child>, k: nat, rel: Names) {
    AllUnderFrom(places, start, rel) && AllOpenTo(places, rel) && Awaited(o, places, children, k, rel)
  }

  lemma {:induction false} FirstKeepsGood(o: Options, s: Scanned, children: seq<Child>, k: nat, rel: Names)
    requires Good(s) && NormalNames(rel) && ChildrenFit(children) && DistinctListed(o, children)
    requires k <= |children| && ScanFirst(o, s, children, k, rel).Ok?
    requires BetweenChildren(o, |s.entries|, Places(s.entries), children, 0, rel)
    ensures var s' := ScanFirst(o, s, children, k, rel).value;
            && Good(s') && Places(s.entries) <= Places(s'.entries)
            && BetweenChildren(o, |s.entries|, Places(s'.entries), children, k, rel)
    decreases children, k
  {
    if k > 0 {
      LastChild(o, s, children, k, rel);
      FirstKeepsGood(o, s, children, k - 1, rel);
      ChildKeepsGood(o, s.entries, ScanFirst(o, s, children, k - 1, rel).value, children, k, rel);
    }
  }

  lemma LastChild(o: Options, s: Scanned, children: seq<Child>, k: nat, rel: Names)
    requires 0 < k <= |children| && ScanFirst(o, s, children, k, rel).Ok?
    ensures ScanFirst(o, s, children, k - 1, rel).Ok?
    ensures ScanFirst(o, s, children, k, rel) ==
            ScanNode(o, ScanFirst(o, s, children, k - 1, rel).value, children[k - 1].node, rel + [children[k - 1].name])
  {
  }

  lemma {:induction false} ChildKeepsGood(o: Options, start: seq<ManifestEntry>, before: Scanned, children: seq<Child>, k: nat, rel: Names)
    requires 0 < k <= |children| && ChildrenFit(children) && DistinctListed(o, children)
    requires Good(before) && NormalNames(rel) && Places(start) <= Places(before.entries)
    requires BetweenChildren(o, |start|, Places(before.entries), children, k - 1, rel)
    requires ScanNode(o, before, children[k - 1].node, rel + [children[k - 1].name]).Ok?
    ensures var s' := ScanNode(o, before, children[k - 1].node, rel + [children[k - 1].name]).value;
            && Good(s') && Places(start) <= Places(s'.entries)
            && BetweenChildren(o, |start|, Places(s'.entries), children, k, rel)
    decreases children, k, 0
  {
    var child := children[k - 1];
    if !Excluded(o, child.node) {
      OpenToChild(Places(before.entries), rel, child.name);
    }
    NodeKeepsGood(o, before, child.node, rel + [child.name]);
    var after := ScanNode(o, before, child.node, rel + [child.name]).value;
    NextChild(o, |start|, Places(before.entries), Places(after.entries), children, k, rel);
  }

  lemma NextChild(o: Options, start: nat, before: seq<Place>, after: seq<Place>, children: seq<Child>, k: nat, rel: Names)
    requires 0 < k <= |children| && DistinctListed(o, children) && start <= |before|
    requires Adds(before, after, rel + [children[k - 1].name], Excluded(o, children[k - 1].node))
    requires BetweenChildren(o, start, before, children, k - 1, rel)
    ensures BetweenChildren(o, start, after, children, k, rel)
  {
    var name := children[k - 1].name;
    assert after[..|before|] == before;
    UnderOneChild(after, |before|, rel, name, name);
    assert forall j :: start <= j < |before| ==> after[j] == before[j];
    if !Excluded(o, children[k - 1].node) {
      forall i | k <= i < |children| && !Excluded(o, children[i].node) ensures NoneUnder(after, rel + [children[i].name]) {
        UnderOneChild(after, |before|, rel, name, children[i].name);
      }
    }
  }

  // ------------------------------------------------------------------------------ the theorems

  lemma PlaceDecodes(entries: seq<ManifestEntry>, k: nat)
    requires k < |entries| && Places(entries)[k].path.Some?
    ensures Places(entries)[k] == Place(PathNames(entries[k].relPath), entries[k].kind)
  {
    PlaceAt(entries, k);
    EncodedDecodes(entries[k].relPath);
  }

  lemma GoodIsAccepted(s: Scanned)
    requires Good(s) && |s.entries| > 0 && s.entries[0].relPath == ""
    ensures Verdict(Filesystem, s.entries).None? && Consistent(s.entries)
  {
    var places := Places(s.entries);
    forall i, j | 0 <= i < |s.entries| && 0 <= j < |s.entries|
      ensures i < j ==> Compatible(s.entries[i], s.entries[j])
      ensures Above(s.entries[i], s.entries[j]) ==> i < j
    {
      PlaceDecodes(s.entries, i);
      PlaceDecodes(s.entries, j);
      assert i < j ==> MayPrecede(places[i].path, places[i].kind, places[j].path);
    }
    forall k | 0 <= k < |s.entries| ensures PathNames(s.entries[k].relPath).Some? {
      PlaceDecodes(s.entries, k);
    }
    AcceptedIffAcceptable(Filesystem, s.entries);
    ParentsFirstIsConsistent(Filesystem, s.entries);
  }

  /** Every tree a file system can hold becomes a manifest that the receiver accepts; its total is
      the sum of its sizes, without overflow, and "nothing to transfer" is never the answer. */
  lemma ScannedManifestIsAccepted(o: Options, node: Node)
    requires WellFormed(node)
    ensures ScanSource(o, node) == ScanNode(o, NOTHING_YET, node, [])
    ensures ScanSource(o, node).Ok? ==>
              var s := ScanSource(o, node).value;
              && Verdict(Filesystem, s.entries).None? && Consistent(s.entries)
              && s.totalBytes == SumSizes(s.entries) <= MAX_U64
  {
    if ScanNode(o, NOTHING_YET, node, []).Ok? {
      NodeKeepsGood(o, NOTHING_YET, node, []);
      RootComesFirst(o, node);
      GoodIsAccepted(ScanNode(o, NOTHING_YET, node, []).value);
    }
  }

  lemma {:induction false} EntriesStay(o: Options, s: Scanned, node: Node, rel: Names)
    requires ScanNode(o, s, node, rel).Ok?
    ensures s.entries <= ScanNode(o, s, node, rel).value.entries
    decreases node
  {
    if ScanSelf(o, s, node, rel).Ok? && node.Dir? {
      FirstEntriesStay(o, ScanSelf(o, s, node, rel).value, node.children, |node.children|, rel);
    }
  }

  lemma {:induction false} FirstEntriesStay(o: Options, s: Scanned, children: seq<Child>, k: nat, rel: Names)
    requires k <= |children| && ScanFirst(o, s, children, k, rel).Ok?
    ensures s.entries <= ScanFirst(o, s, children, k, rel).value.entries
    decreases children, k
  {
    if k > 0 {
      FirstEntriesStay(o, s, children, k - 1, rel);
      EntriesStay(o, ScanFirst(o, s, children, k - 1, rel).value, children[k - 1].node, rel + [children[k - 1].name]);
    }
  }

  lemma RootComesFirst(o: Options, node: Node)
    requires ScanNode(o, NOTHING_YET, node, []).Ok?
    ensures var s := ScanNode(o, NOTHING_YET, node, []).value;
            |s.entries| > 0 && s.entries[0].relPath == ""
  {
    if node.Dir? {
      FirstEntriesStay(o, ScanSelf(o, NOTHING_YET, node, []).value, node.children, |node.children|, []);
    }
  }

  // -------------------------------------------------------------------------- several sources

  lemma VirtualRootIsGood()
    ensures Good(WITH_ROOT) && AllOpenTo(Places(WITH_ROOT.entries), [])
    ensures forall name :: NoneUnder(Places(WITH_ROOT.entries), [name])
  {
    EncodedPathIs([]);
    assert NOTHING_YET.entries + [VIRTUAL_ROOT] == [VIRTUAL_ROOT];
    PushKeepsGood(NOTHING_YET, VIRTUAL_ROOT, []);
    forall name ensures NoneUnder(Places(WITH_ROOT.entries), [name]) {
      assert [] + [name] == [name];
    }
  }

  lemma NoSourceYet(o: Options, sources: seq<Child>)
    ensures BetweenChildren(o, 1, Places(WITH_ROOT.entries), sources, 0, [])
  {
    VirtualRootIsGood();
  }

  /** Two listed children of the same name both have an entry at that name. */
  lemma SameNameTwice(o: Options, s: Scanned, children: seq<Child>, i: nat, j: nat, n: nat, rel: Names)
    requires i < j < n <= |children| && children[i].name == children[j].name && NormalNames(rel + [children[i].name])
    requires !Excluded(o, children[i].node) && !Excluded(o, children[j].node)
    requires ScanFirst(o, s, children, n, rel).Ok?
    ensures !TreeShaped(ScanFirst(o, s, children, n, rel).value.entries)
  {
    var path := rel + [children[i].name];
    var a := EntryOfChild(o, s, children, i, n, rel, path);
    var b := EntryOfChild(o, s, children, j, n, rel, path);
    FirstIsMonotone(o, s, children, i + 1, j, rel);
    SamePathTwice(ScanFirst(o, s, children, n, rel).value.entries, a, b);
  }

  lemma SamePathTwice(entries: seq<ManifestEntry>, a: nat, b: nat)
    requires a < b < |entries| && Places(entries)[a].path.Some? && Places(entries)[b].path == Places(entries)[a].path
    ensures !TreeShaped(entries)
  {
    PlaceDecodes(entries, a);
    PlaceDecodes(entries, b);
    SamePathClashes(entries, a, b);
  }

  lemma SamePathClashes(entries: seq<ManifestEntry>, a: nat, b: nat)
    requires a < b < |entries| && PathNames(entries[a].relPath).Some? && PathNames(entries[a].relPath) == PathNames(entries[b].relPath)
    ensures !TreeShaped(entries)
  {
    assert !Compatible(entries[a], entries[b]);
  }

  lemma {:induction false} FirstIsMonotone(o: Options, s: Scanned, children: seq<Child>, k: nat, n: nat, rel: Names)
    requires k <= n <= |children| && ScanFirst(o, s, children, n, rel).Ok?
    ensures ScanFirst(o, s, children, k, rel).Ok?
    ensures ScanFirst(o, s, children, k, rel).value.entries <= ScanFirst(o, s, children, n, rel).value.entries
    decreases n
  {
    if k < n {
      FirstIsMonotone(o, s, children, k, n - 1, rel);
      EntriesStay(o, ScanFirst(o, s, children, n - 1, rel).value, children[n - 1].node, rel + [children[n - 1].name]);
    }
  }

  /** The first entry that a listed child adds stays where it is. */
  lemma EntryOfChild(o: Options, s: Scanned, children: seq<Child>, i: nat, n: nat, rel: Names, path: Names) returns (at: nat)
    requires i < n <= |children| && path == rel + [children[i].name] && NormalNames(path) && !Excluded(o, children[i].node)
    requires ScanFirst(o, s, children, n, rel).Ok?
    ensures ScanFirst(o, s, children, i, rel).Ok? && ScanFirst(o, s, children, i + 1, rel).Ok?
    ensures at == |ScanFirst(o, s, children, i, rel).value.entries| < |ScanFirst(o, s, children, i + 1, rel).value.entries|
    ensures at < |ScanFirst(o, s, children, n, rel).value.entries|
    ensures Places(ScanFirst(o, s, children, n, rel).value.entries)[at].path == Some(path)
  {
    FirstIsMonotone(o, s, children, i, n, rel);
    FirstIsMonotone(o, s, children, i + 1, n, rel);
    at := FirstEntryOf(o, ScanFirst(o, s, children, i, rel).value, children[i].node, path);
    SameStart(ScanFirst(o, s, children, i + 1, rel).value.entries, ScanFirst(o, s, children, n, rel).value.entries, at);
  }

  lemma FirstEntryOf(o: Options, s: Scanned, node: Node, rel: Names) returns (at: nat)
    requires NormalNames(rel) && !Excluded(o, node) && ScanNode(o, s, node, rel).Ok?
    ensures at == |s.entries| < |ScanNode(o, s, node, rel).value.entries|
    ensures Places(ScanNode(o, s, node, rel).value.entries)[at].path == Some(rel)
  {
    at := |s.entries|;
    EncodedPathIs(rel);
    var self := ScanSelf(o, s, node, rel).value;
    PlaceAt(self.entries, at);
    if node.Dir? {
      FirstEntriesStay(o, self, node.children, |node.children|, rel);
    }
    SameStart(self.entries, ScanNode(o, s, node, rel).value.entries, at);
  }

  lemma SameStart(a: seq<ManifestEntry>, b: seq<ManifestEntry>, k: nat)
    requires a <= b && k < |a|
    ensures Places(a)[k] == Places(b)[k]
  {
    PlaceAt(a, k);
    PlaceAt(b, k);
  }

  /** Several sources make an accepted manifest exactly when those that are listed have different
      file names; the sender does not check this. */
  lemma SourcesAreAcceptedIffDistinct(o: Options, sources: seq<Child>)
    requires ChildrenFit(sources) && ScanSources(o, sources).Ok?
    ensures Verdict(Filesystem, ScanSources(o, sources).value.entries).None? <==> DistinctListed(o, sources)
  {
    var start := WITH_ROOT;
    var s := ScanSources(o, sources).value;
    FirstEntriesStay(o, start, sources, |sources|, []);
    assert s.entries[0] == VIRTUAL_ROOT;
    if DistinctListed(o, sources) {
      VirtualRootIsGood();
      NoSourceYet(o, sources);
      FirstKeepsGood(o, start, sources, |sources|, []);
      GoodIsAccepted(s);
    } else {
      var i, j :| 0 <= i < j < |sources| && !Excluded(o, sources[i].node) && !Excluded(o, sources[j].node)
        && sources[i].name == sources[j].name;
      assert NormalName(sources[i].name);
      SameNameTwice(o, start, sources, i, j, |sources|, []);
      AcceptedIffAcceptable(Filesystem, s.entries);
    }
  }
}
