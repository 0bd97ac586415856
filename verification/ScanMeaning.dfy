/** The manifest of a tree lists exactly what the tree holds
    (vendored-from-bore/transfer.rs:2563-2715). */
module ScanMeaning {
  import opened Manifest
  import opened ManifestTypes
  import opened PathCodec
  import opened Scan

  /** Following `path` down from `top` leads to `node`. */
  predicate At(top: Node, path: Names, node: Node)
    decreases |path|
  {
    if |path| == 0 then top == node else top.Dir? && AtChild(top.children, |top.children|, path, node)
  }

  /** ... through one of the first `k` children. */
  predicate AtChild(children: seq<Child>, k: nat, path: Names, node: Node)
    requires |path| > 0 && k <= |children|
    decreases |path|, 0
  {
    exists i :: 0 <= i < k && children[i].name == path[0] && At(children[i].node, path[1..], node)
  }

  /** The entry describes `node` at `path` below `rel`. */
  predicate Describes(e: ManifestEntry, rel: Names, path: Names, node: Node) {
    !node.Special? && e == EntryFor(e.id, RelPath(rel + path), node)
  }

  /** The entry describes something found below `top`. */
  ghost predicate Sound(o: Options, e: ManifestEntry, top: Node, rel: Names) {
    exists path, node :: At(top, path, node) && !Excluded(o, node) && Describes(e, rel, path, node)
  }

  ghost predicate SoundChild(o: Options, e: ManifestEntry, children: seq<Child>, k: nat, rel: Names)
    requires k <= |children|
  {
    exists path, node :: |path| > 0 && AtChild(children, k, path, node) && !Excluded(o, node) && Describes(e, rel, path, node)
  }

  /** From `from` on there is an entry for this node. */
  predicate Listed(entries: seq<ManifestEntry>, from: nat, rel: Names, path: Names, node: Node) {
    exists k :: from <= k < |entries| && Describes(entries[k], rel, path, node)
  }

  // ---------------------------------------------------------------- every entry has its node

  lemma ChildPath(rel: Names, name: Name, path: Names)
    ensures rel + [name] + path == rel + ([name] + path)
    ensures ([name] + path)[0] == name && ([name] + path)[1..] == path
  {
  }

  lemma {:induction false} NodeIsSound(o: Options, s: Scanned, top: Node, rel: Names, k: nat)
    requires ScanNode(o, s, top, rel).Ok? && |s.entries| <= k < |ScanNode(o, s, top, rel).value.entries|
    ensures Sound(o, ScanNode(o, s, top, rel).value.entries[k], top, rel)
    decreases top
  {
    var self := ScanSelf(o, s, top, rel).value;
    var entries := ScanNode(o, s, top, rel).value.entries;
    if top.Dir? {
      FirstEntriesStay(o, self, top.children, |top.children|, rel);
    }
    if k < |self.entries| {
      assert rel + [] == rel;
      assert At(top, [], top) && Describes(entries[k], rel, [], top);
    } else {
      FirstIsSound(o, self, top.children, |top.children|, rel, k);
      var path, node :| |path| > 0 && AtChild(top.children, |top.children|, path, node) && !Excluded(o, node)
        && Describes(entries[k], rel, path, node);
      assert At(top, path, node);
    }
  }

  lemma {:induction false} FirstIsSound(o: Options, s: Scanned, children: seq<Child>, n: nat, rel: Names, k: nat)
    requires n <= |children| && ScanFirst(o, s, children, n, rel).Ok?
    requires |s.entries| <= k < |ScanFirst(o, s, children, n, rel).value.entries|
    ensures SoundChild(o, ScanFirst(o, s, children, n, rel).value.entries[k], children, n, rel)
    decreases children, n
  {
    if n > 0 {
      LastChild(o, s, children, n, rel);
      var before := ScanFirst(o, s, children, n - 1, rel).value;
      var child := children[n - 1];
      EntriesStay(o, before, child.node, rel + [child.name]);
      var e := ScanFirst(o, s, children, n, rel).value.entries[k];
      if k < |before.entries| {
        FirstIsSound(o, s, children, n - 1, rel, k);
        var path, node :| |path| > 0 && AtChild(children, n - 1, path, node) && !Excluded(o, node) && Describes(e, rel, path, node);
        assert AtChild(children, n, path, node);
      } else {
        NodeIsSound(o, before, child.node, rel + [child.name], k);
        var path, node :| At(child.node, path, node) && !Excluded(o, node) && Describes(e, rel + [child.name], path, node);
        ChildPath(rel, child.name, path);
        assert AtChild(children, n, [child.name] + path, node);
      }
    }
  }

  // ---------------------------------------------------------------- every node has its entry

  lemma ListedStays(a: seq<ManifestEntry>, b: seq<ManifestEntry>, from: nat, earlier: nat, rel: Names, path: Names, node: Node)
    requires Listed(a, from, rel, path, node) && a <= b && earlier <= from
    ensures Listed(b, earlier, rel, path, node)
  {
    var k :| from <= k < |a| && Describes(a[k], rel, path, node);
    assert Describes(b[k], rel, path, node);
  }

  lemma {:induction false} NodeIsListed(o: Options, s: Scanned, top: Node, rel: Names, path: Names, node: Node)
    requires ScanNode(o, s, top, rel).Ok? && At(top, path, node) && !Excluded(o, node)
    ensures Listed(ScanNode(o, s, top, rel).value.entries, |s.entries|, rel, path, node)
    decreases top
  {
    var self := ScanSelf(o, s, top, rel).value;
    var entries := ScanNode(o, s, top, rel).value.entries;
    if |path| == 0 {
      assert rel + path == rel;
      assert Describes(self.entries[|s.entries|], rel, path, node);
      if top.Dir? {
        FirstEntriesStay(o, self, top.children, |top.children|, rel);
      }
      ListedStays(self.entries, entries, |s.entries|, |s.entries|, rel, path, node);
    } else {
      FirstIsListed(o, self, top.children, |top.children|, rel, path, node);
      ListedStays(entries, entries, |self.entries|, |s.entries|, rel, path, node);
    }
  }

  lemma {:induction false} FirstIsListed(o: Options, s: Scanned, children: seq<Child>, n: nat, rel: Names, path: Names, node: Node)
    requires n <= |children| && ScanFirst(o, s, children, n, rel).Ok?
    requires |path| > 0 && AtChild(children, n, path, node) && !Excluded(o, node)
    ensures Listed(ScanFirst(o, s, children, n, rel).value.entries, |s.entries|, rel, path, node)
    decreases children, n
  {
    LastChild(o, s, children, n, rel);
    var before := ScanFirst(o, s, children, n - 1, rel).value;
    var after := ScanFirst(o, s, children, n, rel).value;
    var child := children[n - 1];
    EntriesStay(o, before, child.node, rel + [child.name]);
    FirstEntriesStay(o, s, children, n - 1, rel);
    if child.name == path[0] && At(child.node, path[1..], node) {
      NodeIsListed(o, before, child.node, rel + [child.name], path[1..], node);
      ChildPath(rel, child.name, path[1..]);
      assert [child.name] + path[1..] == path;
      var k :| |before.entries| <= k < |after.entries| && Describes(after.entries[k], rel + [child.name], path[1..], node);
      assert Describes(after.entries[k], rel, path, node);
    } else {
      assert AtChild(children, n - 1, path, node);
      FirstIsListed(o, s, children, n - 1, rel, path, node);
      ListedStays(before.entries, after.entries, |s.entries|, |s.entries|, rel, path, node);
    }
  }

  /** The manifest of a tree has an entry for every node that is not excluded, with its path, kind,
      size, hash and number of chunks, and no other entry. */
  lemma ManifestDescribesTree(o: Options, top: Node)
    requires ScanSource(o, top).Ok?
    ensures var entries := ScanSource(o, top).value.entries;
            && (forall k :: 0 <= k < |entries| ==> Sound(o, entries[k], top, []))
            && (forall path, node :: At(top, path, node) && !Excluded(o, node) ==> Listed(entries, 0, [], path, node))
  {
    var entries := ScanSource(o, top).value.entries;
    forall k | 0 <= k < |entries| ensures Sound(o, entries[k], top, []) {
      NodeIsSound(o, NOTHING_YET, top, [], k);
    }
    forall path, node | At(top, path, node) && !Excluded(o, node) ensures Listed(entries, 0, [], path, node) {
      NodeIsListed(o, NOTHING_YET, top, [], path, node);
    }
  }
}
