/** Moving the staged content to its destination by renames, any of which may fail, and the files
    that share the stage directory with it (vendored-from-bore/transfer.rs:46-47, 1760-1785,
    2083-2181, 2922-2930).

    What lies at a path, file or directory, is one value; a symbolic link that leads nowhere is
    there, but the program's `try_exists` does not see it. A process that stops behaves as if every
    operation from then on failed, the attempt to undo included; another run may then stage the content
    again and commit again. */
module Commit {
  import opened Common

  type Name = string
  datatype Item = Item(content: Bytes, dangling: bool)
  type Dir = map<Name, Item>

  datatype Policy = Fail | Rename | Overwrite

  const BACKUP: Name := "overwrite-backup"
  const BACKUP_PREFIX: string := "overwrite-backup-"
  const STATE_FILE: Name := "state.json"
  const STATE_TMP: Name := "state.tmp"

  /** The backup of a child, `lossy` being its name as text; different children may share it. */
  function BackupOf(lossy: map<Name, string>, name: Name): Name {
    BACKUP_PREFIX + if name in lossy then lossy[name] else name
  }

  predicate Holds(dir: Dir, name: Name, item: Item) {
    name in dir && dir[name] == item
  }

  /** `try_exists` */
  predicate Exists(dir: Dir, name: Name) {
    name in dir && !dir[name].dangling
  }

  predicate SameAt(a: Dir, b: Dir, name: Name) {
    (name in a <==> name in b) && (name in a ==> a[name] == b[name])
  }

  /** The old content is at its destination or in its backup, or the new content is at the
      destination; what was not there before is absent or new. */
  predicate Safe(dest0: Dir, staged0: Dir, dest: Dir, stageDir: Dir, backup: Name, name: Name) {
    if name in dest0 then
      || Holds(dest, name, dest0[name])
      || (name !in dest && Holds(stageDir, backup, dest0[name]))
      || (name in staged0 && Holds(dest, name, staged0[name]))
    else name !in dest || (name in staged0 && Holds(dest, name, staged0[name]))
  }

  /** Nothing staged is lost: it is still staged or at its destination. */
  predicate Kept(staged0: Dir, dest: Dir, staged: Dir, name: Name) {
    name in staged0 ==> Holds(staged, name, staged0[name]) || Holds(dest, name, staged0[name])
  }

  // ------------------------------------------------------------------------- several children

  /** Which of the operations on one item succeed: listing it and looking for its destination, and the
      renames; `leftover` is what a failing `remove_any` leaves of the backup. */
  datatype Ops = Ops(known: bool, backUp: bool, place: bool, restore: bool, leftover: Option<Item>)

  const ALL_SUCCEED := Ops(true, true, true, true, None)

  /** What a commit has come to. */
  datatype Children = Children(dest: Dir, staged: Dir, stageDir: Dir, ok: bool)

  function ChildCommit(dest: Dir, staged: Dir, stageDir: Dir, name: Name, backup: Name, policy: Policy, ops: Ops): Children {
    if !ops.known then Children(dest, staged, stageDir, false)
    else if Exists(dest, name) then
      if policy != Overwrite || !ops.backUp then Children(dest, staged, stageDir, false)
      else
        var dest1, stage1 := dest - {name}, stageDir[backup := dest[name]];
        if !ops.place || name !in staged then
          if ops.restore then Children(dest1[name := stage1[backup]], staged, stage1 - {backup}, false)
          else Children(dest1, staged, stage1, false)
        else
          var dest2, staged2 := dest1[name := staged[name]], staged - {name};
          if ops.leftover.Some? then Children(dest2, staged2, stage1[backup := ops.leftover.value], false)
          else Children(dest2, staged2, stage1 - {backup}, true)
    else if !ops.place || name !in staged then Children(dest, staged, stageDir, false)
    else Children(dest[name := staged[name]], staged - {name}, stageDir, true)
  }

  /** A commit: the children in the order they are listed, and which operations succeed for each. */
  datatype Attempt = Attempt(order: seq<Name>, policy: Policy, ops: seq<Ops>)

  predicate Distinct(order: seq<Name>) {
    forall i, j :: 0 <= i < j < |order| ==> order[i] != order[j]
  }

  ghost predicate Lists(a: Attempt, names: set<Name>) {
    Distinct(a.order) && |a.ops| == |a.order| && forall name :: name in a.order <==> name in names
  }

  /** The first `k` children; the first failure ends it. */
  function FirstChildren(dest: Dir, staged: Dir, stageDir: Dir, lossy: map<Name, string>, a: Attempt, k: nat): Children
    requires k <= |a.order| == |a.ops|
  {
    if k == 0 then Children(dest, staged, stageDir, true)
    else
      var r := FirstChildren(dest, staged, stageDir, lossy, a, k - 1);
      if !r.ok then r
      else
        var name := a.order[k - 1];
        ChildCommit(r.dest, r.staged, r.stageDir, name, BackupOf(lossy, name), a.policy, a.ops[k - 1])
  }

  /** All of them; the stage directory is removed only after the last one. */
  function CommitAll(dest: Dir, staged: Dir, stageDir: Dir, lossy: map<Name, string>, a: Attempt): Children
    requires |a.order| == |a.ops|
  {
    var r := FirstChildren(dest, staged, stageDir, lossy, a, |a.order|);
    if r.ok then r.(stageDir := map[]) else r
  }

  /** Of the children in `order`, all but the one at `hole` are committed, before it, or untouched. */
  ghost predicate Between(order: seq<Name>, hole: nat, next: nat, dest0: Dir, staged0: Dir, dest: Dir, staged: Dir) {
    && (forall name :: name in order <==> name in staged0)
    && (forall i :: 0 <= i < |order| && i < hole ==> Holds(dest, order[i], staged0[order[i]]))
    && (forall i :: next <= i < |order| ==> SameAt(staged, staged0, order[i]) && SameAt(dest, dest0, order[i]))
    && (forall name :: name !in staged0 ==> SameAt(dest, dest0, name))
  }

  ghost predicate AllSafe(dest0: Dir, staged0: Dir, dest: Dir, staged: Dir, stageDir: Dir, lossy: map<Name, string>) {
    forall name :: Safe(dest0, staged0, dest, stageDir, BackupOf(lossy, name), name) && Kept(staged0, dest, staged, name)
  }

  lemma BetweenIsSafe(order: seq<Name>, k: nat, dest0: Dir, staged0: Dir, dest: Dir, staged: Dir, stageDir: Dir,
                      lossy: map<Name, string>)
    requires Between(order, k, k + 1, dest0, staged0, dest, staged)
    requires k < |order| ==> Safe(dest0, staged0, dest, stageDir, BackupOf(lossy, order[k]), order[k])
    requires k < |order| ==> Kept(staged0, dest, staged, order[k])
    ensures AllSafe(dest0, staged0, dest, staged, stageDir, lossy)
  {
    forall name
      ensures Safe(dest0, staged0, dest, stageDir, BackupOf(lossy, name), name) && Kept(staged0, dest, staged, name)
    {
      if name in staged0 {
        assert name in order;
        var i :| 0 <= i < |order| && order[i] == name;
      }
    }
  }

  // ------------------------------------------------------------------------------ a single root

  datatype Root = Root(dest: Dir, stageDir: Dir, ok: bool)

  function RootCommit(dest: Dir, stageDir: Dir, name: Name, policy: Policy, ops: Ops): Root {
    if !ops.known then Root(dest, stageDir, false)
    else if Exists(dest, name) then
      if policy != Overwrite || !ops.backUp then Root(dest, stageDir, false)
      else
        var dest1, stage1 := dest - {name}, stageDir[BACKUP := dest[name]];
        if !ops.place || name !in stage1 then
          if ops.restore then Root(dest1[name := stage1[BACKUP]], stage1 - {BACKUP}, false) else Root(dest1, stage1, false)
        else
          var dest2 := dest1[name := stage1[name]];
          if ops.leftover.Some? then Root(dest2, (stage1 - {name})[BACKUP := ops.leftover.value], false)
          else Root(dest2, map[], true)
    else if !ops.place || name !in stageDir then Root(dest, stageDir, false)
    else Root(dest[name := stageDir[name]], map[], true)
  }

  /** Whatever fails, the commit of a root leaves old or new content, unless the root is called like
      the backup; other destinations are untouched; and without `Overwrite` an existing one is. */
  ghost predicate RootSafe(dest: Dir, stageDir: Dir, name: Name, policy: Policy, r: Root) {
    && (forall other :: other != name ==> SameAt(r.dest, dest, other))
    && (name != BACKUP ==> Safe(dest, stageDir, r.dest, r.stageDir, BACKUP, name) && Kept(stageDir, r.dest, r.stageDir, name))
    && (policy != Overwrite && Exists(dest, name) ==> r == Root(dest, stageDir, false))
    && (r.ok ==> name in r.dest && (name != BACKUP ==> Holds(stageDir, name, r.dest[name])))
  }

  lemma RootIsSafe(dest: Dir, stageDir: Dir, name: Name, policy: Policy, ops: Ops)
    ensures RootSafe(dest, stageDir, name, policy, RootCommit(dest, stageDir, name, policy, ops))
  {
  }

  /** The stage directory once the resume state has been persisted. */
  function Persisted(stageDir: Dir, json: Item): Dir {
    (stageDir - {STATE_TMP})[STATE_FILE := json] - {STATE_TMP}
  }

  lemma BetweenAfterChild(order: seq<Name>, k: nat, dest0: Dir, staged0: Dir, dest: Dir, staged: Dir, dest': Dir, staged': Dir)
    requires k < |order| && forall i, j :: 0 <= i < j < |order| ==> order[i] != order[j]
    requires Between(order, k, k, dest0, staged0, dest, staged)
    requires forall other :: other != order[k] ==> SameAt(dest', dest, other) && SameAt(staged', staged, other)
    ensures Between(order, k, k + 1, dest0, staged0, dest', staged')
    ensures Holds(dest', order[k], staged0[order[k]]) ==> Between(order, k + 1, k + 1, dest0, staged0, dest', staged')
  {
    assert forall i :: 0 <= i < |order| && i != k ==> SameAt(dest', dest, order[i]) && SameAt(staged', staged, order[i]);
    assert forall name :: name !in staged0 ==> SameAt(dest', dest, name);
  }

  function NextChild(r: Children, lossy: map<Name, string>, a: Attempt, k: nat): Children
    requires k < |a.order| == |a.ops|
  {
    if !r.ok then r
    else ChildCommit(r.dest, r.staged, r.stageDir, a.order[k], BackupOf(lossy, a.order[k]), a.policy, a.ops[k])
  }

  /** Induction over the children of one commit. */
  lemma {:induction false} FirstChildrenKeep(dest: Dir, staged: Dir, stageDir: Dir, lossy: map<Name, string>, a: Attempt, k: nat,
                                             good: (Children, nat) -> bool)
    requires k <= |a.order| == |a.ops| && good(Children(dest, staged, stageDir, true), 0)
    requires forall r, j: nat :: j < |a.order| && good(r, j) ==> good(NextChild(r, lossy, a, j), j + 1)
    ensures good(FirstChildren(dest, staged, stageDir, lossy, a, k), k)
  {
    if k > 0 {
      FirstChildrenKeep(dest, staged, stageDir, lossy, a, k - 1, good);
      var r := FirstChildren(dest, staged, stageDir, lossy, a, k - 1);
      assert FirstChildren(dest, staged, stageDir, lossy, a, k) == NextChild(r, lossy, a, k - 1);
    }
  }

  lemma OneChildMore(dest: Dir, staged: Dir, stageDir: Dir, lossy: map<Name, string>, a: Attempt, k: nat)
    requires k < |a.order| == |a.ops|
    ensures FirstChildren(dest, staged, stageDir, lossy, a, k + 1) ==
              NextChild(FirstChildren(dest, staged, stageDir, lossy, a, k), lossy, a, k)
  {
  }

  lemma {:induction false} FailureEnds(dest: Dir, staged: Dir, stageDir: Dir, lossy: map<Name, string>, a: Attempt, k: nat, n: nat)
    requires k <= n <= |a.order| == |a.ops| && !FirstChildren(dest, staged, stageDir, lossy, a, k).ok
    ensures FirstChildren(dest, staged, stageDir, lossy, a, n) == FirstChildren(dest, staged, stageDir, lossy, a, k)
    decreases n
  {
    if k < n {
      FailureEnds(dest, staged, stageDir, lossy, a, k, n - 1);
    }
  }

  /** One child, wherever its commit stops. */
  lemma ChildIsSafe(dest: Dir, staged: Dir, stageDir: Dir, name: Name, backup: Name, policy: Policy, ops: Ops)
    requires name in staged
    ensures var r := ChildCommit(dest, staged, stageDir, name, backup, policy, ops);
            && (forall other :: other != name ==> SameAt(r.dest, dest, other) && SameAt(r.staged, staged, other))
            && Safe(dest, staged, r.dest, r.stageDir, backup, name) && Kept(staged, r.dest, r.staged, name)
            && (r.ok ==> Holds(r.dest, name, staged[name]))
            && (policy != Overwrite && Exists(dest, name) ==> r == Children(dest, staged, stageDir, false))
  {
  }

  /** What holds after the first `k` children of a commit, or after the one that failed. */
  ghost predicate CommitSoFar(dest0: Dir, staged0: Dir, r: Children, lossy: map<Name, string>, a: Attempt, k: nat) {
    && AllSafe(dest0, staged0, r.dest, r.staged, r.stageDir, lossy)
    && (forall name :: name !in staged0 ==> SameAt(r.dest, dest0, name))
    && (a.policy != Overwrite ==> forall name :: Exists(dest0, name) ==> SameAt(r.dest, dest0, name))
    && (r.ok ==> Between(a.order, k, k, dest0, staged0, r.dest, r.staged))
    && (r.ok && a.policy != Overwrite ==> forall i :: 0 <= i < k && i < |a.order| ==> !Exists(dest0, a.order[i]))
  }

  lemma NextChildIsSafe(dest0: Dir, staged0: Dir, r: Children, lossy: map<Name, string>, a: Attempt, k: nat)
    requires Lists(a, staged0.Keys) && k < |a.order| && CommitSoFar(dest0, staged0, r, lossy, a, k) && r.ok
    ensures CommitSoFar(dest0, staged0, NextChild(r, lossy, a, k), lossy, a, k + 1)
  {
    var name := a.order[k];
    var after := NextChild(r, lossy, a, k);
    assert name in a.order;
    assert SameAt(r.staged, staged0, name) && SameAt(r.dest, dest0, name);
    ChildIsSafe(r.dest, r.staged, r.stageDir, name, BackupOf(lossy, name), a.policy, a.ops[k]);
    BetweenAfterChild(a.order, k, dest0, staged0, r.dest, r.staged, after.dest, after.staged);
    BetweenIsSafe(a.order, k, dest0, staged0, after.dest, after.staged, after.stageDir, lossy);
    OthersAsBefore(dest0, r.dest, after.dest, name, a.policy);
  }

  lemma OthersAsBefore(dest0: Dir, before: Dir, after: Dir, name: Name, policy: Policy)
    requires forall other :: other != name ==> SameAt(after, before, other)
    requires policy != Overwrite ==> forall other :: Exists(dest0, other) ==> SameAt(before, dest0, other)
    requires policy != Overwrite && Exists(before, name) ==> after == before
    ensures policy != Overwrite ==> forall other :: Exists(dest0, other) ==> SameAt(after, dest0, other)
  {
    forall other | policy != Overwrite && Exists(dest0, other) ensures SameAt(after, dest0, other) {
      assert SameAt(before, dest0, other);
      if other != name {
        assert SameAt(after, before, other);
      }
    }
  }

  lemma ChildrenAreSafe(dest0: Dir, staged0: Dir, stageDir: Dir, lossy: map<Name, string>, a: Attempt)
    requires Lists(a, staged0.Keys)
    ensures CommitSoFar(dest0, staged0, FirstChildren(dest0, staged0, stageDir, lossy, a, |a.order|), lossy, a, |a.order|)
  {
    assert CommitSoFar(dest0, staged0, Children(dest0, staged0, stageDir, true), lossy, a, 0);
    forall r, j: nat | j < |a.order| && CommitSoFar(dest0, staged0, r, lossy, a, j)
      ensures CommitSoFar(dest0, staged0, NextChild(r, lossy, a, j), lossy, a, j + 1)
    {
      if r.ok {
        NextChildIsSafe(dest0, staged0, r, lossy, a, j);
      }
    }
    FirstChildrenKeep(dest0, staged0, stageDir, lossy, a, |a.order|,
                      (r: Children, j: nat) => CommitSoFar(dest0, staged0, r, lossy, a, j));
  }

  /** A commit that has not failed has put everything in place. */
  lemma AllCommitted(dest0: Dir, staged0: Dir, r: Children, lossy: map<Name, string>, a: Attempt)
    requires Lists(a, staged0.Keys) && CommitSoFar(dest0, staged0, r, lossy, a, |a.order|) && r.ok
    ensures forall name :: name in staged0 ==> Holds(r.dest, name, staged0[name])
    ensures a.policy != Overwrite ==> forall name :: name in staged0 ==> !Exists(dest0, name)
    ensures AllSafe(dest0, staged0, r.dest, r.staged, map[], lossy)
  {
    BetweenIsSafe(a.order, |a.order|, dest0, staged0, r.dest, r.staged, map[], lossy);
    forall name | name in staged0
      ensures Holds(r.dest, name, staged0[name]) && (a.policy != Overwrite ==> !Exists(dest0, name))
    {
      assert name in a.order;
      var i :| 0 <= i < |a.order| && a.order[i] == name;
    }
  }

  /** A whole commit, wherever it stops. */
  lemma CommitIsSafe(dest0: Dir, staged0: Dir, stageDir: Dir, lossy: map<Name, string>, a: Attempt)
    requires Lists(a, staged0.Keys)
    ensures var r := CommitAll(dest0, staged0, stageDir, lossy, a);
            && AllSafe(dest0, staged0, r.dest, r.staged, r.stageDir, lossy)
            && (forall name :: name !in staged0 ==> SameAt(r.dest, dest0, name))
            && (r.ok ==> forall name :: name in staged0 ==> Holds(r.dest, name, staged0[name]))
            && (a.policy != Overwrite ==> forall name :: Exists(dest0, name) ==> SameAt(r.dest, dest0, name))
            && (a.policy != Overwrite && r.ok ==> forall name :: name in staged0 ==> !Exists(dest0, name))
  {
    ChildrenAreSafe(dest0, staged0, stageDir, lossy, a);
    var r := FirstChildren(dest0, staged0, stageDir, lossy, a, |a.order|);
    if r.ok {
      AllCommitted(dest0, staged0, r, lossy, a);
    }
  }

  /** The destination, the directory of the staged children and the stage directory around it. */
  class Disk {
    var dest: Dir
    var staged: Dir
    var stageDir: Dir

    /** `rename(dst, backup)` */
    method BackUp(name: Name, backup: Name, succeeds: bool) returns (ok: bool)
      requires name in dest
      modifies this`dest, this`stageDir
      ensures ok == succeeds
      ensures ok ==> dest == old(dest) - {name} && stageDir == old(stageDir)[backup := old(dest)[name]]
      ensures !ok ==> dest == old(dest) && stageDir == old(stageDir)
    {
      ok := succeeds;
      if ok {
        dest, stageDir := dest - {name}, stageDir[backup := dest[name]];
      }
    }

    /** `let _ = rename(backup, dst)` */
    method Restore(name: Name, backup: Name, succeeds: bool)
      requires backup in stageDir
      modifies this`dest, this`stageDir
      ensures succeeds ==> dest == old(dest)[name := old(stageDir)[backup]] && stageDir == old(stageDir) - {backup}
      ensures !succeeds ==> dest == old(dest) && stageDir == old(stageDir)
    {
      if succeeds {
        dest, stageDir := dest[name := stageDir[backup]], stageDir - {backup};
      }
    }

    /** `rename(src, dst)` of a staged child, which fails if there is none. */
    method Place(name: Name, succeeds: bool) returns (ok: bool)
      modifies this`dest, this`staged
      ensures ok <==> succeeds && name in old(staged)
      ensures ok ==> dest == old(dest)[name := old(staged)[name]] && staged == old(staged) - {name}
      ensures !ok ==> dest == old(dest) && staged == old(staged)
    {
      ok := succeeds && name in staged;
      if ok {
        dest, staged := dest[name := staged[name]], staged - {name};
      }
    }

    /** `remove_any`: on failure, part of the backup may be gone already. */
    method RemoveBackup(backup: Name, leftover: Option<Item>) returns (ok: bool)
      modifies this`stageDir
      ensures ok <==> leftover.None?
      ensures stageDir == if ok then old(stageDir) - {backup} else old(stageDir)[backup := leftover.value]
    {
      ok := leftover.None?;
      if ok {
        stageDir := stageDir - {backup};
      } else {
        stageDir := stageDir[backup := leftover.value];
      }
    }

    /** One child of the staged directory. Without `Overwrite`, only what `try_exists` does not see
        is replaced. */
    method CommitChild(name: Name, backup: Name, policy: Policy, ops: Ops) returns (ok: bool)
      modifies this
      ensures Children(dest, staged, stageDir, ok) == ChildCommit(old(dest), old(staged), old(stageDir), name, backup, policy, ops)
      ensures name in old(staged) ==>
        && (forall other :: other != name ==> SameAt(dest, old(dest), other) && SameAt(staged, old(staged), other))
        && Safe(old(dest), old(staged), dest, stageDir, backup, name) && Kept(old(staged), dest, staged, name)
        && (ok ==> Holds(dest, name, old(staged)[name]))
        && (policy != Overwrite && Exists(old(dest), name) ==> !ok && dest == old(dest) && staged == old(staged) && stageDir == old(stageDir))
    {
      if name in staged {
        ChildIsSafe(dest, staged, stageDir, name, backup, policy, ops);
      }
      if !ops.known {
        return false;
      }
      if Exists(dest, name) {
        if policy != Overwrite {
          return false;
        }
        var moved := BackUp(name, backup, ops.backUp);
        if !moved {
          return false;
        }
        var placed := Place(name, ops.place);
        if !placed {
          Restore(name, backup, ops.restore);
          return false;
        }
        ok := RemoveBackup(backup, ops.leftover);
      } else {
        ok := Place(name, ops.place);
      }
    }

    /** The children in the order the directory lists them; the first failure ends it. */
    method CommitEach(lossy: map<Name, string>, a: Attempt) returns (ok: bool)
      requires |a.order| == |a.ops|
      modifies this
      ensures Children(dest, staged, stageDir, ok) == FirstChildren(old(dest), old(staged), old(stageDir), lossy, a, |a.order|)
    {
      ok := true;
      var k := 0;
      while ok && k < |a.order|
        invariant k <= |a.order|
        invariant Children(dest, staged, stageDir, ok) == FirstChildren(old(dest), old(staged), old(stageDir), lossy, a, k)
      {
        OneChildMore(old(dest), old(staged), old(stageDir), lossy, a, k);
        ok := CommitChild(a.order[k], BackupOf(lossy, a.order[k]), a.policy, a.ops[k]);
        k := k + 1;
      }
      if !ok {
        FailureEnds(old(dest), old(staged), old(stageDir), lossy, a, k, |a.order|);
      }
    }

    /** `commit_stage` for several sources. The stage directory is removed only after the last child. */
    method CommitChildren(lossy: map<Name, string>, a: Attempt) returns (ok: bool)
      requires Lists(a, staged.Keys)
      modifies this
      ensures Children(dest, staged, stageDir, ok) == CommitAll(old(dest), old(staged), old(stageDir), lossy, a)
      ensures AllSafe(old(dest), old(staged), dest, staged, stageDir, lossy)
      ensures forall name :: name !in old(staged) ==> SameAt(dest, old(dest), name)
      ensures ok ==> forall name :: name in old(staged) ==> Holds(dest, name, old(staged)[name])
      ensures a.policy != Overwrite ==> forall name :: Exists(old(dest), name) ==> SameAt(dest, old(dest), name)
      ensures a.policy != Overwrite && ok ==> forall name :: name in old(staged) ==> !Exists(old(dest), name)
    {
      ok := CommitEach(lossy, a);
      if ok {
        stageDir := map[];
      }
      CommitIsSafe(old(dest), old(staged), old(stageDir), lossy, a);
    }

    /** `commit_stage` for a single root, which is staged in the stage directory itself. */
    method CommitRoot(name: Name, policy: Policy, ops: Ops) returns (ok: bool)
      modifies this
      ensures Root(dest, stageDir, ok) == RootCommit(old(dest), old(stageDir), name, policy, ops)
      ensures RootSafe(old(dest), old(stageDir), name, policy, Root(dest, stageDir, ok))
      ensures staged == old(staged)
    {
      RootIsSafe(dest, stageDir, name, policy, ops);
      if !ops.known {
        return false;
      }
      if Exists(dest, name) {
        if policy != Overwrite || !ops.backUp {
          return false;
        }
        dest, stageDir := dest - {name}, stageDir[BACKUP := dest[name]];
        if !ops.place || name !in stageDir {
          if ops.restore {
            dest, stageDir := dest[name := stageDir[BACKUP]], stageDir - {BACKUP};
          }
          return false;
        }
        dest, stageDir := dest[name := stageDir[name]], stageDir - {name};
        if ops.leftover.Some? {
          stageDir := stageDir[BACKUP := ops.leftover.value];
          return false;
        }
      } else {
        if !ops.place || name !in stageDir {
          return false;
        }
        dest := dest[name := stageDir[name]];
      }
      stageDir := map[];
      return true;
    }

    /** `write_json_atomic`: write the temporary file, remove the old state, rename. Wherever it fails,
        the old state is in place, or the new one is complete beside it. */
    method PersistState(json: Item) returns (ok: bool)
      modifies this`stageDir
      ensures ok ==> stageDir == Persisted(old(stageDir), json)
      ensures stageDir - {STATE_FILE, STATE_TMP} == old(stageDir) - {STATE_FILE, STATE_TMP}
      ensures !ok && !SameAt(stageDir, old(stageDir), STATE_FILE) ==>
                STATE_FILE !in stageDir && Holds(stageDir, STATE_TMP, json)
    {
      var written: bool := *;
      if !written {
        var part: Item := *;
        stageDir := stageDir[STATE_TMP := part];
        return false;
      }
      stageDir := stageDir[STATE_TMP := json];
      var known: bool := *;      // whether `try_exists` answers
      if !known {
        return false;
      }
      var removed: bool := *;
      if Exists(stageDir, STATE_FILE) && removed {
        stageDir := stageDir - {STATE_FILE};
      }
      var renamed: bool := *;
      if !renamed {
        return false;
      }
      stageDir := stageDir[STATE_FILE := json] - {STATE_TMP};
      return true;
    }
  }

  // ------------------------------------------------------------------------ one commit after another

  /** After commits that may have stopped: the old content is at its destination or in its backup, or
      the new content is; nothing else is at the destination. */
  predicate SafeEver(dest0: Dir, content: Dir, dest: Dir, stageDir: Dir, backup: Name, name: Name) {
    if name in content then
      || Holds(dest, name, content[name])
      || (name in dest0 && Holds(dest, name, dest0[name]))
      || (name !in dest && (name in dest0 ==> Holds(stageDir, backup, dest0[name]) || Holds(stageDir, backup, content[name])))
    else SameAt(dest, dest0, name)
  }

  ghost predicate AllSafeEver(dest0: Dir, content: Dir, dest: Dir, stageDir: Dir, lossy: map<Name, string>) {
    forall name :: SafeEver(dest0, content, dest, stageDir, BackupOf(lossy, name), name)
  }

  datatype Disks = Disks(dest: Dir, stageDir: Dir)

  /** Any number of commits into the same stage. Before each, a run has staged the content anew. */
  function Commits(dest: Dir, stageDir: Dir, content: Dir, lossy: map<Name, string>, attempts: seq<Attempt>): Disks
    requires forall k :: 0 <= k < |attempts| ==> |attempts[k].order| == |attempts[k].ops|
  {
    if |attempts| == 0 then Disks(dest, stageDir)
    else
      var m := |attempts| - 1;
      var before := Commits(dest, stageDir, content, lossy, attempts[..m]);
      var r := CommitAll(before.dest, content, before.stageDir, lossy, attempts[m]);
      Disks(r.dest, r.stageDir)
  }

  /** No two staged children share a backup. */
  ghost predicate OwnBackups(content: Dir, lossy: map<Name, string>) {
    forall a, b :: a in content && b in content && a != b ==> BackupOf(lossy, a) != BackupOf(lossy, b)
  }

  /** What is still staged is what was. */
  predicate StillStaged(content: Dir, staged: Dir) {
    forall name :: name in staged ==> Holds(content, name, staged[name])
  }

  lemma ChildKeepsSafe(dest0: Dir, content: Dir, dest: Dir, staged: Dir, stageDir: Dir, lossy: map<Name, string>,
                       name: Name, policy: Policy, ops: Ops)
    requires AllSafeEver(dest0, content, dest, stageDir, lossy) && OwnBackups(content, lossy)
    requires name in content && StillStaged(content, staged)
    ensures var r := ChildCommit(dest, staged, stageDir, name, BackupOf(lossy, name), policy, ops);
            && AllSafeEver(dest0, content, r.dest, r.stageDir, lossy) && StillStaged(content, r.staged)
            && (r.ok ==> Holds(r.dest, name, content[name]))
            && forall other :: other != name ==> SameAt(r.dest, dest, other)
  {
    var r := ChildCommit(dest, staged, stageDir, name, BackupOf(lossy, name), policy, ops);
    forall other
      ensures SafeEver(dest0, content, r.dest, r.stageDir, BackupOf(lossy, other), other)
      ensures other != name ==> SameAt(r.dest, dest, other)
    {
      assert SafeEver(dest0, content, dest, stageDir, BackupOf(lossy, other), other);
    }
  }

  /** What is in place stays in place when a later child is committed. */
  lemma OthersStay(content: Dir, before: Dir, after: Dir, order: seq<Name>, k: nat)
    requires Distinct(order) && k < |order| && forall i :: 0 <= i < k ==> order[i] in content
    requires forall i :: 0 <= i < k ==> Holds(before, order[i], content[order[i]])
    requires forall other :: other != order[k] ==> SameAt(after, before, other)
    ensures forall i :: 0 <= i < k ==> Holds(after, order[i], content[order[i]])
  {
    forall i | 0 <= i < k ensures Holds(after, order[i], content[order[i]]) {
      assert order[i] != order[k] && SameAt(after, before, order[i]);
    }
  }

  /** So far so good, and the first `k` children are in place unless one of them failed. */
  ghost predicate SafeSoFar(dest0: Dir, content: Dir, r: Children, lossy: map<Name, string>, order: seq<Name>, k: nat)
    requires k <= |order| && forall name :: name in order ==> name in content
  {
    && AllSafeEver(dest0, content, r.dest, r.stageDir, lossy) && StillStaged(content, r.staged)
    && (r.ok ==> forall i :: 0 <= i < k ==> Holds(r.dest, order[i], content[order[i]]))
  }

  lemma OneMoreChild(dest0: Dir, content: Dir, r: Children, lossy: map<Name, string>, a: Attempt, k: nat)
    requires OwnBackups(content, lossy) && Lists(a, content.Keys) && k < |a.order|
    requires SafeSoFar(dest0, content, r, lossy, a.order, k) && r.ok
    ensures var name := a.order[k];
            SafeSoFar(dest0, content, ChildCommit(r.dest, r.staged, r.stageDir, name, BackupOf(lossy, name), a.policy, a.ops[k]),
                      lossy, a.order, k + 1)
  {
    var name := a.order[k];
    ChildKeepsSafe(dest0, content, r.dest, r.staged, r.stageDir, lossy, name, a.policy, a.ops[k]);
    var after := ChildCommit(r.dest, r.staged, r.stageDir, name, BackupOf(lossy, name), a.policy, a.ops[k]);
    OthersStay(content, r.dest, after.dest, a.order, k);
  }

  lemma ChildrenKeepSafe(dest0: Dir, content: Dir, dest: Dir, stageDir: Dir, lossy: map<Name, string>, a: Attempt)
    requires AllSafeEver(dest0, content, dest, stageDir, lossy) && OwnBackups(content, lossy) && Lists(a, content.Keys)
    ensures SafeSoFar(dest0, content, FirstChildren(dest, content, stageDir, lossy, a, |a.order|), lossy, a.order, |a.order|)
  {
    forall r, j: nat | j < |a.order| && SafeSoFar(dest0, content, r, lossy, a.order, j)
      ensures SafeSoFar(dest0, content, NextChild(r, lossy, a, j), lossy, a.order, j + 1)
    {
      if r.ok {
        OneMoreChild(dest0, content, r, lossy, a, j);
      }
    }
    FirstChildrenKeep(dest, content, stageDir, lossy, a, |a.order|,
                      (r: Children, j: nat) => j <= |a.order| && SafeSoFar(dest0, content, r, lossy, a.order, j));
  }

  lemma CommitKeepsSafe(dest0: Dir, content: Dir, dest: Dir, stageDir: Dir, lossy: map<Name, string>, a: Attempt)
    requires AllSafeEver(dest0, content, dest, stageDir, lossy) && OwnBackups(content, lossy) && Lists(a, content.Keys)
    ensures var r := CommitAll(dest, content, stageDir, lossy, a); AllSafeEver(dest0, content, r.dest, r.stageDir, lossy)
  {
    var r := FirstChildren(dest, content, stageDir, lossy, a, |a.order|);
    ChildrenKeepSafe(dest0, content, dest, stageDir, lossy, a);
    if r.ok {
      forall name ensures SafeEver(dest0, content, r.dest, map[], BackupOf(lossy, name), name) {
        assert SafeEver(dest0, content, r.dest, r.stageDir, BackupOf(lossy, name), name);
        if name in content {
          assert name in a.order;
          var i :| 0 <= i < |a.order| && a.order[i] == name;
        }
      }
    }
  }

  ghost predicate AllList(attempts: seq<Attempt>, names: set<Name>) {
    forall k :: 0 <= k < |attempts| ==> Lists(attempts[k], names)
  }

  lemma {:induction false} CommitsKeepSafe(dest: Dir, content: Dir, lossy: map<Name, string>, attempts: seq<Attempt>)
    requires OwnBackups(content, lossy) && AllList(attempts, content.Keys)
    ensures var r := Commits(dest, map[], content, lossy, attempts); AllSafeEver(dest, content, r.dest, r.stageDir, lossy)
  {
    if |attempts| > 0 {
      var m := |attempts| - 1;
      var before := Commits(dest, map[], content, lossy, attempts[..m]);
      CommitsKeepSafe(dest, content, lossy, attempts[..m]);
      CommitKeepsSafe(dest, content, before.dest, before.stageDir, lossy, attempts[m]);
    }
  }

  /** Whatever was at the destination, and however many commits stop wherever they do. */
  ghost predicate AlwaysSafe(content: Dir, lossy: map<Name, string>) {
    forall dest, attempts :: AllList(attempts, content.Keys) ==>
      AllSafeEver(dest, content, Commits(dest, map[], content, lossy, attempts).dest,
                  Commits(dest, map[], content, lossy, attempts).stageDir, lossy)
  }

  lemma {:induction false} Ordering(names: set<Name>) returns (order: seq<Name>)
    ensures Distinct(order) && forall name :: name in order <==> name in names
  {
    order := [];
    if names != {} {
      var name :| name in names;
      var rest := Ordering(names - {name});
      order := [name] + rest;
    }
  }

  /** A commit that moves the first child's old content away and stops. */
  lemma StopsAfterBackUp(names: set<Name>, name: Name) returns (a: Attempt)
    requires name in names
    ensures Lists(a, names)
    ensures forall dest: Dir, staged: Dir, stageDir: Dir, lossy :: Exists(dest, name) ==>
              CommitAll(dest, staged, stageDir, lossy, a)
                == Children(dest - {name}, staged, stageDir[BackupOf(lossy, name) := dest[name]], false)
  {
    var rest := Ordering(names - {name});
    var stop := Ops(true, true, false, false, None);
    a := Attempt([name] + rest, Overwrite, seq(|rest| + 1, _ => stop));
    forall dest: Dir, staged: Dir, stageDir: Dir, lossy | Exists(dest, name)
      ensures CommitAll(dest, staged, stageDir, lossy, a)
                == Children(dest - {name}, staged, stageDir[BackupOf(lossy, name) := dest[name]], false)
    {
      assert FirstChildren(dest, staged, stageDir, lossy, a, 0) == Children(dest, staged, stageDir, true);
      assert !FirstChildren(dest, staged, stageDir, lossy, a, 1).ok;
      FailureEnds(dest, staged, stageDir, lossy, a, 1, |a.order|);
    }
  }

  /** Two commits that stop, the second of them in another child with the same backup: the old content of
      the first is in neither place. */
  lemma SharedBackupLosesContent(content: Dir, lossy: map<Name, string>, a: Name, b: Name)
      returns (dest: Dir, attempts: seq<Attempt>)
    requires a in content && b in content && a != b && BackupOf(lossy, a) == BackupOf(lossy, b)
    ensures AllList(attempts, content.Keys)
    ensures var r := Commits(dest, map[], content, lossy, attempts);
            !SafeEver(dest, content, r.dest, r.stageDir, BackupOf(lossy, a), a)
  {
    var backup := BackupOf(lossy, a);
    var oldA, oldB := Item(content[a].content + [0], false), Item(content[a].content + [0, 0], false);
    dest := map[a := oldA, b := oldB];
    var first := StopsAfterBackUp(content.Keys, a);
    var second := StopsAfterBackUp(content.Keys, b);
    attempts := [first, second];
    var stage: Dir := map[];
    assert attempts[..1] == [first] && [first][..0] == [];
    assert Commits(dest, stage, content, lossy, []) == Disks(dest, stage);
    assert Exists(dest, a) && Exists(dest - {a}, b);
    assert Commits(dest, stage, content, lossy, [first]) == Disks(dest - {a}, stage[backup := oldA]);
    assert Commits(dest, stage, content, lossy, attempts) == Disks(dest - {a} - {b}, stage[backup := oldA][backup := oldB]);
  }

  /** Old or new content survives any number of stopped commits if and only if no two staged children
      share a backup. */
  lemma AlwaysSafeIffOwnBackups(content: Dir, lossy: map<Name, string>)
    ensures AlwaysSafe(content, lossy) <==> OwnBackups(content, lossy)
  {
    if OwnBackups(content, lossy) {
      forall dest, attempts | AllList(attempts, content.Keys)
        ensures AllSafeEver(dest, content, Commits(dest, map[], content, lossy, attempts).dest,
                            Commits(dest, map[], content, lossy, attempts).stageDir, lossy)
      {
        CommitsKeepSafe(dest, content, lossy, attempts);
      }
    } else {
      var a, b :| a in content && b in content && a != b && BackupOf(lossy, a) == BackupOf(lossy, b);
      var dest, attempts := SharedBackupLosesContent(content, lossy, a, b);
      assert !AlwaysSafe(content, lossy);
    }
  }

  /** When the run after a stopped commit is declined, the stage is removed, or what of it can be. That is
      safe exactly when no backup that goes is the only copy. */
  lemma DeclineIsSafeIff(dest0: Dir, content: Dir, dest: Dir, stageDir: Dir, lossy: map<Name, string>, removed: set<Name>)
    requires AllSafeEver(dest0, content, dest, stageDir, lossy)
    ensures AllSafeEver(dest0, content, dest, stageDir - removed, lossy) <==>
            forall name :: name in content && name in dest0 && name !in dest ==> BackupOf(lossy, name) !in removed
  {
    forall name
      ensures SafeEver(dest0, content, dest, stageDir - removed, BackupOf(lossy, name), name) <==>
              (name in content && name in dest0 && name !in dest ==> BackupOf(lossy, name) !in removed)
    {
      assert SafeEver(dest0, content, dest, stageDir, BackupOf(lossy, name), name);
    }
  }

  /** Any number of commits of a single root, staged anew before each. */
  function RootCommits(dest: Dir, stageDir: Dir, name: Name, file: Item, attempts: seq<(Policy, Ops)>): Disks {
    if |attempts| == 0 then Disks(dest, stageDir)
    else
      var m := |attempts| - 1;
      var before := RootCommits(dest, stageDir, name, file, attempts[..m]);
      var r := RootCommit(before.dest, before.stageDir[name := file], name, attempts[m].0, attempts[m].1);
      Disks(r.dest, r.stageDir)
  }

  lemma RootKeepsSafe(dest0: Dir, file: Item, dest: Dir, stageDir: Dir, name: Name, policy: Policy, ops: Ops)
    requires SafeEver(dest0, map[name := file], dest, stageDir, BACKUP, name)
    ensures var r := RootCommit(dest, stageDir[name := file], name, policy, ops);
            && SafeEver(dest0, map[name := file], r.dest, r.stageDir, BACKUP, name)
            && forall other :: other != name ==> SameAt(r.dest, dest, other)
  {
  }

  /** A root has a backup of its own: old or new content survives them all. */
  lemma {:induction false} RootCommitsAreSafe(dest: Dir, stageDir: Dir, name: Name, file: Item, attempts: seq<(Policy, Ops)>)
    ensures var r := RootCommits(dest, stageDir, name, file, attempts);
            && SafeEver(dest, map[name := file], r.dest, r.stageDir, BACKUP, name)
            && forall other :: other != name ==> SameAt(r.dest, dest, other)
  {
    if |attempts| > 0 {
      var m := |attempts| - 1;
      var before := RootCommits(dest, stageDir, name, file, attempts[..m]);
      RootCommitsAreSafe(dest, stageDir, name, file, attempts[..m]);
      RootKeepsSafe(dest, file, before.dest, before.stageDir, name, attempts[m].0, attempts[m].1);
      var r := RootCommits(dest, stageDir, name, file, attempts);
      assert SafeEver(dest, map[name := file], r.dest, r.stageDir, BACKUP, name);
      forall other | other != name ensures SameAt(r.dest, dest, other) {
        assert SameAt(before.dest, dest, other);
      }
    }
  }

  // --------------------------------------------------------------------------- a single file

  /** Persisting the resume state leaves the staged root alone exactly when it is not called like
      one of the two state files (or happens to equal the state). */
  lemma PersistKeepsRoot(stageDir: Dir, name: Name, json: Item)
    requires name in stageDir
    ensures SameAt(Persisted(stageDir, json), stageDir, name) <==>
            name != STATE_TMP && (name != STATE_FILE || stageDir[name] == json)
  {
  }

  /** What a transfer of a single file comes to when no operation fails: the content is staged, the
      resume state persisted, if there was any chunk to receive, and the stage committed. */
  function Delivered(dest: Dir, stageDir: Dir, name: Name, file: Item, json: Item, policy: Policy): Root {
    var staged := stageDir[name := file];
    RootCommit(dest, if file.content == [] then staged else Persisted(staged, json), name, policy, ALL_SUCCEED)
  }

  /** The file arrives exactly when it is empty or its name is neither of the state files', and its
      destination is free, or is to be overwritten and not called like the backup. The
      resume state and what was at the destination differ from it. */
  lemma DeliveredIff(dest: Dir, stageDir: Dir, name: Name, file: Item, json: Item, policy: Policy)
    requires file != json && !Holds(dest, name, file)
    ensures Holds(Delivered(dest, stageDir, name, file, json, policy).dest, name, file) <==>
            && (file.content == [] || (name != STATE_FILE && name != STATE_TMP))
            && (Exists(dest, name) ==> policy == Overwrite && name != BACKUP)
  {
  }

  /** In the bad cases the commit may still report success: a file called like the state arrives as
      the state, unless it is empty, and one called like the backup leaves the old content in place. */
  lemma WrongContentReportedAsSuccess(dest: Dir, stageDir: Dir, file: Item, json: Item, policy: Policy)
    ensures !Exists(dest, STATE_FILE) && file.content != [] ==>
              var r := Delivered(dest, stageDir, STATE_FILE, file, json, policy);
              r.ok && Holds(r.dest, STATE_FILE, json)
    ensures Exists(dest, BACKUP) ==>
              var r := Delivered(dest, stageDir, BACKUP, file, json, Overwrite);
              r.ok && Holds(r.dest, BACKUP, dest[BACKUP])
  {
  }

  /** Without `Overwrite`, a destination is replaced exactly when it is a link that leads nowhere and
      the operations on the way succeed. */
  lemma OnlyDanglingIsReplaced(dest: Dir, stageDir: Dir, name: Name, policy: Policy, ops: Ops)
    requires policy != Overwrite && name in dest && name in stageDir && stageDir[name] != dest[name]
    ensures !SameAt(RootCommit(dest, stageDir, name, policy, ops).dest, dest, name) <==>
            dest[name].dangling && ops.known && ops.place
  {
  }
}
