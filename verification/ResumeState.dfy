/** The receiver's resume bookkeeping (vendored-from-bore/transfer.rs:2793-2920).

    `Runtime` is what the runtime mutex protects; its functions are the mutex's critical
    sections, and the transfer machine interleaves exactly these. The class `ResumeShared` runs
    them the way one worker does, updating its fields in place. Staged files are named by the id
    of their manifest entry. */
module ResumeState {
  import opened Common

  type FileId = nat

  /** One completion bitmap per regular file. */
  type Flags = map<FileId, seq<bool>>

  type Files = map<FileId, Bytes>

  const FLUSH_EVERY_CHUNKS: nat := 8

  datatype Runtime = Runtime(
    flags: Flags,
    freshChunks: map<FileId, nat>,   // `fresh_chunks`: chunks marked by this run
    dirty: set<FileId>,        // files written since the last flush took them
    pending: nat)

  predicate HasSlot(flags: Flags, e: FileId, i: nat) {
    e in flags && i < |flags[e]|
  }

  predicate IsFlagged(flags: Flags, e: FileId, i: nat) {
    HasSlot(flags, e, i) && flags[e][i]
  }

  function FreshCount(rt: Runtime, e: FileId): nat {
    if e in rt.freshChunks then rt.freshChunks[e] else 0
  }

  /** The critical section of `mark_chunk_complete`. */
  function Mark(rt: Runtime, e: FileId, i: nat): Runtime
    requires HasSlot(rt.flags, e, i)
  {
    Runtime(rt.flags[e := rt.flags[e][i := true]],
            rt.freshChunks[e := FreshCount(rt, e) + 1],
            rt.dirty + {e},
            rt.pending + 1)
  }

  predicate NothingToFlush(rt: Runtime) {
    rt.pending == 0 && rt.dirty == {}
  }

  /** The critical section of `flush_pending`: the state is copied out, the dirty set is taken. */
  function AfterSnapshot(rt: Runtime): Runtime {
    rt.(pending := 0, dirty := {})
  }

  function AllFalse(n: nat): (s: seq<bool>) {
    seq(n, _ => false)
  }

  /** The critical section of `reset_file`. The dirty set is left alone. */
  function Reset(rt: Runtime, e: FileId): Runtime
    requires e in rt.flags
  {
    rt.(flags := rt.flags[e := AllFalse(|rt.flags[e]|)], pending := 0)
  }

  predicate AllSet(s: seq<bool>) {
    forall i :: 0 <= i < |s| ==> s[i]
  }

  /** The number of set bits. */
  function Count(s: seq<bool>): (n: nat)
    ensures n <= |s|
  {
    if |s| == 0 then 0 else Count(s[..|s| - 1]) + (if s[|s| - 1] then 1 else 0)
  }

  lemma {:induction false} CountSet(s: seq<bool>, i: nat)
    requires i < |s|
    ensures Count(s[i := true]) == Count(s) + (if s[i] then 0 else 1)
  {
    var m := |s| - 1;
    if i == m {
      assert s[i := true][..m] == s[..m];
    } else {
      assert s[i := true][..m] == s[..m][i := true];
      CountSet(s[..m], i);
    }
  }

  /** A full count means every bit is set, an empty one that none is. */
  lemma {:induction false} CountExtremes(s: seq<bool>)
    ensures Count(s) == |s| <==> AllSet(s)
    ensures Count(s) == 0 <==> (forall i :: 0 <= i < |s| ==> !s[i])
  {
    if |s| > 0 {
      var front := s[..|s| - 1];
      CountExtremes(front);
      assert forall i :: 0 <= i < |front| ==> s[i] == front[i];
      if AllSet(front) && s[|s| - 1] {
        assert AllSet(s);
      }
      if AllSet(s) {
        assert AllSet(front);
      }
    }
  }

  datatype Verdict =
    | Accepted
    | MissingChunks(missing: FileId)
    | HashMismatch(mismatched: FileId)

  datatype FileSpec = FileSpec(id: FileId, chunkCount: nat, fullHash: Digest)

  /** What `verify_summary` decides about one regular file: `None` lets the loop go on. */
  function VerifyFile(rt: Runtime, staged: Files, spec: FileSpec): Option<Verdict>
    requires spec.id in rt.flags && spec.id in staged
  {
    if !AllSet(rt.flags[spec.id]) then Some(MissingChunks(spec.id))
    else if FreshCount(rt, spec.id) >= spec.chunkCount then None
    else if Blake3(staged[spec.id]) != spec.fullHash then Some(HashMismatch(spec.id))
    else None
  }

  predicate Known(rt: Runtime, staged: Files, specs: seq<FileSpec>) {
    forall k :: 0 <= k < |specs| ==> specs[k].id in rt.flags && specs[k].id in staged
  }

  /** `verify_summary` over the regular files in manifest order. */
  function Verify(rt: Runtime, staged: Files, specs: seq<FileSpec>): Verdict
    requires Known(rt, staged, specs)
  {
    if |specs| == 0 then Accepted
    else
      assert forall k :: 0 <= k < |specs| - 1 ==> specs[1..][k] == specs[k + 1];
      match VerifyFile(rt, staged, specs[0])
      case Some(verdict) => verdict
      case None => Verify(rt, staged, specs[1..])
  }

  /** The verdict is that of the first file with one, at position `k`; acceptance means that no file
      has one. */
  lemma {:induction false} VerifyMeaning(rt: Runtime, staged: Files, specs: seq<FileSpec>) returns (k: nat)
    requires Known(rt, staged, specs)
    ensures k <= |specs|
    ensures forall j :: 0 <= j < k ==> VerifyFile(rt, staged, specs[j]) == None
    ensures Verify(rt, staged, specs).Accepted? <==> k == |specs|
    ensures k < |specs| ==> VerifyFile(rt, staged, specs[k]) == Some(Verify(rt, staged, specs))
  {
    if |specs| == 0 || VerifyFile(rt, staged, specs[0]).Some? {
      k := 0;
    } else {
      var rest := specs[1..];
      var i := VerifyMeaning(rt, staged, rest);
      k := i + 1;
      assert forall j :: 0 < j < |specs| ==> specs[j] == rest[j - 1];
    }
  }

  datatype ResumeError = UnknownEntry(entry: FileId) | ChunkOutOfRange(file: FileId, index: nat)

  /** The shared resume state of one receiving run together with the staged files it guards.
      `volatile` is what reads and writes of the staged files see, `durable` what survives a power
      failure; `persisted` lists every version of the state file written so far. */
  class ResumeShared {
    var flags: Flags
    var freshChunks: map<FileId, nat>
    var dirty: set<FileId>
    var pending: nat
    var volatile: Files
    var durable: Files
    var persisted: seq<Flags>

    ghost predicate Valid()
      reads this
    {
      flags.Keys <= volatile.Keys && durable.Keys == volatile.Keys && dirty <= volatile.Keys
    }

    function View(): Runtime
      reads this
    {
      Runtime(flags, freshChunks, dirty, pending)
    }

    constructor (flags: Flags, volatile: Files, durable: Files)
      requires flags.Keys <= volatile.Keys && durable.Keys == volatile.Keys
      ensures Valid()
      ensures View() == Runtime(flags, map[], {}, 0)
      ensures this.volatile == volatile && this.durable == durable && persisted == [flags]
    {
      this.flags, freshChunks, dirty, pending := flags, map[], {}, 0;
      this.volatile, this.durable := volatile, durable;
      persisted := [flags];
    }

    /** An index past the bitmap is not complete; an entry without a bitmap is an error. */
    method IsChunkComplete(e: FileId, i: nat) returns (r: Result<bool, ResumeError>)
      ensures r == if e in flags then Ok(IsFlagged(flags, e, i)) else Err(UnknownEntry(e))
    {
      if e !in flags {
        return Err(UnknownEntry(e));
      }
      return Ok(i < |flags[e]| && flags[e][i]);
    }

    /** Copies the state and takes the dirty set. */
    method TakeSnapshot() returns (snapshot: Option<(Flags, set<FileId>)>)
      requires Valid()
      modifies this`dirty, this`pending
      ensures Valid()
      ensures snapshot.None? <==> NothingToFlush(old(View()))
      ensures snapshot.Some? ==> snapshot.value == (flags, old(dirty))
      ensures View() == AfterSnapshot(old(View()))
    {
      if pending == 0 && dirty == {} {
        return None;
      }
      snapshot := Some((flags, dirty));
      pending := 0;
      dirty := {};
    }

    /** Syncs one staged file after the other. */
    method SyncStagedFiles(paths: set<FileId>)
      requires Valid() && paths <= volatile.Keys
      modifies this`durable
      ensures Valid()
      ensures forall e :: e in durable ==> durable[e] == if e in paths then volatile[e] else old(durable[e])
    {
      var left := paths;
      while left != {}
        invariant left <= paths && durable.Keys == volatile.Keys
        invariant forall e :: e in durable ==>
          durable[e] == if e in paths - left then volatile[e] else old(durable[e])
        decreases left
      {
        var e :| e in left;
        durable := durable[e := volatile[e]];
        left := left - {e};
      }
    }

    /** Snapshot, then sync, then persist. */
    method FlushPending()
      requires Valid()
      modifies this`dirty, this`pending, this`durable, this`persisted
      ensures Valid()
      ensures View() == AfterSnapshot(old(View()))
      ensures persisted == if NothingToFlush(old(View())) then old(persisted) else old(persisted) + [flags]
      ensures forall e :: e in durable ==>
                durable[e] == if e in old(dirty) then volatile[e] else old(durable[e])
    {
      var snapshot := TakeSnapshot();
      if snapshot.Some? {
        SyncStagedFiles(snapshot.value.1);
        persisted := persisted + [snapshot.value.0];
      }
    }

    /** Sets one bit, counts it and remembers the file; every eighth chunk flushes. Errors change
        nothing. */
    method MarkChunkComplete(e: FileId, i: nat) returns (r: Result<(), ResumeError>)
      requires Valid()
      modifies this`flags, this`freshChunks, this`dirty, this`pending, this`durable, this`persisted
      ensures Valid()
      ensures r.Ok? <==> HasSlot(old(flags), e, i)
      ensures r.Err? ==> r.error == if e in flags then ChunkOutOfRange(e, i) else UnknownEntry(e)
      ensures r.Err? ==> View() == old(View()) && durable == old(durable) && persisted == old(persisted)
      ensures r.Ok? ==>
        var marked := Mark(old(View()), e, i);
        if marked.pending >= FLUSH_EVERY_CHUNKS then
          && View() == AfterSnapshot(marked)
          && persisted == old(persisted) + [flags]
          && forall f :: f in durable ==> durable[f] == if f in marked.dirty then volatile[f] else old(durable[f])
        else
          View() == marked && durable == old(durable) && persisted == old(persisted)
    {
      if e !in flags {
        return Err(UnknownEntry(e));
      }
      if i >= |flags[e]| {
        return Err(ChunkOutOfRange(e, i));
      }
      flags := flags[e := flags[e][i := true]];
      freshChunks := freshChunks[e := (if e in freshChunks then freshChunks[e] else 0) + 1];
      dirty := dirty + {e};
      pending := pending + 1;
      if pending >= FLUSH_EVERY_CHUNKS {
        FlushPending();
      }
      return Ok(());
    }

    method AllChunksFresh(e: FileId, chunkCount: nat) returns (r: bool)
      ensures r == (FreshCount(View(), e) >= chunkCount)
    {
      r := (if e in freshChunks then freshChunks[e] else 0) >= chunkCount;
    }

    method AllChunksComplete(e: FileId) returns (r: Result<bool, ResumeError>)
      ensures r == if e in flags then Ok(AllSet(flags[e])) else Err(UnknownEntry(e))
    {
      if e !in flags {
        return Err(UnknownEntry(e));
      }
      var done := flags[e];
      for i := 0 to |done|
        invariant forall j :: 0 <= j < i ==> done[j]
      {
        if !done[i] {
          return Ok(false);
        }
      }
      return Ok(true);
    }

    /** Clears every bit of one file and persists. */
    method ResetFile(e: FileId) returns (r: Result<(), ResumeError>)
      requires Valid()
      modifies this`flags, this`pending, this`persisted
      ensures Valid()
      ensures r == if e in old(flags) then Ok(()) else Err(UnknownEntry(e))
      ensures r.Ok? ==> View() == Reset(old(View()), e) && persisted == old(persisted) + [flags]
      ensures r.Err? ==> View() == old(View()) && persisted == old(persisted)
    {
      if e !in flags {
        return Err(UnknownEntry(e));
      }
      var done := flags[e];
      for i := 0 to |done|
        invariant |done| == |flags[e]|
        invariant forall j :: 0 <= j < i ==> !done[j]
      {
        done := done[i := false];
      }
      assert done == AllFalse(|flags[e]|);
      flags := flags[e := done];
      pending := 0;
      persisted := persisted + [flags];
      return Ok(());
    }

    /** The verification loop. A mismatch also resets the file it is about. */
    method VerifySummary(specs: seq<FileSpec>) returns (verdict: Verdict)
      requires Valid() && Known(View(), volatile, specs)
      modifies this`flags, this`pending, this`persisted
      ensures Valid()
      ensures verdict == Verify(old(View()), volatile, specs)
      ensures verdict.HashMismatch? ==> verdict.mismatched in old(flags)
      ensures View() == if verdict.HashMismatch? then Reset(old(View()), verdict.mismatched) else old(View())
    {
      for k := 0 to |specs|
        invariant Valid() && View() == old(View())
        invariant Known(View(), volatile, specs[k..])
        invariant Verify(View(), volatile, specs) == Verify(View(), volatile, specs[k..])
      {
        var spec := specs[k];
        assert specs[k..][0] == spec && specs[k..][1..] == specs[k + 1..];
        var complete := AllChunksComplete(spec.id);
        if complete == Ok(false) {
          return MissingChunks(spec.id);
        }
        var isFresh := AllChunksFresh(spec.id, spec.chunkCount);
        if !isFresh && Blake3(volatile[spec.id]) != spec.fullHash {
          var _ := ResetFile(spec.id);
          return HashMismatch(spec.id);
        }
      }
      return Accepted;
    }
  }
}
