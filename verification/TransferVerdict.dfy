/** What the final verification says, exactly, in every reachable state: which bytes can be wrong in a
    file with all its bits set, when a file is re-hashed, and what an unfinished commit does to the
    run that resumes it (vendored-from-bore/transfer.rs:1984-2035, 2083-2181). */
module TransferVerdict {
  import opened Common
  import opened Chunking
  import opened ManifestTypes
  import opened ResumePlan
  import opened ResumeState
  import opened TransferMachine
  import opened TransferSafety

  lemma {:induction false} SpecsAreEntries(entries: seq<ManifestEntry>, j: nat) returns (k: nat)
    requires j < |Specs(entries)|
    ensures k < |entries| && entries[k].kind.RegularFile? && entries[k].fullHash.Some?
    ensures Specs(entries)[j] == FileSpec(entries[k].id, entries[k].chunkCount, entries[k].fullHash.value)
  {
    var m := |entries| - 1;
    if j < |Specs(entries[..m])| {
      k := SpecsAreEntries(entries[..m], j);
    } else {
      k := m;
    }
  }

  lemma {:induction false} EntriesHaveSpecs(entries: seq<ManifestEntry>, k: nat) returns (j: nat)
    requires k < |entries| && entries[k].kind.RegularFile? && entries[k].fullHash.Some?
    ensures j < |Specs(entries)|
    ensures Specs(entries)[j] == FileSpec(entries[k].id, entries[k].chunkCount, entries[k].fullHash.value)
  {
    var m := |entries| - 1;
    if k < m {
      j := EntriesHaveSpecs(entries[..m], k);
    } else {
      j := |Specs(entries)| - 1;
    }
  }

  function SpecFor(c: Config, e: FileId): FileSpec
    requires e in c.source
  {
    FileSpec(e, ChunkCountFor(|c.source[e]|), Blake3(c.source[e]))
  }

  lemma SpecFacts(c: Config, j: nat) returns (e: FileId)
    requires ValidConfig(c) && j < |Specs(c.entries)|
    ensures e in c.source && Specs(c.entries)[j] == SpecFor(c, e)
    ensures AllFit(c.entries) ==> Fits(|c.source[e]|)
  {
    var k := SpecsAreEntries(c.entries, j);
    assert SoundFile(c.entries[k]);
    e := c.entries[k].id;
  }

  lemma SpecOf(c: Config, e: FileId) returns (j: nat)
    requires ValidConfig(c) && e in c.source
    ensures j < |Specs(c.entries)| && Specs(c.entries)[j] == SpecFor(c, e)
    ensures AllFit(c.entries) ==> Fits(|c.source[e]|)
  {
    var k := EntryIndex(c, e);
    assert SoundFile(c.entries[k]);
    j := EntriesHaveSpecs(c.entries, k);
  }

  lemma SpecsAreKnown(c: Config, s: State)
    requires Inv(c, s)
    ensures SpecsKnown(c, s)
  {
    forall j | 0 <= j < |Specs(c.entries)|
      ensures Specs(c.entries)[j].id in s.store.rt.flags && Specs(c.entries)[j].id in s.store.volatile
    {
      var e := SpecFacts(c, j);
    }
  }

  /** Skipping the re-hash is sound: enough fresh chunks means that this very run checked the digest
      of every chunk of the file. */
  lemma FreshMeansCheckedNow(c: Config, s: State, e: FileId)
    requires Inv(c, s) && !s.store.stopped && e in c.source
    ensures FreshCount(s.store.rt, e) >= ChunkCountFor(|c.source[e]|) <==>
            AllSet(s.store.rt.flags[e]) && forall i :: 0 <= i < |s.store.resumed[e]| ==> !s.store.resumed[e][i]
  {
    assert Counted(s.store.rt, s.store.resumed, e);
    CountExtremes(s.store.rt.flags[e]);
    CountExtremes(s.store.resumed[e]);
  }

  /** A byte that the chunks of its file do not reach. */
  predicate OutsideChunks(c: Config, e: FileId, k: nat) {
    e in c.source && k < |c.source[e]| && ChunkOffset(ChunkCountFor(|c.source[e]|)) <= k
  }

  lemma InsideIsCounted(c: Config, e: FileId, k: nat)
    requires e in c.source && k < |c.source[e]|
    ensures InChunk(|c.source[e]|, k / CHUNK_SIZE, k)
    ensures OutsideChunks(c, e, k) <==> ChunkCountFor(|c.source[e]|) <= k / CHUNK_SIZE
    ensures OutsideChunks(c, e, k) ==> !Fits(|c.source[e]|)
  {
    var size, q := |c.source[e]|, k / CHUNK_SIZE;
    InChunkIsQuotient(size, q, k);
    if Fits(size) {
      CountWhenFits(size);
    }
  }

  /** A byte of a chunk that was flagged when the run began: zero in the stage, because the file
      has left it since, and not zero in the source. */
  predicate ZeroedAt(c: Config, store: Store, files: Files, e: FileId, k: nat) {
    && e in c.source && e in files && k < |c.source[e]| && k < |files[e]|
    && e in store.gone && IsFlagged(store.resumed, e, k / CHUNK_SIZE)
    && files[e][k] == 0 != c.source[e][k]
  }

  /** A byte that no chunk holds, of an oversized file: what the stage has there is not the source's. */
  predicate StaleAt(c: Config, files: Files, e: FileId, k: nat) {
    OutsideChunks(c, e, k) && e in files && k < |files[e]| && files[e][k] != c.source[e][k]
  }

  ghost predicate Zeroed(c: Config, store: Store, files: Files, e: FileId) {
    exists k :: ZeroedAt(c, store, files, e, k)
  }

  ghost predicate NoneZeroed(c: Config, store: Store, files: Files) {
    forall e :: !Zeroed(c, store, files, e)
  }

  ghost predicate Stale(c: Config, files: Files, e: FileId) {
    exists k :: StaleAt(c, files, e, k)
  }

  /** The file was not begun from scratch. */
  ghost predicate PartlyResumed(store: Store, e: FileId) {
    exists i :: IsFlagged(store.resumed, e, i)
  }

  /** A resumed file that has left the stage, or that is oversized, with a byte to show for it. */
  ghost predicate Spoiled(c: Config, store: Store, e: FileId) {
    Zeroed(c, store, store.volatile, e) || (PartlyResumed(store, e) && Stale(c, store.volatile, e))
  }

  lemma FittingIsNotStale(c: Config, files: Files, e: FileId)
    requires e in c.source && Fits(|c.source[e]|)
    ensures !Stale(c, files, e)
  {
    if k :| StaleAt(c, files, e, k) {
      InsideIsCounted(c, e, k);
    }
  }

  lemma SpoiledMeansGoneOrOversized(c: Config, store: Store, e: FileId)
    requires Spoiled(c, store, e)
    ensures e in store.gone || (e in c.source && !Fits(|c.source[e]|))
  {
    if e !in store.gone {
      var k :| StaleAt(c, store.volatile, e, k);
      assert e in c.source;
      if Fits(|c.source[e]|) {
        FittingIsNotStale(c, store.volatile, e);
      }
    }
  }

  /** Where every byte is right or zero, none is zeroed exactly when all are right. */
  lemma FlagsRightIffNoneZeroed(c: Config, store: Store, flags: Flags, files: Files)
    requires flags == store.resumed && FlagsLayout(c, flags) && FlagsRight(c, flags, files, {}, store.gone)
    ensures NoneZeroed(c, store, files) <==> FlagsRight(c, flags, files, {}, {})
  {
    if NoneZeroed(c, store, files) {
      forall e, i | e in c.source && IsFlagged(flags, e, i)
        ensures ChunkRight(c, files, {}, e, i)
      {
        assert ChunkRight(c, files, store.gone, e, i) && !Zeroed(c, store, files, e);
        ChunkInsideFile(|c.source[e]|, i);
        forall k: nat | InChunk(|c.source[e]|, i, k) ensures RightAt(c, files, {}, e, k) {
          InChunkIsQuotient(|c.source[e]|, i, k);
          assert RightAt(c, files, store.gone, e, k) && !ZeroedAt(c, store, files, e, k);
        }
      }
    }
    if FlagsRight(c, flags, files, {}, {}) {
      RightIsNotZeroed(c, store, files);
    }
  }

  lemma RightIsNotZeroed(c: Config, store: Store, files: Files)
    requires FlagsRight(c, store.resumed, files, {}, {})
    ensures NoneZeroed(c, store, files)
  {
    forall e, k: nat | e in c.source && k < |c.source[e]| && IsFlagged(store.resumed, e, k / CHUNK_SIZE)
      ensures !ZeroedAt(c, store, files, e, k)
    {
      assert ChunkRight(c, files, {}, e, k / CHUNK_SIZE);
      InChunkIsQuotient(|c.source[e]|, k / CHUNK_SIZE, k);
      assert RightAt(c, files, {}, e, k);
    }
  }

  /** In a file with all its bits set, these are the only bytes that are wrong. */
  lemma DifferingByte(c: Config, store: Store, files: Files, e: FileId, k: nat)
    requires FlagsLayout(c, store.rt.flags) && FilesLayout(c, files) && e in c.source && AllSet(store.rt.flags[e])
    requires FlagsRight(c, store.rt.flags, files, {}, store.gone)
    requires FlagsRight(c, Newly(store.rt.flags, store.resumed), files, {}, {})
    requires k < |c.source[e]|
    ensures files[e][k] != c.source[e][k] <==> ZeroedAt(c, store, files, e, k) || StaleAt(c, files, e, k)
  {
    var i := k / CHUNK_SIZE;
    InsideIsCounted(c, e, k);
    if !OutsideChunks(c, e, k) {
      assert IsFlagged(store.rt.flags, e, i);
      assert ChunkRight(c, files, store.gone, e, i);
      assert RightAt(c, files, store.gone, e, k);
      if !IsFlagged(store.resumed, e, i) {
        assert ChunkRight(c, files, {}, e, i);
        assert RightAt(c, files, {}, e, k);
      }
    }
  }

  lemma FileIsSourceExact(c: Config, store: Store, files: Files, e: FileId)
    requires FlagsLayout(c, store.rt.flags) && FilesLayout(c, files) && e in c.source && AllSet(store.rt.flags[e])
    requires FlagsRight(c, store.rt.flags, files, {}, store.gone)
    requires FlagsRight(c, Newly(store.rt.flags, store.resumed), files, {}, {})
    ensures files[e] == c.source[e] <==> !Zeroed(c, store, files, e) && !Stale(c, files, e)
  {
    forall k: nat | k < |c.source[e]|
      ensures files[e][k] != c.source[e][k] <==> ZeroedAt(c, store, files, e, k) || StaleAt(c, files, e, k)
    {
      DifferingByte(c, store, files, e, k);
    }
  }

  lemma RehashedIffPartlyResumed(c: Config, s: State, e: FileId)
    requires Inv(c, s) && !s.store.stopped && e in c.source && AllSet(s.store.rt.flags[e])
    ensures FreshCount(s.store.rt, e) < ChunkCountFor(|c.source[e]|) <==> PartlyResumed(s.store, e)
  {
    FreshMeansCheckedNow(c, s, e);
    if i: nat :| i < |s.store.resumed[e]| && s.store.resumed[e][i] {
      assert IsFlagged(s.store.resumed, e, i);
    }
  }

  lemma ZeroedIsPartlyResumed(c: Config, store: Store, files: Files, e: FileId)
    requires Zeroed(c, store, files, e)
    ensures PartlyResumed(store, e)
  {
    var k: nat :| ZeroedAt(c, store, files, e, k);
    assert IsFlagged(store.resumed, e, k / CHUNK_SIZE);
  }

  /** What verification says of one file, in a run that is still on. */
  lemma VerdictOnFile(c: Config, s: State, e: FileId)
    requires Inv(c, s) && !s.store.stopped && e in c.source
    ensures VerifyFile(s.store.rt, s.store.volatile, SpecFor(c, e))
            == if !AllSet(s.store.rt.flags[e]) then Some(MissingChunks(e))
               else if Spoiled(c, s.store, e) then Some(HashMismatch(e)) else None
  {
    if AllSet(s.store.rt.flags[e]) {
      RehashedIffPartlyResumed(c, s, e);
      FileIsSourceExact(c, s.store, s.store.volatile, e);
      if Zeroed(c, s.store, s.store.volatile, e) {
        ZeroedIsPartlyResumed(c, s.store, s.store.volatile, e);
      }
    }
  }

  ghost predicate AllFlagged(c: Config, flags: Flags)
    requires FlagsLayout(c, flags)
  {
    forall e :: e in c.source ==> AllSet(flags[e])
  }

  /** What verification says, exactly. It accepts when every chunk is flagged and no file is spoiled;
      when every chunk is flagged and some file is spoiled, it reports a mismatch in such a file. */
  lemma VerdictExact(c: Config, s: State)
    requires Inv(c, s) && !s.store.stopped
    ensures SpecsKnown(c, s)
    ensures var verdict := Verify(s.store.rt, s.store.volatile, Specs(c.entries));
            && (verdict.Accepted? <==> AllFlagged(c, s.store.rt.flags) && forall e :: e in c.source ==> !Spoiled(c, s.store, e))
            && (verdict.HashMismatch? ==> verdict.mismatched in c.source && Spoiled(c, s.store, verdict.mismatched))
            && (AllFlagged(c, s.store.rt.flags) ==> !verdict.MissingChunks?)
  {
    SpecsAreKnown(c, s);
    var specs := Specs(c.entries);
    var k := VerifyMeaning(s.store.rt, s.store.volatile, specs);
    if k < |specs| {
      var e := SpecFacts(c, k);
      VerdictOnFile(c, s, e);
    } else {
      forall e | e in c.source
        ensures AllSet(s.store.rt.flags[e]) && !Spoiled(c, s.store, e)
      {
        var j := SpecOf(c, e);
        VerdictOnFile(c, s, e);
      }
    }
  }

  /** Where every file fits, what verification accepts is the source. */
  lemma AcceptedIsSource(c: Config, s: State)
    requires Inv(c, s) && !s.store.stopped && AcceptedAt(c, s) && AllFit(c.entries)
    ensures s.store.volatile == c.source
  {
    VerdictExact(c, s);
    forall e | e in c.source
      ensures s.store.volatile[e] == c.source[e]
    {
      var j := SpecOf(c, e);
      FittingIsNotStale(c, s.store.volatile, e);
      FileIsSourceExact(c, s.store, s.store.volatile, e);
    }
  }

  /** When every worker is done and every chunk is flagged, the run ends with a reset exactly if some file
      is spoiled; and what it resets is spoiled: oversized, or gone by a commit or a removal that
      did not finish. */
  lemma ResetExact(c: Config, s: State)
    requires Inv(c, s) && !s.store.stopped && AllFlagged(c, s.store.rt.flags)
    requires forall w :: 0 <= w < |s.links| ==> s.links[w].rx.Done?
    ensures (exists e :: CanReset(c, s, e)) <==> exists e :: e in c.source && Spoiled(c, s.store, e)
    ensures forall e :: CanReset(c, s, e) ==>
              Spoiled(c, s.store, e) && (e in s.store.gone || (e in c.source && !Fits(|c.source[e]|)))
  {
    VerdictExact(c, s);
    var verdict := Verify(s.store.rt, s.store.volatile, Specs(c.entries));
    if verdict.HashMismatch? {
      SpoiledMeansGoneOrOversized(c, s.store, verdict.mismatched);
      assert CanReset(c, s, verdict.mismatched);
    }
  }

  lemma SpoiledWhenFitting(c: Config, store: Store, e: FileId)
    requires e in c.source ==> Fits(|c.source[e]|)
    ensures Spoiled(c, store, e) <==> Zeroed(c, store, store.volatile, e)
    ensures Spoiled(c, store, e) ==> e in c.source && e in store.gone
  {
    if e in c.source {
      FittingIsNotStale(c, store.volatile, e);
    } else {
      assert !Stale(c, store.volatile, e);
    }
  }

  lemma VerdictWhenFitting(c: Config, s: State)
    requires Inv(c, s) && !s.store.stopped && AllFit(c.entries)
    ensures FlagsLayout(c, s.store.rt.flags) && SpecsKnown(c, s)
    ensures var verdict := Verify(s.store.rt, s.store.volatile, Specs(c.entries));
            && (verdict.Accepted? <==> AllFlagged(c, s.store.rt.flags) && NoneZeroed(c, s.store, s.store.volatile))
            && (verdict.Accepted? ==> s.store.volatile == c.source)
            && (verdict.HashMismatch? ==> verdict.mismatched in s.store.gone && Zeroed(c, s.store, s.store.volatile, verdict.mismatched))
            && (AllFlagged(c, s.store.rt.flags) ==> !verdict.MissingChunks?)
  {
    VerdictExact(c, s);
    forall e
      ensures Spoiled(c, s.store, e) <==> Zeroed(c, s.store, s.store.volatile, e)
      ensures Spoiled(c, s.store, e) ==> e in c.source && e in s.store.gone
    {
      if e in c.source {
        var j := SpecOf(c, e);
      }
      SpoiledWhenFitting(c, s.store, e);
    }
    if AcceptedAt(c, s) {
      AcceptedIsSource(c, s);
    }
  }

  /** End-to-end integrity. In every reachable state of a run that is on, through any number of
      crashes, unfinished commits and removals, and resumed runs, verification accepts exactly when nothing is
      missing and no resumed file was zeroed, and what it accepts is the source, byte for byte. The
      final re-hash fails only in a zeroed file, which has left the stage before. */
  lemma TransferIntegrity(c: Config, s: State, steps: seq<Step>)
    requires Init(c, s) && Schedule(c, s, steps) && AllFit(c.entries) && !Outcome(c, s, steps).store.stopped
    ensures var end := Outcome(c, s, steps);
            && FlagsLayout(c, end.store.rt.flags) && SpecsKnown(c, end)
            && var verdict := Verify(end.store.rt, end.store.volatile, Specs(c.entries));
               && (verdict.Accepted? <==> AllFlagged(c, end.store.rt.flags) && NoneZeroed(c, end.store, end.store.volatile))
               && (verdict.Accepted? ==> end.store.volatile == c.source)
               && (verdict.HashMismatch? ==> verdict.mismatched in end.store.gone && Zeroed(c, end.store, end.store.volatile, verdict.mismatched))
               && (AllFlagged(c, end.store.rt.flags) ==> !verdict.MissingChunks?)
  {
    InitInv(c, s);
    ScheduleKeepsInv(c, s, steps);
    VerdictWhenFitting(c, Outcome(c, s, steps));
  }
}
