/** Exactly which transfers are safe: chunk counts are kept in 32 bits, and a manifest with a file
    of more than 2^32 - 1 chunks can be accepted with bytes that were never sent
    (vendored-from-bore/transfer.rs:3435-3441, 2018-2022). */
module TransferLimits {
  import opened Common
  import opened Chunking
  import opened ManifestTypes
  import opened ResumePlan
  import opened ResumeState
  import opened TransferMachine
  import opened TransferSafety
  import opened TransferVerdict
  import opened TransferProgress

  ghost predicate IntactFrom(c: Config, s: State)
    requires ValidConfig(c)
  {
    forall steps :: Schedule(c, s, steps) && !Outcome(c, s, steps).store.stopped && AcceptedAt(c, Outcome(c, s, steps)) ==>
      Outcome(c, s, steps).store.volatile == c.source
  }

  /** Whatever the schedule and whatever the stage held before, what verification accepts is the
      source. */
  ghost predicate AlwaysIntact(c: Config)
    requires ValidConfig(c)
  {
    forall s :: Init(c, s) ==> IntactFrom(c, s)
  }

  /** The first run on a stage of its own: every staged file is zero-filled. */
  ghost predicate NewStage(c: Config, s: State) {
    Init(c, s) && (forall e, k :: ByteAt(s.store.volatile, e, k) == 0 && ByteAt(s.store.durable, e, k) == 0)
  }

  /** The same on a stage that was empty before. */
  ghost predicate IntactFromNewStage(c: Config)
    requires ValidConfig(c)
  {
    forall s :: NewStage(c, s) ==> IntactFrom(c, s)
  }

  /** As long as every good state that is not an end has a step to a smaller good state, some schedule
      leads to an end. */
  lemma {:induction false} RunUntil(c: Config, s: State, good: State -> bool, end: State -> bool, measure: State -> nat)
      returns (steps: seq<Step>)
    requires ValidConfig(c) && good(s)
    requires forall t :: good(t) && !end(t) ==>
               exists step :: Enabled(c, t, step) && FaultFree(step) && good(Apply(c, t, step)) && measure(Apply(c, t, step)) < measure(t)
    ensures Schedule(c, s, steps) && AllFaultFree(steps)
    ensures good(Outcome(c, s, steps)) && end(Outcome(c, s, steps))
    decreases measure(s)
  {
    if end(s) {
      steps := [];
    } else {
      var step :| Enabled(c, s, step) && FaultFree(step) && good(Apply(c, s, step)) && measure(Apply(c, s, step)) < measure(s);
      var rest := RunUntil(c, Apply(c, s, step), good, end, measure);
      steps := [step] + rest;
      assert steps[1..] == rest;
    }
  }

  /** From any healthy state some fault-free schedule finishes the run. */
  lemma RunToTheEnd(c: Config, s: State) returns (steps: seq<Step>)
    requires Healthy(c, s)
    ensures Schedule(c, s, steps) && AllFaultFree(steps)
    ensures Healthy(c, Outcome(c, s, steps)) && AllFinished(Outcome(c, s, steps))
  {
    forall t: State | Healthy(c, t) && !AllFinished(t)
      ensures exists step :: Enabled(c, t, step) && FaultFree(step) && Healthy(c, Apply(c, t, step)) && Measure(Apply(c, t, step)) < Measure(t)
    {
      var step := NoDeadlock(c, t);
      StepProgress(c, t, step);
    }
    steps := RunUntil(c, s, (t: State) => Healthy(c, t), (t: State) => AllFinished(t), (t: State) => Measure(t));
  }

  lemma FreshFilePasses(c: Config, s: State, e: FileId)
    requires Inv(c, s) && !s.store.stopped && s.store.resumed == FreshFlags(c)
    requires e in c.source && AllSet(s.store.rt.flags[e])
    ensures VerifyFile(s.store.rt, s.store.volatile, SpecFor(c, e)) == None
  {
    FreshMeansCheckedNow(c, s, e);
  }

  /** A run from scratch in which every chunk is flagged is accepted without re-hashing anything. */
  lemma FreshRunIsAccepted(c: Config, s: State)
    requires Inv(c, s) && !s.store.stopped && AllFlagged(c, s.store.rt.flags) && s.store.resumed == FreshFlags(c)
    ensures AcceptedAt(c, s)
  {
    SpecsAreKnown(c, s);
    var k := VerifyMeaning(s.store.rt, s.store.volatile, Specs(c.entries));
    if k < |Specs(c.entries)| {
      var e := SpecFacts(c, k);
      FreshFilePasses(c, s, e);
    }
  }

  lemma FreshRunEnds(c: Config, s: State) returns (steps: seq<Step>)
    requires Init(c, s)
    ensures Schedule(c, s, steps) && AllFaultFree(steps)
    ensures !Outcome(c, s, steps).store.stopped && AcceptedAt(c, Outcome(c, s, steps))
  {
    RunStartIsHealthy(c, s);
    steps := RunToTheEnd(c, s);
    FinishedMeansComplete(c, Outcome(c, s, steps));
    RunKeepsPlan(c, s, steps);
    FreshRunIsAccepted(c, Outcome(c, s, steps));
  }

  lemma StageMakesInit(c: Config, stage: Files) returns (s: State)
    requires ValidConfig(c) && FilesLayout(c, stage)
    ensures Init(c, s) && s.store.volatile == stage && s.store.durable == stage
  {
    assert FlagsLayout(c, FreshFlags(c));
    s := StartRun(c, FreshFlags(c), true, stage, stage, {FreshFlags(c)}, {}, 1);
  }

  /** Where the stage differs from the source in a byte that no chunk holds, a fault-free run ends
      accepted and wrong. */
  lemma WrongTailSlipsThrough(c: Config, s: State, e: FileId, k: nat) returns (steps: seq<Step>)
    requires Init(c, s) && OutsideChunks(c, e, k) && ByteAt(s.store.volatile, e, k) != c.source[e][k]
    ensures Schedule(c, s, steps) && AllFaultFree(steps)
    ensures !Outcome(c, s, steps).store.stopped && AcceptedAt(c, Outcome(c, s, steps))
    ensures Outcome(c, s, steps).store.volatile != c.source
  {
    InitInv(c, s);
    steps := FreshRunEnds(c, s);
    RunLeavesByte(c, s, steps, e, k);
    assert ByteAt(Outcome(c, s, steps).store.volatile, e, k) != ByteAt(c.source, e, k);
  }

  lemma LastByteIsOutside(c: Config, e: FileId) returns (k: nat)
    requires e in c.source && !Fits(|c.source[e]|)
    ensures OutsideChunks(c, e, k)
  {
    k := |c.source[e]| - 1;
    LastChunkMissed(|c.source[e]|);
  }

  /** A transfer with an oversized file has a fault-free run whose result is accepted and wrong, on a
      stage that holds something already. */
  lemma OversizedFileSlipsThrough(c: Config, e: FileId) returns (s: State, steps: seq<Step>)
    requires ValidConfig(c) && e in c.source && !Fits(|c.source[e]|)
    ensures Init(c, s) && Schedule(c, s, steps) && AllFaultFree(steps)
    ensures !Outcome(c, s, steps).store.stopped && AcceptedAt(c, Outcome(c, s, steps))
    ensures Outcome(c, s, steps).store.volatile != c.source
  {
    var k := LastByteIsOutside(c, e);
    var wrong: byte := if c.source[e][k] == 0 then 1 else 0;
    s := StageMakesInit(c, map f | f in c.source :: seq(|c.source[f]|, _ => wrong));
    steps := WrongTailSlipsThrough(c, s, e, k);
  }

  /** Acceptance is trustworthy for a transfer, whatever the stage held before, if and only if every
      file's chunk count fits 32 bits. */
  lemma IntactIffAllFit(c: Config)
    requires ValidConfig(c)
    ensures AlwaysIntact(c) <==> AllFit(c.entries)
  {
    if AllFit(c.entries) {
      forall s, steps | Init(c, s) && Schedule(c, s, steps) && !Outcome(c, s, steps).store.stopped
        ensures AcceptedAt(c, Outcome(c, s, steps)) ==> Outcome(c, s, steps).store.volatile == c.source
      {
        TransferIntegrity(c, s, steps);
      }
    } else {
      var j :| 0 <= j < |c.entries| && c.entries[j].kind.RegularFile? && !Fits(SizeOf(c.entries[j]));
      var s, steps := OversizedFileSlipsThrough(c, c.entries[j].id);
      assert !IntactFrom(c, s);
    }
  }

  // -------------------------------------------------------------------------------- a new stage

  /** Past their chunks, the files of the transfer hold zeros. */
  ghost predicate TailsAreZero(c: Config, files: Files) {
    forall e, k :: OutsideChunks(c, e, k) ==> ByteAt(files, e, k) == 0
  }

  ghost predicate ZeroTails(c: Config, s: State) {
    Inv(c, s) && TailsAreZero(c, s.store.volatile) && TailsAreZero(c, s.store.durable)
  }

  lemma WritebackAt(s: State, f: FileId, lo: nat, hi: nat, e: FileId, k: nat)
    requires CanWriteback(s, f, lo, hi)
    ensures var b := ByteAt(AfterWriteback(s, f, lo, hi).store.durable, e, k);
            b == ByteAt(s.store.durable, e, k) || b == ByteAt(s.store.volatile, e, k)
  {
  }

  lemma RecreatedAt(files: Files, moved: set<FileId>, e: FileId, k: nat)
    ensures ByteAt(Recreated(files, moved), e, k) == 0 || ByteAt(Recreated(files, moved), e, k) == ByteAt(files, e, k)
  {
  }

  predicate ZeroInBoth(store: Store, e: FileId, k: nat) {
    ByteAt(store.volatile, e, k) == 0 && ByteAt(store.durable, e, k) == 0
  }

  /** Only a write can put something where both files hold a zero. */
  lemma StepKeepsZero(c: Config, s: State, step: Step, e: FileId, k: nat)
    requires ValidConfig(c) && Enabled(c, s, step) && !step.WriteSome? && ZeroInBoth(s.store, e, k)
    ensures ZeroInBoth(Apply(c, s, step).store, e, k)
  {
    match step
    case Writeback(f, lo, hi) => WritebackAt(s, f, lo, hi, e, k);
    case CommitStage(moved, settled) =>
      RecreatedAt(s.store.volatile, moved, e, k);
      RecreatedAt(s.store.durable, settled, e, k);
    case DeclineStage(removed, settled) =>
      RecreatedAt(s.store.volatile, removed, e, k);
      RecreatedAt(s.store.durable, settled, e, k);
    case _ =>
  }

  /** And no write goes past the chunks of a file. */
  lemma StepKeepsZeroTails(c: Config, s: State, step: Step)
    requires ZeroTails(c, s) && Enabled(c, s, step)
    ensures ZeroTails(c, Apply(c, s, step))
  {
    StepKeepsInv(c, s, step);
    forall e, k | OutsideChunks(c, e, k)
      ensures ZeroInBoth(Apply(c, s, step).store, e, k)
    {
      assert ByteAt(s.store.volatile, e, k) == 0 && ByteAt(s.store.durable, e, k) == 0;
      if step.WriteSome? {
        UntouchedByWrite(c, s, step.w, step.n, e, k);
      } else {
        StepKeepsZero(c, s, step, e, k);
      }
    }
  }

  lemma AcceptedWithZeroTails(c: Config, s: State)
    requires ZeroTails(c, s) && !s.store.stopped && AcceptedAt(c, s) && TailsAreZero(c, c.source)
    ensures s.store.volatile == c.source
  {
    VerdictExact(c, s);
    forall e | e in c.source
      ensures s.store.volatile[e] == c.source[e]
    {
      forall k ensures !StaleAt(c, s.store.volatile, e, k) {
        if OutsideChunks(c, e, k) {
          assert ByteAt(s.store.volatile, e, k) == 0 == ByteAt(c.source, e, k);
        }
      }
      FileIsSourceExact(c, s.store, s.store.volatile, e);
    }
  }

  /** On a new stage, acceptance is trustworthy if and only if the bytes past the chunks, which exist in
      oversized files only, are all zero in the source. */
  lemma IntactFromNewStageIff(c: Config)
    requires ValidConfig(c)
    ensures IntactFromNewStage(c) <==> TailsAreZero(c, c.source)
  {
    if TailsAreZero(c, c.source) {
      forall s, steps | NewStage(c, s) && Schedule(c, s, steps) && !Outcome(c, s, steps).store.stopped
        ensures AcceptedAt(c, Outcome(c, s, steps)) ==> Outcome(c, s, steps).store.volatile == c.source
      {
        NewStageEnds(c, s, steps);
      }
    } else {
      var e, k :| OutsideChunks(c, e, k) && ByteAt(c.source, e, k) != 0;
      var s := StageMakesInit(c, map f | f in c.source :: Zeros(|c.source[f]|));
      var steps := WrongTailSlipsThrough(c, s, e, k);
      assert NewStage(c, s) && !IntactFrom(c, s);
    }
  }

  lemma NewStageEnds(c: Config, s: State, steps: seq<Step>)
    requires NewStage(c, s) && Schedule(c, s, steps) && !Outcome(c, s, steps).store.stopped && TailsAreZero(c, c.source)
    ensures AcceptedAt(c, Outcome(c, s, steps)) ==> Outcome(c, s, steps).store.volatile == c.source
  {
    InitInv(c, s);
    forall t, step | ZeroTails(c, t) && Enabled(c, t, step)
      ensures ZeroTails(c, Apply(c, t, step))
    {
      StepKeepsZeroTails(c, t, step);
    }
    ScheduleKeeps(c, s, steps, _ => true, t => ZeroTails(c, t));
    if AcceptedAt(c, Outcome(c, s, steps)) {
      AcceptedWithZeroTails(c, Outcome(c, s, steps));
    }
  }
}
