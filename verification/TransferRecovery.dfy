/** What an unfinished commit costs, exactly, and how the transfer recovers from it: the run that
    resumes it fails its re-hash if a file that was moved had anything but zeros in it, each such
    failure heals one file, and so the transfer is completed after at most as many failing runs as
    there are zeroed files (vendored-from-bore/transfer.rs:1683-1730, 1850-1866, 2024-2031, 2083-2181). */
module TransferRecovery {
  import opened Common
  import opened Chunking
  import opened ResumePlan
  import opened ResumeState
  import opened TransferMachine
  import opened TransferSafety
  import opened TransferVerdict
  import opened TransferProgress
  import opened TransferLimits

  ghost predicate HasNonZero(content: Bytes) {
    exists k :: 0 <= k < |content| && content[k] != 0
  }

  // ------------------------------------------------------------- the run after an unfinished commit

  lemma QueuedIsWork(queue: seq<ChunkTask>, links: seq<Link>, k: nat)
    requires k < |queue|
    ensures Work(queue, links, queue[k]) > 0
  {
    assert queue[k] in multiset(queue);
  }

  /** A run that finds every chunk flagged has nothing to send. */
  lemma AllFlaggedNeedsNoWorker(c: Config, flags: Flags, volatile: Files, durable: Files, persisted: set<Flags>,
                                gone: set<FileId>, parallel: nat)
    requires ValidConfig(c) && FlagsLayout(c, flags) && AllFlagged(c, flags)
    ensures var r := StartRun(c, flags, false, volatile, durable, persisted, gone, parallel);
            r.queue == [] && r.links == []
  {
    var r := StartRun(c, flags, false, volatile, durable, persisted, gone, parallel);
    StartWorkExact(c, flags, false, volatile, durable, persisted, gone, parallel);
    if |r.queue| > 0 {
      var t := r.queue[0];
      assert TaskOk(c, t) && IsFlagged(flags, t.entryId, t.chunkIndex);
      QueuedIsWork(r.queue, r.links, 0);
    }
  }

  /** The staged files as a run finds them that resumes after the commit has moved files away from a
      complete stage. */
  lemma RecreatedIsSource(c: Config, e: FileId, moved: set<FileId>)
    requires e in c.source
    ensures Recreated(c.source, moved)[e] == c.source[e] <==> e !in moved || !HasNonZero(c.source[e])
  {
    if e in moved && !HasNonZero(c.source[e]) {
      assert Zeros(|c.source[e]|) == c.source[e];
    }
  }

  lemma VerdictOnRecreated(c: Config, r: State, moved: set<FileId>)
    requires Inv(c, r) && !r.store.stopped && AllFit(c.entries) && AllFlagged(c, r.store.rt.flags)
    requires r.store.volatile == Recreated(c.source, moved)
    ensures NoneZeroed(c, r.store, r.store.volatile) <==>
            forall e :: e in c.source && e in moved ==> !HasNonZero(c.source[e])
  {
    forall e | e in c.source
      ensures Zeroed(c, r.store, r.store.volatile, e) <==> e in moved && HasNonZero(c.source[e])
    {
      var j := SpecOf(c, e);
      FittingIsNotStale(c, r.store.volatile, e);
      FileIsSourceExact(c, r.store, r.store.volatile, e);
      RecreatedIsSource(c, e, moved);
    }
  }

  /** Once a commit has stopped half-way, a run that finds its state file complete has nothing to
      receive, and verification fails exactly when a file was moved that is not all zeros. (After a
      power failure that is a file whose rename was on disk, if the whole stage was.) */
  lemma UnfinishedCommitFailsResume(c: Config, s: State, moved: set<FileId>, settled: set<FileId>, powerLoss: bool,
                                    p: Flags, parallel: nat)
    requires Inv(c, s) && AllFit(c.entries) && CanCommitStage(c, s, moved, settled)
    requires p in s.store.persisted && FlagsLayout(c, p) && AllFlagged(c, p)
    requires powerLoss ==> s.store.durable == c.source
    ensures var r := AfterRestart(c, StageWithout(s, moved, settled), powerLoss, Some(p), parallel);
            && r.queue == [] && r.links == [] && SpecsKnown(c, r)
            && var verdict := Verify(r.store.rt, r.store.volatile, Specs(c.entries));
               && !verdict.MissingChunks?
               && (verdict.HashMismatch? <==>
                     exists e :: e in c.source && e in (if powerLoss then settled else moved) && HasNonZero(c.source[e]))
  {
    var t := StageWithout(s, moved, settled);
    var r := AfterRestart(c, t, powerLoss, Some(p), parallel);
    AcceptedIsSource(c, s);
    CommitKeepsInv(c, s, moved, settled);
    RestartKeepsInv(c, t, powerLoss, Some(p), parallel);
    AllFlaggedNeedsNoWorker(c, p, r.store.volatile, t.store.durable, t.store.persisted, t.store.gone, parallel);
    VerdictOnRecreated(c, r, if powerLoss then settled else moved);
    VerdictWhenFitting(c, r);
  }

  /** A commit takes from a durable chunk exactly what its file takes along: nothing, unless the rename
      is on disk and the chunk is not all zeros. */
  lemma CommitDurability(c: Config, s: State, moved: set<FileId>, settled: set<FileId>, e: FileId, i: nat)
    requires Inv(c, s) && CanCommitStage(c, s, moved, settled)
    requires e in c.source && i < ChunkCountFor(|c.source[e]|) && ChunkRight(c, s.store.durable, {}, e, i)
    ensures ChunkRight(c, StageWithout(s, moved, settled).store.durable, {}, e, i) <==>
            e !in settled || forall k: nat :: InChunk(|c.source[e]|, i, k) && k < |c.source[e]| ==> c.source[e][k] == 0
  {
    var after := StageWithout(s, moved, settled).store.durable;
    ChunkInsideFile(|c.source[e]|, i);
    forall k: nat | InChunk(|c.source[e]|, i, k)
      ensures RightAt(c, after, {}, e, k) <==> e !in settled || c.source[e][k] == 0
    {
      assert RightAt(c, s.store.durable, {}, e, k);
    }
  }

  // -------------------------------------------------------------------------- whether it can happen

  /** Verification would report a mismatch now. */
  predicate MismatchAt(c: Config, s: State) {
    !s.store.stopped && SpecsKnown(c, s) && Verify(s.store.rt, s.store.volatile, Specs(c.entries)).HashMismatch?
  }

  /** The final re-hash fails in no schedule. */
  ghost predicate NeverMismatches(c: Config)
    requires ValidConfig(c)
  {
    forall s, steps :: Init(c, s) && Schedule(c, s, steps) ==> !MismatchAt(c, Outcome(c, s, steps))
  }

  ghost predicate MayMismatch(c: Config, s: State)
    requires ValidConfig(c)
  {
    exists steps :: Schedule(c, s, steps) && MismatchAt(c, Outcome(c, s, steps))
  }

  lemma MayMismatchLater(c: Config, s: State, step: Step)
    requires ValidConfig(c) && Enabled(c, s, step) && MayMismatch(c, Apply(c, s, step))
    ensures MayMismatch(c, s)
  {
    var rest :| Schedule(c, Apply(c, s, step), rest) && MismatchAt(c, Outcome(c, Apply(c, s, step), rest));
    ScheduleCons(c, s, step, rest);
  }

  lemma MismatchNow(c: Config, s: State)
    requires ValidConfig(c) && MismatchAt(c, s)
    ensures MayMismatch(c, s)
  {
    assert Schedule(c, s, []) && Outcome(c, s, []) == s;
  }

  lemma {:induction false} MayMismatchInTheEnd(c: Config, s: State, steps: seq<Step>)
    requires ValidConfig(c) && Schedule(c, s, steps) && MayMismatch(c, Outcome(c, s, steps))
    ensures MayMismatch(c, s)
    decreases |steps|
  {
    if |steps| > 0 {
      MayMismatchInTheEnd(c, Apply(c, s, steps[0]), steps[1..]);
      MayMismatchLater(c, s, steps[0]);
    }
  }

  lemma CommitAndRestart(c: Config, s: State, moved: set<FileId>, settled: set<FileId>, p: Flags)
    requires ValidConfig(c) && CanCommitStage(c, s, moved, settled) && p in s.store.persisted && FlagsLayout(c, p)
    requires MismatchAt(c, AfterRestart(c, StageWithout(s, moved, settled), false, Some(p), 1))
    ensures MayMismatch(c, s)
  {
    var t := StageWithout(s, moved, settled);
    MismatchNow(c, AfterRestart(c, t, false, Some(p), 1));
    RestartMayMismatch(c, t, p);
    assert Enabled(c, s, CommitStage(moved, settled)) && Apply(c, s, CommitStage(moved, settled)) == t;
    MayMismatchLater(c, s, CommitStage(moved, settled));
  }

  lemma RestartMayMismatch(c: Config, t: State, p: Flags)
    requires ValidConfig(c) && CanRestart(c, t, Some(p)) && MayMismatch(c, AfterRestart(c, t, false, Some(p), 1))
    ensures MayMismatch(c, t)
  {
    assert Enabled(c, t, Restart(false, Some(p), 1));
    assert Apply(c, t, Restart(false, Some(p), 1)) == AfterRestart(c, t, false, Some(p), 1);
    MayMismatchLater(c, t, Restart(false, Some(p), 1));
  }

  lemma FinishedCanCommit(c: Config, s: State)
    requires Healthy(c, s) && AllFit(c.entries) && s.store.gone == {} && AllFinished(s)
    ensures CanCommitStage(c, s, c.source.Keys, c.source.Keys)
  {
    FinishedMeansComplete(c, s);
    NothingGoneNothingZeroed(c, s.store, s.store.volatile);
    assert forall w :: 0 <= w < |s.links| ==> LinkFinished(s.links[w]);
  }

  /** A finished first run whose commit moves everything away, and the next run. */
  lemma CommitMayMismatch(c: Config, s: State, e: FileId)
    requires Healthy(c, s) && AllFit(c.entries) && s.store.gone == {} && AllFinished(s)
    requires e in c.source && HasNonZero(c.source[e])
    ensures MayMismatch(c, s)
  {
    var all, p := c.source.Keys, s.store.rt.flags;
    FinishedMeansComplete(c, s);
    FinishedCanCommit(c, s);
    UnfinishedCommitFailsResume(c, s, all, all, false, p, 1);
    CommitAndRestart(c, s, all, all, p);
  }

  lemma FirstRunMayMismatch(c: Config, s: State, e: FileId)
    requires Init(c, s) && AllFit(c.entries) && e in c.source && HasNonZero(c.source[e])
    ensures MayMismatch(c, s)
  {
    RunStartIsHealthy(c, s);
    var steps := RunToTheEnd(c, s);
    RunKeepsPlan(c, s, steps);
    CommitMayMismatch(c, Outcome(c, s, steps), e);
    MayMismatchInTheEnd(c, s, steps);
  }

  /** The final re-hash of a transfer can fail if and only if some file is not all zeros: a commit that
      does not get to remove the state file is enough. */
  lemma NeverMismatchesIffAllZero(c: Config)
    requires ValidConfig(c) && AllFit(c.entries)
    ensures NeverMismatches(c) <==> forall e :: e in c.source ==> !HasNonZero(c.source[e])
  {
    if e :| e in c.source && HasNonZero(c.source[e]) {
      var s := StageMakesInit(c, map f | f in c.source :: Zeros(|c.source[f]|));
      FirstRunMayMismatch(c, s, e);
      assert !NeverMismatches(c);
    } else {
      forall s, steps | Init(c, s) && Schedule(c, s, steps) ensures !MismatchAt(c, Outcome(c, s, steps)) {
        InitInv(c, s);
        ScheduleKeepsInv(c, s, steps);
        NoMismatchInZeros(c, Outcome(c, s, steps));
      }
    }
  }

  lemma ZerosAreNotZeroed(c: Config, store: Store, e: FileId)
    requires e in c.source ==> !HasNonZero(c.source[e])
    ensures !Zeroed(c, store, store.volatile, e)
  {
    forall k ensures !ZeroedAt(c, store, store.volatile, e, k) {
    }
  }

  lemma NoMismatchInZeros(c: Config, s: State)
    requires Inv(c, s) && AllFit(c.entries) && forall e :: e in c.source ==> !HasNonZero(c.source[e])
    ensures !MismatchAt(c, s)
  {
    forall e ensures !Zeroed(c, s.store, s.store.volatile, e) {
      ZerosAreNotZeroed(c, s.store, e);
    }
    if !s.store.stopped {
      VerdictWhenFitting(c, s);
    }
  }

  // ----------------------------------------------------------------------------------- recovery

  ghost function ZeroedFiles(c: Config, store: Store): set<FileId> {
    set e | e in c.source && Zeroed(c, store, store.volatile, e)
  }

  /** The run that follows a reset, with the state file the reset has written. */
  function AfterResetAndRestart(c: Config, s: State, e: FileId, parallel: nat): State
    requires ValidConfig(c) && e in s.store.rt.flags && FlagsLayout(c, s.store.rt.flags)
  {
    AfterRestart(c, AfterReset(s, e), false, Some(AfterReset(s, e).store.rt.flags), parallel)
  }

  lemma NewlyIsRight(c: Config, store: Store, e: FileId, k: nat)
    requires FlagsRight(c, Newly(store.rt.flags, store.resumed), store.volatile, {}, {})
    requires e in c.source && k < |c.source[e]|
    requires IsFlagged(store.rt.flags, e, k / CHUNK_SIZE) && !IsFlagged(store.resumed, e, k / CHUNK_SIZE)
    ensures RightAt(c, store.volatile, {}, e, k)
  {
    InsideIsCounted(c, e, k);
    assert ChunkRight(c, store.volatile, {}, e, k / CHUNK_SIZE);
  }

  lemma HealedAt(c: Config, a: Store, b: Store, e: FileId, f: FileId, k: nat)
    requires e in a.rt.flags && b.resumed == Reset(a.rt, e).flags && b.volatile == a.volatile && b.gone == a.gone
    requires FlagsRight(c, Newly(a.rt.flags, a.resumed), a.volatile, {}, {})
    requires forall f, i :: IsFlagged(a.resumed, f, i) ==> IsFlagged(a.rt.flags, f, i)
    ensures ZeroedAt(c, b, b.volatile, f, k) <==> f != e && ZeroedAt(c, a, a.volatile, f, k)
  {
    if f in c.source && k < |c.source[f]| {
      assert f != e ==> (IsFlagged(b.resumed, f, k / CHUNK_SIZE) <==> IsFlagged(a.rt.flags, f, k / CHUNK_SIZE));
      if IsFlagged(a.rt.flags, f, k / CHUNK_SIZE) && !IsFlagged(a.resumed, f, k / CHUNK_SIZE) {
        NewlyIsRight(c, a, f, k);
      }
    }
  }

  lemma HealedStore(c: Config, a: Store, b: Store, e: FileId, f: FileId)
    requires e in a.rt.flags && b.resumed == Reset(a.rt, e).flags && b.volatile == a.volatile && b.gone == a.gone
    requires RunOk(c, a)
    ensures Zeroed(c, b, b.volatile, f) <==> f != e && Zeroed(c, a, a.volatile, f)
  {
    forall k: nat
      ensures ZeroedAt(c, b, b.volatile, f, k) <==> f != e && ZeroedAt(c, a, a.volatile, f, k)
    {
      HealedAt(c, a, b, e, f, k);
    }
  }

  lemma RunningIsOk(c: Config, s: State)
    requires Inv(c, s) && !s.store.stopped
    ensures RunOk(c, s.store)
  {
  }

  /** A reset heals the file it is about, and no other file is zeroed by it. */
  lemma ResetHeals(c: Config, s: State, e: FileId, f: FileId, parallel: nat)
    requires Inv(c, s) && CanReset(c, s, e)
    ensures var r := AfterResetAndRestart(c, s, e, parallel);
            Zeroed(c, r.store, r.store.volatile, f) <==> f != e && Zeroed(c, s.store, s.store.volatile, f)
  {
    RunningIsOk(c, s);
    HealedStore(c, s.store, AfterResetAndRestart(c, s, e, parallel).store, e, f);
  }

  function Restarts(steps: seq<Step>): nat {
    if |steps| == 0 then 0 else (if steps[0].Restart? then 1 else 0) + Restarts(steps[1..])
  }

  /** The steps of a recovery: the workers' own, resets, and restarts without a power failure. */
  predicate Recovering(step: Step) {
    FaultFree(step) || step.ResetAfterMismatch? || (step.Restart? && !step.powerLoss)
  }

  predicate AllRecovering(steps: seq<Step>) {
    forall j :: 0 <= j < |steps| ==> Recovering(steps[j])
  }

  /** The steps lead from `s` to an accepted transfer, with so many new runs at most. */
  ghost predicate Completes(c: Config, s: State, steps: seq<Step>, restarts: nat)
    requires ValidConfig(c)
  {
    && Schedule(c, s, steps) && AllRecovering(steps) && Restarts(steps) <= restarts
    && !Outcome(c, s, steps).store.stopped
    && AcceptedAt(c, Outcome(c, s, steps)) && Outcome(c, s, steps).store.volatile == c.source
  }

  lemma OneStepMore(c: Config, s: State, step: Step, rest: seq<Step>, restarts: nat)
    requires ValidConfig(c) && Enabled(c, s, step) && Recovering(step) && Completes(c, Apply(c, s, step), rest, restarts)
    ensures Completes(c, s, [step] + rest, restarts + if step.Restart? then 1 else 0)
  {
    ScheduleCons(c, s, step, rest);
    assert ([step] + rest)[1..] == rest;
  }

  /** A reset, a restart, and the rest. */
  lemma ResetAndRestartMore(c: Config, s: State, e: FileId, rest: seq<Step>, restarts: nat) returns (steps: seq<Step>)
    requires ValidConfig(c) && CanReset(c, s, e) && FlagsLayout(c, s.store.rt.flags)
    requires Completes(c, AfterResetAndRestart(c, s, e, 1), rest, restarts)
    ensures Completes(c, s, steps, restarts + 1)
  {
    var t := AfterReset(s, e);
    var restart := Restart(false, Some(t.store.rt.flags), 1);
    RestartAfterReset(c, s, e);
    OneStepMore(c, t, restart, rest, restarts);
    OneStepMore(c, s, ResetAfterMismatch(e), [restart] + rest, restarts + 1);
    steps := [ResetAfterMismatch(e)] + ([restart] + rest);
  }

  lemma RestartAfterReset(c: Config, s: State, e: FileId)
    requires ValidConfig(c) && CanReset(c, s, e) && FlagsLayout(c, s.store.rt.flags)
    ensures var t := AfterReset(s, e);
            var restart := Restart(false, Some(t.store.rt.flags), 1);
            && Enabled(c, s, ResetAfterMismatch(e)) && Apply(c, s, ResetAfterMismatch(e)) == t
            && Enabled(c, t, restart) && Apply(c, t, restart) == AfterResetAndRestart(c, s, e, 1)
  {
  }

  // -------------------------------------------------------------------- one step, one run at a time

  lemma OneStepIsASchedule(c: Config, s: State, step: Step)
    requires ValidConfig(c) && Enabled(c, s, step)
    ensures Schedule(c, s, [step]) && Outcome(c, s, [step]) == Apply(c, s, step)
  {
    ScheduleCons(c, s, step, []);
    assert [step] + [] == [step];
  }

  lemma StepKeepsZeroed(c: Config, s: State, step: Step, f: FileId)
    requires Inv(c, s) && !s.store.stopped && Enabled(c, s, step) && FaultFree(step)
    ensures Zeroed(c, Apply(c, s, step).store, Apply(c, s, step).store.volatile, f) <==> Zeroed(c, s.store, s.store.volatile, f)
  {
    OneStepIsASchedule(c, s, step);
    ZeroedFromTheStart(c, s, [step], f);
  }

  lemma SameZeroedFiles(c: Config, a: Store, b: Store)
    requires forall f :: Zeroed(c, a, a.volatile, f) <==> Zeroed(c, b, b.volatile, f)
    ensures ZeroedFiles(c, a) == ZeroedFiles(c, b)
  {
  }

  lemma StepKeepsZeroedFiles(c: Config, s: State, step: Step)
    requires Inv(c, s) && !s.store.stopped && Enabled(c, s, step) && FaultFree(step)
    ensures ZeroedFiles(c, Apply(c, s, step).store) == ZeroedFiles(c, s.store)
  {
    var b := Apply(c, s, step).store;
    forall f ensures Zeroed(c, b, b.volatile, f) <==> Zeroed(c, s.store, s.store.volatile, f) {
      StepKeepsZeroed(c, s, step, f);
    }
    SameZeroedFiles(c, b, s.store);
  }

  /** How a finished run ends: it is accepted, or it resets a zeroed file. */
  lemma RunEnds(c: Config, end: State) returns (e: Option<FileId>)
    requires Healthy(c, end) && AllFit(c.entries) && AllFinished(end)
    ensures e.None? ==> AcceptedAt(c, end) && end.store.volatile == c.source
    ensures e.Some? ==> CanReset(c, end, e.value) && e.value in ZeroedFiles(c, end.store)
  {
    FinishedMeansComplete(c, end);
    if AcceptedAt(c, end) {
      e := None;
    } else {
      VerdictWhenFitting(c, end);
      e := Some(Verify(end.store.rt, end.store.volatile, Specs(c.entries)).mismatched);
      assert forall w :: 0 <= w < |end.links| ==> LinkFinished(end.links[w]);
    }
  }

  lemma HealedRun(c: Config, s: State, e: FileId)
    requires Healthy(c, s) && CanReset(c, s, e)
    ensures Healthy(c, AfterResetAndRestart(c, s, e, 1))
  {
    var t := AfterReset(s, e);
    ResetKeepsInv(c, s, e);
    RestartKeepsInv(c, t, false, Some(t.store.rt.flags), 1);
    RestartIsHealthy(c, t, false, Some(t.store.rt.flags), 1);
  }

  lemma OneZeroedLess(c: Config, a: Store, b: Store, e: FileId)
    requires forall f :: Zeroed(c, b, b.volatile, f) <==> f != e && Zeroed(c, a, a.volatile, f)
    requires e in ZeroedFiles(c, a)
    ensures |ZeroedFiles(c, b)| < |ZeroedFiles(c, a)|
  {
    assert ZeroedFiles(c, b) == ZeroedFiles(c, a) - {e};
  }

  lemma HealedFiles(c: Config, s: State, e: FileId)
    requires Inv(c, s) && CanReset(c, s, e) && e in ZeroedFiles(c, s.store)
    ensures |ZeroedFiles(c, AfterResetAndRestart(c, s, e, 1).store)| < |ZeroedFiles(c, s.store)|
  {
    var b := AfterResetAndRestart(c, s, e, 1).store;
    forall f ensures Zeroed(c, b, b.volatile, f) <==> f != e && Zeroed(c, s.store, s.store.volatile, f) {
      ResetHeals(c, s, e, f, 1);
    }
    OneZeroedLess(c, s.store, b, e);
  }

  /** However a transfer was interrupted, commits and removals included: finitely many runs complete it, at most one
      more than files are zeroed. */
  lemma {:induction false} RunsRecover(c: Config, s: State, zeroed: nat) returns (steps: seq<Step>)
    requires Healthy(c, s) && AllFit(c.entries) && |ZeroedFiles(c, s.store)| <= zeroed
    ensures Completes(c, s, steps, zeroed)
    decreases zeroed, Measure(s), 1
  {
    if !AllFinished(s) {
      var step := NoDeadlock(c, s);
      StepProgress(c, s, step);
      StepKeepsZeroedFiles(c, s, step);
      var rest := RunsRecover(c, Apply(c, s, step), zeroed);
      OneStepMore(c, s, step, rest, zeroed);
      steps := [step] + rest;
    } else {
      steps := RunsRecoverFromEnd(c, s, zeroed);
    }
  }

  lemma {:induction false} RunsRecoverFromEnd(c: Config, s: State, zeroed: nat) returns (steps: seq<Step>)
    requires Healthy(c, s) && AllFit(c.entries) && |ZeroedFiles(c, s.store)| <= zeroed && AllFinished(s)
    ensures Completes(c, s, steps, zeroed)
    decreases zeroed, Measure(s), 0
  {
    var e := RunEnds(c, s);
    if e.None? {
      steps := [];
    } else {
      HealedRun(c, s, e.value);
      HealedFiles(c, s, e.value);
      var rest := RunsRecover(c, AfterResetAndRestart(c, s, e.value, 1), zeroed - 1);
      steps := ResetAndRestartMore(c, s, e.value, rest, zeroed - 1);
    }
  }

  /** From the start of any run, after any history. */
  lemma TransferRecovers(c: Config, s: State) returns (steps: seq<Step>)
    requires ValidConfig(c) && RunStart(c, s) && AllFit(c.entries)
    ensures Completes(c, s, steps, |ZeroedFiles(c, s.store)|) && ZeroedFiles(c, s.store) <= s.store.gone
  {
    RunStartIsHealthy(c, s);
    steps := RunsRecover(c, s, |ZeroedFiles(c, s.store)|);
  }
}
