/** A run that nothing interrupts completes, whatever the schedule: a measure bounds its steps, some
    step is always possible until every worker is finished, and then every chunk is flagged and
    recorded, and verification accepts unless a resumed file was zeroed when the run began
    (vendored-from-bore/transfer.rs:903-1001, 1361-1385, 1450-1555). */
module TransferProgress {
  import opened Common
  import opened Chunking
  import opened ResumePlan
  import opened ResumeState
  import opened TransferMachine
  import opened TransferSafety
  import opened TransferVerdict

  predicate FaultFree(step: Step) {
    !step.FailSender? && !step.FailReceiver? && !step.ResetAfterMismatch? && !step.CommitStage?
    && !step.DeclineStage? && !step.Restart?
  }

  predicate AllFaultFree(steps: seq<Step>) {
    forall j :: 0 <= j < |steps| ==> FaultFree(steps[j])
  }

  // ------------------------------------------------------- the protocol on one healthy stream

  /** Still taking chunks. */
  predicate Active(rx: ReceiverPc) {
    rx.AwaitHello? || rx.Receiving? || rx.Writing?
    || rx == WantFlush(ThenReceive) || rx == Flushing(ThenReceive)
  }

  /** A hello first if one is due, a done last if one was sent, chunks in between. */
  predicate WireShape(wire: seq<Message>, hello: bool, done: bool) {
    && |wire| >= (if hello then 1 else 0) + (if done then 1 else 0)
    && (hello ==> wire[0].WorkerHello?)
    && (done ==> wire[|wire| - 1].WorkerDone?)
    && forall k :: (if hello then 1 else 0) <= k < |wire| - (if done then 1 else 0) ==> wire[k].ChunkStart?
  }

  predicate Closing(l: Link) {
    && l.wire == []
    && if l.completed then l.rx == WantFlush(ThenDone) || l.rx == Flushing(ThenDone) || l.rx == Done
       else l.rx == WantFlush(ThenComplete) || l.rx == Flushing(ThenComplete)
  }

  predicate HealthyLink(l: Link) {
    match l.tx
    case Connecting => l.wire == [] && l.rx == AwaitHello && !l.completed
    case Popping => !l.completed && Active(l.rx) && WireShape(l.wire, l.rx.AwaitHello?, false)
    case Holding(_) => !l.completed && Active(l.rx) && WireShape(l.wire, l.rx.AwaitHello?, false)
    case AwaitComplete =>
      (!l.completed && Active(l.rx) && WireShape(l.wire, l.rx.AwaitHello?, true)) || Closing(l)
    case Finished => l.completed && Closing(l)
    case SenderFailed => false
  }

  predicate HealthyLinks(links: seq<Link>) {
    forall w :: 0 <= w < |links| ==> HealthyLink(links[w])
  }

  /** Whoever is flushing owns the job. */
  predicate FlushersHold(job: Option<Job>, links: seq<Link>) {
    forall w :: 0 <= w < |links| && links[w].rx.Flushing? ==> job.Some? && job.value.holder == w
  }

  /** A sender worker stops popping only when the queue is empty. */
  predicate QueueDrained(queue: seq<ChunkTask>, links: seq<Link>) {
    && (|links| == 0 ==> queue == [])
    && forall w :: 0 <= w < |links| && (links[w].tx.AwaitComplete? || links[w].tx.Finished?) ==> queue == []
  }

  /** The bitmaps are on disk, or will be: they are dirty, or part of the flush under way. */
  ghost predicate Recorded(store: Store) {
    || store.rt.flags in store.persisted
    || !NothingToFlush(store.rt)
    || (store.job.Some? && store.job.value.snapshot == store.rt.flags)
  }

  ghost predicate Live(c: Config, s: State) {
    && !s.store.stopped
    && HealthyLinks(s.links)
    && FlushersHold(s.store.job, s.links)
    && QueueDrained(s.queue, s.links)
    && Recorded(s.store)
    && WorkExact(c, s)
  }

  ghost predicate Healthy(c: Config, s: State) {
    Inv(c, s) && Live(c, s)
  }

  // ----------------------------------------------------------------------------- the measure

  function TaskCost(t: ChunkTask): nat {
    t.len + 20
  }

  function QueueCost(queue: seq<ChunkTask>): nat {
    if |queue| == 0 then 0 else TaskCost(queue[0]) + QueueCost(queue[1..])
  }

  function MessageCost(m: Message): nat {
    if m.ChunkStart? then m.task.len + 18 else 1
  }

  function WireCost(wire: seq<Message>): nat {
    if |wire| == 0 then 0 else MessageCost(wire[0]) + WireCost(wire[1..])
  }

  function SenderCost(tx: SenderPc): nat {
    match tx
    case Connecting => 6
    case Popping => 4
    case Holding(t) => t.len + 23
    case AwaitComplete => 2
    case Finished => 0
    case SenderFailed => 0
  }

  function ReceiverCost(rx: ReceiverPc): nat {
    match rx
    case AwaitHello => 31
    case Receiving => 30
    case Writing(_, payload, written) => 46 + if written <= |payload| then |payload| - written else 0
    case WantFlush(ThenReceive) => 34
    case Flushing(ThenReceive) => 32
    case WantFlush(ThenComplete) => 24
    case Flushing(ThenComplete) => 22
    case WantFlush(ThenDone) => 14
    case Flushing(ThenDone) => 12
    case WantFlush(ThenFailed) => 4
    case Flushing(ThenFailed) => 2
    case Done => 0
    case ReceiverFailed => 0
  }

  function LinkCost(l: Link): nat {
    SenderCost(l.tx) + WireCost(l.wire) + ReceiverCost(l.rx)
  }

  function LinksCost(links: seq<Link>): nat {
    if |links| == 0 then 0 else LinksCost(links[..|links| - 1]) + LinkCost(links[|links| - 1])
  }

  /** What is still to be done: queued tasks, unfinished workers, unsynced files. */
  function Measure(s: State): nat {
    QueueCost(s.queue) + LinksCost(s.links) + 2 * |s.store.rt.dirty| + |JobLeft(s.store.job)|
  }

  lemma {:induction false} LinksCostUpdate(links: seq<Link>, w: nat, l: Link)
    requires w < |links|
    ensures LinksCost(links[w := l]) + LinkCost(links[w]) == LinksCost(links) + LinkCost(l)
  {
    var m := |links| - 1;
    if w == m {
      assert links[w := l][..m] == links[..m];
    } else {
      assert links[w := l][..m] == links[..m][w := l];
      LinksCostUpdate(links[..m], w, l);
    }
  }

  lemma {:induction false} WireCostAppend(wire: seq<Message>, m: Message)
    ensures WireCost(wire + [m]) == WireCost(wire) + MessageCost(m)
  {
    if |wire| == 0 {
      assert (wire + [m])[1..] == [];
    } else {
      assert (wire + [m])[1..] == wire[1..] + [m];
      WireCostAppend(wire[1..], m);
    }
  }

  // -------------------------------------------------------------------- healthy runs stay healthy

  lemma SameWorkStaysExact(c: Config, s: State, s': State, w: nat, l: Link)
    requires WorkExact(c, s) && w < |s.links| && s'.links == s.links[w := l] && s'.queue == s.queue
    requires s'.store.rt.flags == s.store.rt.flags
    requires forall t :: LinkWork(l, t) == LinkWork(s.links[w], t)
    ensures WorkExact(c, s')
  {
    forall t ensures Work(s'.queue, s'.links, t) == Work(s.queue, s.links, t) {
      LinksWorkUpdate(s.links, w, l, t);
    }
  }

  lemma LinksAfter(s: State, w: nat, l: Link)
    requires HealthyLinks(s.links) && FlushersHold(s.store.job, s.links) && QueueDrained(s.queue, s.links)
    requires w < |s.links| && HealthyLink(l)
    requires l.rx.Flushing? ==> s.links[w].rx.Flushing?
    requires (l.tx.AwaitComplete? || l.tx.Finished?) ==> s.queue == []
    ensures HealthyLinks(s.links[w := l])
    ensures FlushersHold(s.store.job, s.links[w := l])
    ensures QueueDrained(s.queue, s.links[w := l])
  {
  }

  /** A step that changes one stream only, and loses no chunk. */
  lemma LiveLinkStep(c: Config, s: State, w: nat, l: Link)
    requires Live(c, s) && w < |s.links|
    requires HealthyLink(l)
    requires l.rx.Flushing? ==> s.links[w].rx.Flushing?
    requires (l.tx.AwaitComplete? || l.tx.Finished?) ==> s.queue == []
    requires forall t :: LinkWork(l, t) == LinkWork(s.links[w], t)
    requires LinkCost(l) < LinkCost(s.links[w])
    ensures Live(c, s.(links := s.links[w := l]))
    ensures Measure(s.(links := s.links[w := l])) < Measure(s)
  {
    SameWorkStaysExact(c, s, s.(links := s.links[w := l]), w, l);
    LinksAfter(s, w, l);
    LinksCostUpdate(s.links, w, l);
  }

  lemma SendHelloProgress(c: Config, s: State, w: nat)
    requires Live(c, s) && CanSendHello(s, w) && LinkOk(c, s.store.volatile, s.links[w])
    ensures Live(c, AfterSendHello(s, w)) && Measure(AfterSendHello(s, w)) < Measure(s)
  {
    var l := s.links[w];
    assert HealthyLink(l);
    AppendKeepsLink(c, s.store.volatile, l, WorkerHello);
    WireCostAppend(l.wire, WorkerHello);
    LiveLinkStep(c, s, w, AfterSendHello(s, w).links[w]);
  }

  lemma SendChunkProgress(c: Config, s: State, w: nat)
    requires Live(c, s) && CanSendChunk(c, s, w) && LinkOk(c, s.store.volatile, s.links[w])
    ensures Live(c, AfterSendChunk(c, s, w)) && Measure(AfterSendChunk(c, s, w)) < Measure(s)
  {
    var l := s.links[w];
    var m := ChunkMessage(c, l.tx.task);
    assert HealthyLink(l);
    AppendKeepsLink(c, s.store.volatile, l, m);
    WireCostAppend(l.wire, m);
    var l' := AfterSendChunk(c, s, w).links[w];
    assert WireShape(l'.wire, l'.rx.AwaitHello?, false);
    LiveLinkStep(c, s, w, l');
  }

  lemma ReadCompleteProgress(c: Config, s: State, w: nat)
    requires Live(c, s) && CanReadComplete(s, w)
    ensures Live(c, AfterReadComplete(s, w)) && Measure(AfterReadComplete(s, w)) < Measure(s)
  {
    assert HealthyLink(s.links[w]);
    LiveLinkStep(c, s, w, AfterReadComplete(s, w).links[w]);
  }

  lemma PopDoneProgress(c: Config, s: State, w: nat)
    requires Live(c, s) && CanPop(s, w) && |s.queue| == 0 && LinkOk(c, s.store.volatile, s.links[w])
    ensures Live(c, AfterPop(s, w)) && Measure(AfterPop(s, w)) < Measure(s)
  {
    var l := s.links[w];
    assert HealthyLink(l);
    AppendKeepsLink(c, s.store.volatile, l, WorkerDone);
    WireCostAppend(l.wire, WorkerDone);
    var l' := AfterPop(s, w).links[w];
    assert WireShape(l'.wire, l'.rx.AwaitHello?, true);
    LiveLinkStep(c, s, w, l');
  }

  lemma PopTaskProgress(c: Config, s: State, w: nat)
    requires Live(c, s) && CanPop(s, w) && |s.queue| > 0
    ensures Live(c, AfterPop(s, w)) && Measure(AfterPop(s, w)) < Measure(s)
  {
    var s' := AfterPop(s, w);
    PopKeepsWork(s, w);
    assert HealthyLink(s.links[w]) && HealthyLink(s'.links[w]);
    LinksAfter(s, w, s'.links[w]);
    LinksCostUpdate(s.links, w, s'.links[w]);
  }

  lemma ReceiveProgress(c: Config, s: State, w: nat)
    requires Healthy(c, s) && CanReceive(s, w)
    ensures Live(c, AfterReceive(c, s, w)) && Measure(AfterReceive(c, s, w)) < Measure(s)
  {
    var l := s.links[w];
    var l' := AfterReceive(c, s, w).links[w];
    assert HealthyLink(l) && LinkOk(c, s.store.volatile, l) && MessageOk(c, l.wire[0]);
    if l.rx.Receiving? && l.wire[0].ChunkStart? {
      HonestChunkIsWritten(c, s, w);
    }
    ReceivedLinkIsHealthy(l, l');
    LiveLinkStep(c, s, w, l');
  }

  /** The three frames a healthy receiver can get. */
  lemma ReceivedLinkIsHealthy(l: Link, l': Link)
    requires HealthyLink(l) && |l.wire| > 0 && (l.rx.AwaitHello? || l.rx.Receiving?)
    requires l'.tx == l.tx && l'.completed == l.completed && l'.wire == l.wire[1..]
    requires l.rx.AwaitHello? ==> l'.rx == if l.wire[0].WorkerHello? then Receiving else ReceiverFailed
    requires l.rx.Receiving? && l.wire[0].ChunkStart? ==> l'.rx == Writing(l.wire[0].task, l.wire[0].payload, 0)
    requires l.rx.Receiving? && l.wire[0].WorkerDone? ==> l'.rx == WantFlush(ThenComplete)
    requires l.wire[0].ChunkStart? ==> |l.wire[0].payload| == l.wire[0].task.len
    ensures HealthyLink(l')
    ensures LinkCost(l') < LinkCost(l)
    ensures forall t :: LinkWork(l', t) == LinkWork(l, t)
    ensures !l'.rx.Flushing?
  {
    assert forall k :: 0 <= k < |l'.wire| ==> l'.wire[k] == l.wire[k + 1];
  }

  lemma WriteProgress(c: Config, s: State, w: nat, n: nat)
    requires Live(c, s) && CanWriteSome(s, w, n)
    ensures Live(c, AfterWriteSome(s, w, n)) && Measure(AfterWriteSome(s, w, n)) < Measure(s)
  {
    var s' := AfterWriteSome(s, w, n);
    var l' := s'.links[w];
    assert HealthyLink(s.links[w]) && HealthyLink(l');
    LinksAfter(s, w, l');
    SameWorkStaysExact(c, s, s', w, l');
    LinksCostUpdate(s.links, w, l');
  }

  /** Of all chunks, one is no longer on its way, and flagged. */
  lemma MarkedWork(c: Config, flags: Flags, t: ChunkTask, u: ChunkTask, before: nat, after: nat)
    requires TaskOk(c, t) && HasSlot(flags, t.entryId, t.chunkIndex) && !IsFlagged(flags, t.entryId, t.chunkIndex)
    requires before == CountIf(TaskOk(c, u) && !IsFlagged(flags, u.entryId, u.chunkIndex))
    requires before == after + CountIf(t == u)
    ensures after == CountIf(TaskOk(c, u) &&
              !IsFlagged(flags[t.entryId := flags[t.entryId][t.chunkIndex := true]], u.entryId, u.chunkIndex))
  {
    MarkedFlags(flags, t.entryId, t.chunkIndex, u.entryId, u.chunkIndex);
    if TaskOk(c, u) && u.entryId == t.entryId && u.chunkIndex == t.chunkIndex {
      TaskIdentity(c, t, u);
    }
  }

  lemma MarkStaysExact(c: Config, s: State, w: nat)
    requires Healthy(c, s) && CanMarkChunk(s, w)
    ensures WorkExact(c, AfterMarkChunk(s, w))
  {
    var s' := AfterMarkChunk(s, w);
    var t := s.links[w].rx.task;
    assert LinkOk(c, s.store.volatile, s.links[w]);
    MarkKeepsWork(c, s, w);
    forall u
      ensures Work(s'.queue, s'.links, u)
              == CountIf(TaskOk(c, u) && !IsFlagged(s'.store.rt.flags, u.entryId, u.chunkIndex))
    {
      MarkedWork(c, s.store.rt.flags, t, u, Work(s.queue, s.links, u), Work(s'.queue, s'.links, u));
    }
  }

  lemma MarkProgress(c: Config, s: State, w: nat)
    requires Live(c, s) && CanMarkChunk(s, w) && WorkExact(c, AfterMarkChunk(s, w))
    ensures Live(c, AfterMarkChunk(s, w)) && Measure(AfterMarkChunk(s, w)) < Measure(s)
  {
    var l' := AfterMarkChunk(s, w).links[w];
    assert HealthyLink(s.links[w]) && HealthyLink(l');
    LinksAfter(s, w, l');
    LinksCostUpdate(s.links, w, l');
    AddOne(s.store.rt.dirty, s.links[w].rx.task.entryId);
  }

  lemma AddOne<T>(a: set<T>, x: T)
    ensures |a + {x}| <= |a| + 1
  {
    if x in a {
      assert a + {x} == a;
    }
  }

  lemma FlushEndsHealthy(l: Link)
    requires HealthyLink(l) && (l.rx.WantFlush? || l.rx.Flushing?)
    ensures HealthyLink(AfterFlush(l, l.rx.after))
    ensures LinkCost(AfterFlush(l, l.rx.after)) + 2 <= LinkCost(l)
    ensures !AfterFlush(l, l.rx.after).rx.Flushing?
  {
  }

  lemma EmptyFlushProgress(c: Config, s: State, w: nat)
    requires Live(c, s) && CanBeginFlush(s, w) && NothingToFlush(s.store.rt) && LinkOk(c, s.store.volatile, s.links[w])
    ensures Live(c, AfterBeginFlush(s, w)) && Measure(AfterBeginFlush(s, w)) < Measure(s)
  {
    assert HealthyLink(s.links[w]);
    FlushEndsHealthy(s.links[w]);
    AfterFlushOk(c, s.store.volatile, s.links[w]);
    LiveLinkStep(c, s, w, AfterFlush(s.links[w], s.links[w].rx.after));
  }

  lemma SnapshotProgress(c: Config, s: State, w: nat)
    requires Live(c, s) && CanBeginFlush(s, w) && !NothingToFlush(s.store.rt)
    ensures Live(c, AfterBeginFlush(s, w)) && Measure(AfterBeginFlush(s, w)) < Measure(s)
  {
    var s' := AfterBeginFlush(s, w);
    assert HealthyLink(s.links[w]) && HealthyLink(s'.links[w]);
    SameWorkStaysExact(c, s, s', w, s'.links[w]);
    LinksCostUpdate(s.links, w, s'.links[w]);
    assert FlushersHold(s'.store.job, s'.links);
  }

  lemma SyncProgress(c: Config, s: State, w: nat, e: FileId)
    requires Live(c, s) && CanSyncFile(s, w, e)
    ensures Live(c, AfterSyncFile(s, w, e)) && Measure(AfterSyncFile(s, w, e)) < Measure(s)
  {
  }

  lemma PersistProgress(c: Config, s: State, w: nat)
    requires Live(c, s) && CanPersistState(s, w) && LinkOk(c, s.store.volatile, s.links[w])
    ensures Live(c, AfterPersistState(s, w)) && Measure(AfterPersistState(s, w)) < Measure(s)
  {
    var s' := AfterPersistState(s, w);
    var l' := s'.links[w];
    assert HealthyLink(s.links[w]);
    FlushEndsHealthy(s.links[w]);
    AfterFlushOk(c, s.store.volatile, s.links[w]);
    LinksAfter(s, w, l');
    assert FlushersHold(s'.store.job, s'.links);
    SameWorkStaysExact(c, s, s', w, l');
    LinksCostUpdate(s.links, w, l');
  }

  lemma LinkOkOf(c: Config, s: State, w: nat)
    requires Inv(c, s) && w < |s.links|
    ensures LinkOk(c, s.store.volatile, s.links[w])
  {
  }

  predicate SenderStep(step: Step) {
    step.SendHello? || step.Pop? || step.SendChunk? || step.ReadComplete?
  }

  lemma SenderStepProgress(c: Config, s: State, step: Step)
    requires Healthy(c, s) && Enabled(c, s, step) && SenderStep(step)
    ensures Live(c, Apply(c, s, step)) && Measure(Apply(c, s, step)) < Measure(s)
  {
    LinkOkOf(c, s, step.w);
    match step
    case SendHello(w) => SendHelloProgress(c, s, w);
    case Pop(w) =>
      if |s.queue| == 0 {
        PopDoneProgress(c, s, w);
      } else {
        PopTaskProgress(c, s, w);
      }
    case SendChunk(w) => SendChunkProgress(c, s, w);
    case ReadComplete(w) => ReadCompleteProgress(c, s, w);
  }

  lemma ReceiverStepProgress(c: Config, s: State, step: Step)
    requires Healthy(c, s) && Enabled(c, s, step) && FaultFree(step) && !SenderStep(step) && !step.Writeback?
    ensures Live(c, Apply(c, s, step)) && Measure(Apply(c, s, step)) < Measure(s)
  {
    LinkOkOf(c, s, step.w);
    match step
    case Receive(w) => ReceiveProgress(c, s, w);
    case WriteSome(w, n) => WriteProgress(c, s, w, n);
    case MarkChunk(w) => MarkStaysExact(c, s, w); MarkProgress(c, s, w);
    case BeginFlush(w) =>
      if NothingToFlush(s.store.rt) {
        EmptyFlushProgress(c, s, w);
      } else {
        SnapshotProgress(c, s, w);
      }
    case SyncFile(w, e) => SyncProgress(c, s, w, e);
    case PersistState(w) => PersistProgress(c, s, w);
  }

  lemma WritebackStaysLive(c: Config, s: State, e: FileId, lo: nat, hi: nat)
    requires Live(c, s) && CanWriteback(s, e, lo, hi)
    ensures Live(c, AfterWriteback(s, e, lo, hi)) && Measure(AfterWriteback(s, e, lo, hi)) == Measure(s)
  {
  }

  /** Every fault-free step other than a write-back brings the run closer to its end. */
  lemma StepProgress(c: Config, s: State, step: Step)
    requires Healthy(c, s) && Enabled(c, s, step) && FaultFree(step)
    ensures Healthy(c, Apply(c, s, step))
    ensures if step.Writeback? then Measure(Apply(c, s, step)) == Measure(s) else Measure(Apply(c, s, step)) < Measure(s)
  {
    StepKeepsInv(c, s, step);
    if step.Writeback? {
      WritebackStaysLive(c, s, step.e, step.lo, step.hi);
    } else if SenderStep(step) {
      SenderStepProgress(c, s, step);
    } else {
      ReceiverStepProgress(c, s, step);
    }
  }

  // -------------------------------------------------------------------------------- no deadlock

  predicate LinkFinished(l: Link) {
    l.tx.Finished? && l.rx.Done?
  }

  predicate AllFinished(s: State) {
    forall w :: 0 <= w < |s.links| ==> LinkFinished(s.links[w])
  }

  /** Until both ends of every stream are finished, some step other than a write-back is possible. */
  lemma NoDeadlock(c: Config, s: State) returns (step: Step)
    requires Healthy(c, s) && !AllFinished(s)
    ensures Enabled(c, s, step) && FaultFree(step) && !step.Writeback?
  {
    if s.store.job.Some? {
      var job := s.store.job.value;
      if job.left == {} {
        step := PersistState(job.holder);
      } else {
        var e :| e in job.left;
        step := SyncFile(job.holder, e);
      }
    } else {
      var w :| 0 <= w < |s.links| && !LinkFinished(s.links[w]);
      step := NextOnLink(c, s, w);
    }
  }

  lemma NextOnLink(c: Config, s: State, w: nat) returns (step: Step)
    requires Healthy(c, s) && s.store.job.None? && w < |s.links| && !LinkFinished(s.links[w])
    ensures Enabled(c, s, step) && FaultFree(step) && !step.Writeback?
  {
    var l := s.links[w];
    assert HealthyLink(l) && LinkOk(c, s.store.volatile, l);
    if l.rx.WantFlush? {
      step := BeginFlush(w);
    } else if l.rx.Writing? {
      step := if l.rx.written < |l.rx.payload| then WriteSome(w, 1) else MarkChunk(w);
    } else if |l.wire| > 0 {
      step := Receive(w);
    } else {
      step := match l.tx
        case Connecting => SendHello(w)
        case Popping => Pop(w)
        case Holding(_) => SendChunk(w)
        case _ => ReadComplete(w);
    }
  }

  // -------------------------------------------------------------------------------- completion

  lemma {:induction false} FinishedLinksCarryNothing(links: seq<Link>, t: ChunkTask)
    requires HealthyLinks(links) && forall w :: 0 <= w < |links| ==> LinkFinished(links[w])
    ensures LinksWork(links, t) == 0
  {
    if |links| > 0 {
      assert HealthyLink(links[|links| - 1]) && LinkFinished(links[|links| - 1]);
      FinishedLinksCarryNothing(links[..|links| - 1], t);
    }
  }

  lemma FinishedMeansAllFlagged(c: Config, s: State)
    requires Healthy(c, s) && AllFinished(s)
    ensures s.queue == [] && AllFlagged(c, s.store.rt.flags)
  {
    assert s.queue == [] by {
      if |s.links| > 0 {
        assert LinkFinished(s.links[0]);
      }
    }
    forall e, i | e in c.source && 0 <= i < |s.store.rt.flags[e]|
      ensures s.store.rt.flags[e][i]
    {
      var k := EntryIndex(c, e);
      assert SoundFile(c.entries[k]);
      EntryTaskOk(c, k, i);
      FinishedLinksCarryNothing(s.links, TaskFor(c.entries[k], i));
      assert Work(s.queue, s.links, TaskFor(c.entries[k], i)) == 0;
    }
  }

  lemma FinishedIsClean(c: Config, s: State)
    requires Healthy(c, s) && AllFinished(s)
    ensures NothingToFlush(s.store.rt) && s.store.job.None? && s.store.rt.dirty + JobLeft(s.store.job) == {}
    ensures s.store.rt.flags in s.store.persisted
  {
    forall w | 0 <= w < |s.links| ensures s.links[w].rx.Done? {
      assert LinkFinished(s.links[w]);
    }
    QuietMeansClean(c, s);
  }

  lemma NoneZeroedIsSource(c: Config, s: State, e: FileId)
    requires Inv(c, s) && !s.store.stopped && e in c.source && AllSet(s.store.rt.flags[e]) && Fits(|c.source[e]|)
    requires s.store.rt.dirty + JobLeft(s.store.job) == {} && NoneZeroed(c, s.store, s.store.durable)
    ensures s.store.durable[e] == c.source[e]
  {
    FittingIsNotStale(c, s.store.durable, e);
    FileIsSourceExact(c, s.store, s.store.durable, e);
  }

  lemma FinishedIsDurable(c: Config, s: State)
    requires Healthy(c, s) && AllFinished(s) && AllFit(c.entries) && NoneZeroed(c, s.store, s.store.durable)
    ensures s.store.durable == c.source
  {
    FinishedMeansAllFlagged(c, s);
    FinishedIsClean(c, s);
    forall e | e in c.source
      ensures s.store.durable[e] == c.source[e]
    {
      var j := SpecOf(c, e);
      NoneZeroedIsSource(c, s, e);
    }
  }

  /** What has been achieved when every worker is finished. */
  lemma FinishedMeansComplete(c: Config, s: State)
    requires Healthy(c, s) && AllFinished(s)
    ensures AllFlagged(c, s.store.rt.flags) && s.store.rt.flags in s.store.persisted && SpecsKnown(c, s)
    ensures AllFit(c.entries) ==>
      && (AcceptedAt(c, s) <==> NoneZeroed(c, s.store, s.store.volatile))
      && (!AcceptedAt(c, s) ==> Verify(s.store.rt, s.store.volatile, Specs(c.entries)).HashMismatch?)
      && (AcceptedAt(c, s) ==> s.store.volatile == c.source)
      && (NoneZeroed(c, s.store, s.store.durable) ==> s.store.durable == c.source)
  {
    FinishedMeansAllFlagged(c, s);
    FinishedIsClean(c, s);
    SpecsAreKnown(c, s);
    if AllFit(c.entries) {
      VerdictWhenFitting(c, s);
      if NoneZeroed(c, s.store, s.store.durable) {
        FinishedIsDurable(c, s);
      }
    }
  }

  // ---------------------------------------------------------- what a fault-free run leaves alone

  function ByteAt(files: Files, e: FileId, k: nat): byte {
    if e in files && k < |files[e]| then files[e][k] else 0
  }

  /** A byte that no worker will write: no chunk holds it, or its chunk is flagged. */
  predicate Untouchable(c: Config, flags: Flags, e: FileId, k: nat) {
    e in c.source && k < |c.source[e]| && (OutsideChunks(c, e, k) || IsFlagged(flags, e, k / CHUNK_SIZE))
  }

  /** A worker writes a chunk of the manifest that is not flagged. */
  lemma WritersChunk(c: Config, s: State, w: nat)
    requires Inv(c, s) && w < |s.links| && s.links[w].rx.Writing?
    ensures var rx := s.links[w].rx;
            && PayloadOk(c, rx.task, rx.payload)
            && !IsFlagged(s.store.rt.flags, rx.task.entryId, rx.task.chunkIndex)
  {
    assert LinkOk(c, s.store.volatile, s.links[w]);
    CarriedIsWanted(s.store.rt.flags, s.queue, s.links, w, s.links[w].rx.task);
  }

  /** So the write misses every byte of another chunk. */
  lemma PieceMisses(c: Config, flags: Flags, files: Files, t: ChunkTask, payload: Bytes, written: nat, n: nat, e: FileId, k: nat)
    requires FilesLayout(c, files) && PayloadOk(c, t, payload) && written + n <= |payload|
    requires Untouchable(c, flags, e, k) && !IsFlagged(flags, t.entryId, t.chunkIndex)
    ensures ByteAt(WritePiece(files, t, payload, written, n), e, k) == ByteAt(files, e, k)
  {
    if t.entryId == e {
      InsideIsCounted(c, e, k);
      ChunksDisjoint(|c.source[e]|, t.chunkIndex, k / CHUNK_SIZE, k);
      PieceLands(c, files, t, payload, written, n, k);
    }
  }

  lemma UntouchedByWrite(c: Config, s: State, w: nat, n: nat, e: FileId, k: nat)
    requires Inv(c, s) && CanWriteSome(s, w, n) && Untouchable(c, s.store.rt.flags, e, k)
    ensures ByteAt(AfterWriteSome(s, w, n).store.volatile, e, k) == ByteAt(s.store.volatile, e, k)
  {
    var rx := s.links[w].rx;
    WritersChunk(c, s, w);
    PieceMisses(c, s.store.rt.flags, s.store.volatile, rx.task, rx.payload, rx.written, n, e, k);
  }

  /** What a fault-free step other than a write leaves alone. */
  lemma OnlyWritesChangeFiles(c: Config, s: State, step: Step)
    requires ValidConfig(c) && Enabled(c, s, step) && FaultFree(step)
    ensures !step.WriteSome? ==> Apply(c, s, step).store.volatile == s.store.volatile
    ensures Apply(c, s, step).store.resumed == s.store.resumed && Apply(c, s, step).store.gone == s.store.gone
    ensures !step.MarkChunk? ==> Apply(c, s, step).store.rt.flags == s.store.rt.flags
  {
  }

  lemma FlagsGrow(c: Config, s: State, step: Step, e: FileId, k: nat)
    requires ValidConfig(c) && Enabled(c, s, step) && FaultFree(step) && Untouchable(c, s.store.rt.flags, e, k)
    ensures Untouchable(c, Apply(c, s, step).store.rt.flags, e, k)
  {
    OnlyWritesChangeFiles(c, s, step);
    if step.MarkChunk? {
      var t := s.links[step.w].rx.task;
      MarkedFlags(s.store.rt.flags, t.entryId, t.chunkIndex, e, k / CHUNK_SIZE);
    }
  }

  /** Byte `k` is `b`, and no worker will write it. */
  ghost predicate Stays(c: Config, s: State, e: FileId, k: nat, b: byte) {
    Inv(c, s) && Untouchable(c, s.store.rt.flags, e, k) && ByteAt(s.store.volatile, e, k) == b
  }

  lemma StepLeavesByte(c: Config, s: State, step: Step, e: FileId, k: nat, b: byte)
    requires Stays(c, s, e, k, b) && Enabled(c, s, step) && FaultFree(step)
    ensures Stays(c, Apply(c, s, step), e, k, b)
  {
    StepKeepsInv(c, s, step);
    OnlyWritesChangeFiles(c, s, step);
    FlagsGrow(c, s, step, e, k);
    if step.WriteSome? {
      UntouchedByWrite(c, s, step.w, step.n, e, k);
    }
  }

  lemma RunLeavesByte(c: Config, s: State, steps: seq<Step>, e: FileId, k: nat)
    requires Inv(c, s) && Schedule(c, s, steps) && AllFaultFree(steps) && Untouchable(c, s.store.rt.flags, e, k)
    ensures ByteAt(Outcome(c, s, steps).store.volatile, e, k) == ByteAt(s.store.volatile, e, k)
  {
    var b := ByteAt(s.store.volatile, e, k);
    forall t, step | Stays(c, t, e, k, b) && Enabled(c, t, step) && FaultFree(step)
      ensures Stays(c, Apply(c, t, step), e, k, b)
    {
      StepLeavesByte(c, t, step, e, k, b);
    }
    ScheduleKeeps(c, s, steps, FaultFree, t => Stays(c, t, e, k, b));
  }

  lemma RunKeepsPlan(c: Config, s: State, steps: seq<Step>)
    requires ValidConfig(c) && Schedule(c, s, steps) && AllFaultFree(steps)
    ensures Outcome(c, s, steps).store.resumed == s.store.resumed && Outcome(c, s, steps).store.gone == s.store.gone
  {
    var resumed, gone := s.store.resumed, s.store.gone;
    forall t: State, step | t.store.resumed == resumed && t.store.gone == gone && FaultFree(step) && Enabled(c, t, step)
      ensures Apply(c, t, step).store.resumed == resumed && Apply(c, t, step).store.gone == gone
    {
      OnlyWritesChangeFiles(c, t, step);
    }
    ScheduleKeeps(c, s, steps, FaultFree, (t: State) => t.store.resumed == resumed && t.store.gone == gone);
  }

  ghost predicate RightInBoth(c: Config, store: Store, flags: Flags) {
    FlagsRight(c, flags, store.volatile, {}, {}) && FlagsRight(c, flags, store.durable, {}, {})
  }

  /** A fault-free step spoils no byte that is right in both files. */
  lemma StepSpoilsNothing(c: Config, s: State, step: Step)
    requires Inv(c, s) && Enabled(c, s, step) && FaultFree(step)
    ensures NoWorse(c, s.store.volatile, Apply(c, s, step).store.volatile)
    ensures Mixes(c, s.store.durable, s.store.volatile, Apply(c, s, step).store.durable)
  {
    FilesChangeBy(c, s, step);
    match step
    case WriteSome(w, n) => WriteKeepsStore(c, s, w, n);
    case SyncFile(w, e) => SyncMixes(c, s, w, e);
    case Writeback(e, lo, hi) => WritebackMixes(c, s, e, lo, hi);
    case _ =>
  }

  lemma FilesChangeBy(c: Config, s: State, step: Step)
    requires ValidConfig(c) && Enabled(c, s, step) && FaultFree(step)
    ensures !step.WriteSome? ==> Apply(c, s, step).store.volatile == s.store.volatile
    ensures !step.SyncFile? && !step.Writeback? ==> Apply(c, s, step).store.durable == s.store.durable
  {
  }

  lemma StepKeepsRight(c: Config, s: State, step: Step, flags: Flags)
    requires Inv(c, s) && Enabled(c, s, step) && FaultFree(step) && RightInBoth(c, s.store, flags)
    ensures Inv(c, Apply(c, s, step)) && RightInBoth(c, Apply(c, s, step).store, flags)
  {
    StepKeepsInv(c, s, step);
    StepSpoilsNothing(c, s, step);
    var a, b := s.store, Apply(c, s, step).store;
    NoWorseKeepsFlagsRight(c, flags, a.volatile, b.volatile, {}, {});
    MixKeepsFlagsRight(c, flags, a.durable, a.volatile, b.durable, {}, {});
  }

  lemma RunKeepsRight(c: Config, s: State, steps: seq<Step>, flags: Flags)
    requires Inv(c, s) && Schedule(c, s, steps) && AllFaultFree(steps) && RightInBoth(c, s.store, flags)
    ensures RightInBoth(c, Outcome(c, s, steps).store, flags)
  {
    forall t: State, step | Inv(c, t) && RightInBoth(c, t.store, flags) && Enabled(c, t, step) && FaultFree(step)
      ensures Inv(c, Apply(c, t, step)) && RightInBoth(c, Apply(c, t, step).store, flags)
    {
      StepKeepsRight(c, t, step, flags);
    }
    ScheduleKeeps(c, s, steps, FaultFree, (t: State) => Inv(c, t) && RightInBoth(c, t.store, flags));
  }

  lemma SameResumedBytes(c: Config, a: Store, b: Store, e: FileId)
    requires a.resumed == b.resumed && a.gone == b.gone && FilesLayout(c, a.volatile) && FilesLayout(c, b.volatile)
    requires forall k: nat :: e in c.source && k < |c.source[e]| && IsFlagged(a.resumed, e, k / CHUNK_SIZE) ==>
               ByteAt(a.volatile, e, k) == ByteAt(b.volatile, e, k)
    ensures Zeroed(c, a, a.volatile, e) <==> Zeroed(c, b, b.volatile, e)
  {
    forall k: nat ensures ZeroedAt(c, a, a.volatile, e, k) <==> ZeroedAt(c, b, b.volatile, e, k) {
      if e in c.source && k < |c.source[e]| && IsFlagged(a.resumed, e, k / CHUNK_SIZE) {
        assert ByteAt(a.volatile, e, k) == ByteAt(b.volatile, e, k);
      }
    }
  }

  lemma ResumedIsUntouchable(c: Config, s: State, e: FileId, k: nat)
    requires Inv(c, s) && !s.store.stopped && e in c.source && k < |c.source[e]|
    requires IsFlagged(s.store.resumed, e, k / CHUNK_SIZE)
    ensures Untouchable(c, s.store.rt.flags, e, k)
  {
  }

  lemma InvLayout(c: Config, s: State)
    requires Inv(c, s)
    ensures FilesLayout(c, s.store.volatile) && FilesLayout(c, s.store.durable) && FlagsLayout(c, s.store.rt.flags)
  {
  }

  /** A fault-free run neither zeroes nor heals a resumed byte: what its end finds was there when it
      began. */
  lemma ZeroedFromTheStart(c: Config, s: State, steps: seq<Step>, e: FileId)
    requires Inv(c, s) && !s.store.stopped && Schedule(c, s, steps) && AllFaultFree(steps)
    ensures var end := Outcome(c, s, steps);
            Zeroed(c, end.store, end.store.volatile, e) <==> Zeroed(c, s.store, s.store.volatile, e)
  {
    var end := Outcome(c, s, steps);
    ScheduleKeepsInv(c, s, steps);
    InvLayout(c, s);
    InvLayout(c, end);
    RunKeepsPlan(c, s, steps);
    forall k: nat | e in c.source && k < |c.source[e]| && IsFlagged(s.store.resumed, e, k / CHUNK_SIZE)
      ensures ByteAt(s.store.volatile, e, k) == ByteAt(end.store.volatile, e, k)
    {
      ResumedIsUntouchable(c, s, e, k);
      RunLeavesByte(c, s, steps, e, k);
    }
    SameResumedBytes(c, s.store, end.store, e);
  }

  // ------------------------------------------------------------------------------- whole runs

  ghost predicate Reachable(c: Config, s: State) {
    ValidConfig(c) && exists s0, steps :: Init(c, s0) && Schedule(c, s0, steps) && Outcome(c, s0, steps) == s
  }

  /** The first state of a run: the very first one, or any restart, after any history. */
  ghost predicate RunStart(c: Config, s: State) {
    || Init(c, s)
    || exists r, powerLoss, found, parallel ::
         Reachable(c, r) && CanRestart(c, r, found) && s == AfterRestart(c, r, powerLoss, found, parallel)
  }

  lemma IdleLinksAreHealthy(job: Option<Job>, queue: seq<ChunkTask>, links: seq<Link>)
    requires forall w :: 0 <= w < |links| ==> links[w] == IDLE
    requires |links| == 0 ==> queue == []
    ensures HealthyLinks(links) && FlushersHold(job, links) && QueueDrained(queue, links)
  {
  }

  lemma FreshRunIsHealthy(c: Config, s: State, flags: Flags, fromScratch: bool, volatile: Files, durable: Files,
                          persisted: set<Flags>, gone: set<FileId>, parallel: nat)
    requires ValidConfig(c) && FlagsLayout(c, flags) && (fromScratch ==> flags == FreshFlags(c))
    requires flags in persisted
    requires s == StartRun(c, flags, fromScratch, volatile, durable, persisted, gone, parallel) && Inv(c, s)
    ensures Healthy(c, s)
  {
    StartWorkExact(c, flags, fromScratch, volatile, durable, persisted, gone, parallel);
    IdleLinksAreHealthy(s.store.job, s.queue, s.links);
  }

  lemma RunStartIsHealthy(c: Config, s: State)
    requires RunStart(c, s)
    ensures Healthy(c, s)
  {
    if Init(c, s) {
      InitInv(c, s);
      var parallel: nat :| s == StartRun(c, FreshFlags(c), true, s.store.volatile, s.store.durable, {FreshFlags(c)}, {}, parallel);
      FreshRunIsHealthy(c, s, FreshFlags(c), true, s.store.volatile, s.store.durable, {FreshFlags(c)}, {}, parallel);
    } else {
      var r, powerLoss, found, parallel :|
        Reachable(c, r) && CanRestart(c, r, found) && s == AfterRestart(c, r, powerLoss, found, parallel);
      var s0, steps :| Init(c, s0) && Schedule(c, s0, steps) && Outcome(c, s0, steps) == r;
      InitInv(c, s0);
      ScheduleKeepsInv(c, s0, steps);
      RestartKeepsInv(c, r, powerLoss, found, parallel);
      RestartIsHealthy(c, r, powerLoss, found, parallel);
    }
  }

  lemma RestartIsHealthy(c: Config, r: State, powerLoss: bool, found: Option<Flags>, parallel: nat)
    requires ValidConfig(c) && CanRestart(c, r, found) && Inv(c, AfterRestart(c, r, powerLoss, found, parallel))
    ensures Healthy(c, AfterRestart(c, r, powerLoss, found, parallel))
  {
    var s := AfterRestart(c, r, powerLoss, found, parallel);
    var volatile := if powerLoss then r.store.durable else r.store.volatile;
    match found {
      case Some(flags) =>
        FreshRunIsHealthy(c, s, flags, false, volatile, r.store.durable, r.store.persisted, r.store.gone, parallel);
      case None =>
        FreshRunIsHealthy(c, s, FreshFlags(c), true, volatile, r.store.durable, r.store.persisted + {FreshFlags(c)},
                          r.store.gone, parallel);
    }
  }

  /** The steps of a schedule other than write-backs. */
  function ProperSteps(steps: seq<Step>): nat {
    if |steps| == 0 then 0 else (if steps[0].Writeback? then 0 else 1) + ProperSteps(steps[1..])
  }

  lemma {:induction false} FaultFreeSchedule(c: Config, s: State, steps: seq<Step>)
    requires Healthy(c, s) && Schedule(c, s, steps) && AllFaultFree(steps)
    ensures Healthy(c, Outcome(c, s, steps))
    ensures ProperSteps(steps) + Measure(Outcome(c, s, steps)) <= Measure(s)
    decreases |steps|
  {
    if |steps| > 0 {
      StepProgress(c, s, steps[0]);
      FaultFreeSchedule(c, Apply(c, s, steps[0]), steps[1..]);
    }
  }

  lemma StartRecorded(c: Config, s: State)
    requires RunStart(c, s)
    ensures s.store.resumed == s.store.rt.flags && s.store.resumed in s.store.persisted
  {
  }

  lemma StartIsRight(c: Config, s: State)
    requires RunStart(c, s) && Inv(c, s)
    requires NoneZeroed(c, s.store, s.store.volatile) && NoneZeroed(c, s.store, s.store.durable)
    ensures RightInBoth(c, s.store, s.store.resumed)
  {
    StartRecorded(c, s);
    assert PersistedOk(c, s.store.resumed, s.store.volatile, s.store.durable, s.store.gone);
    FlagsRightIffNoneZeroed(c, s.store, s.store.resumed, s.store.volatile);
    FlagsRightIffNoneZeroed(c, s.store, s.store.resumed, s.store.durable);
  }

  /** A run that begins with none of its resumed bytes zeroed, on disk either, ends with all its bytes
      on disk. */
  lemma NoneZeroedMeansDurable(c: Config, s: State, steps: seq<Step>)
    requires RunStart(c, s) && ValidConfig(c) && AllFit(c.entries) && Schedule(c, s, steps) && AllFaultFree(steps)
    requires NoneZeroed(c, s.store, s.store.volatile) && NoneZeroed(c, s.store, s.store.durable)
    requires AllFinished(Outcome(c, s, steps))
    ensures Outcome(c, s, steps).store.durable == c.source
  {
    var end := Outcome(c, s, steps);
    RunStartIsHealthy(c, s);
    FaultFreeSchedule(c, s, steps);
    StartIsRight(c, s);
    RunKeepsRight(c, s, steps, s.store.resumed);
    RunKeepsPlan(c, s, steps);
    RightIsNotZeroed(c, end.store, end.store.durable);
    FinishedMeansComplete(c, end);
  }

  /** How a fault-free run ends. */
  lemma FinishedRun(c: Config, s: State, steps: seq<Step>)
    requires RunStart(c, s) && ValidConfig(c) && AllFit(c.entries)
    requires Schedule(c, s, steps) && AllFaultFree(steps) && AllFinished(Outcome(c, s, steps))
    ensures var end := Outcome(c, s, steps);
      && end.store.rt.flags in end.store.persisted && SpecsKnown(c, end)
      && (AcceptedAt(c, end) <==> NoneZeroed(c, s.store, s.store.volatile))
      && (AcceptedAt(c, end) ==> end.store.volatile == c.source)
      && (!AcceptedAt(c, end) ==> Verify(end.store.rt, end.store.volatile, Specs(c.entries)).HashMismatch?)
  {
    RunStartIsHealthy(c, s);
    FaultFreeSchedule(c, s, steps);
    var end := Outcome(c, s, steps);
    FinishedMeansComplete(c, end);
    forall e ensures Zeroed(c, end.store, end.store.volatile, e) <==> Zeroed(c, s.store, s.store.volatile, e) {
      ZeroedFromTheStart(c, s, steps, e);
    }
  }

  /** Fault-free runs complete. From the start of any run, fresh or resumed after any history, every
      schedule without faults takes at most `Measure` steps besides write-backs; as long as some
      worker is unfinished another step is possible; and once none is, every chunk is flagged and
      recorded. Then verification accepts the source, unless some resumed byte was zeroed when the
      run began: that ends in a mismatch. */
  lemma FaultFreeRunsComplete(c: Config, s: State, steps: seq<Step>) returns (next: Option<Step>)
    requires RunStart(c, s) && ValidConfig(c) && AllFit(c.entries)
    requires Schedule(c, s, steps) && AllFaultFree(steps)
    ensures ProperSteps(steps) <= Measure(s)
    ensures next.Some? ==> Enabled(c, Outcome(c, s, steps), next.value) && FaultFree(next.value) && !next.value.Writeback?
    ensures next.None? <==> AllFinished(Outcome(c, s, steps))
    ensures next.None? ==>
      var end := Outcome(c, s, steps);
      && end.store.rt.flags in end.store.persisted && SpecsKnown(c, end)
      && (AcceptedAt(c, end) <==> NoneZeroed(c, s.store, s.store.volatile))
      && (AcceptedAt(c, end) ==> end.store.volatile == c.source)
      && (!AcceptedAt(c, end) ==> Verify(end.store.rt, end.store.volatile, Specs(c.entries)).HashMismatch?)
      && (AcceptedAt(c, end) && NoneZeroed(c, s.store, s.store.durable) ==> end.store.durable == c.source)
  {
    RunStartIsHealthy(c, s);
    FaultFreeSchedule(c, s, steps);
    if AllFinished(Outcome(c, s, steps)) {
      FinishedRun(c, s, steps);
      if NoneZeroed(c, s.store, s.store.volatile) && NoneZeroed(c, s.store, s.store.durable) {
        NoneZeroedMeansDurable(c, s, steps);
      }
      next := None;
    } else {
      var step := NoDeadlock(c, Outcome(c, s, steps));
      next := Some(step);
    }
  }

  /** As long as nothing has left the stage, nothing is zeroed. */
  lemma NothingGoneNothingZeroed(c: Config, store: Store, files: Files)
    requires store.gone == {}
    ensures NoneZeroed(c, store, files)
  {
  }
}
