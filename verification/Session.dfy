/** A source and a destination that run one backup over one substream
    (crates/rb-core/src/session.rs:30-145, crates/rb-core/src/channel.rs:217-261).

    Both directions are byte queues. Either side may fail at any time, the source in the middle of a
    write; a side that returns closes its end. The destination's `stream_in` reads to the end. What a
    receive makes of a queue is `Receive` and `NextEvent`, once enough bytes are there or no more can
    come. */
module Session {
  import opened ChunkStream
  import opened Common
  import opened Wire

  type Plan = Bytes

  datatype ControlFrame =
    | PlanFrame(plan: Plan)
    | PlanAck(accepted: bool, reason: string)
    | Done(totalBytes: nat, blake3: string)
    | Abort(reason: string)

  datatype Config = Config(
    data: DataCodec,
    control: Codec<ControlFrame>,
    plan: Plan,
    events: seq<Event>,        // what `stream_out` sends
    preflightOk: bool,
    accepts: bool,             // the accept policy, asked only after the preflight
    before: nat,               // the source's fingerprints
    after: nat)

  datatype SourcePc = Ready | AwaitAck | Streaming | SendDone | Audit | SourceOk | SourceFailed

  datatype DestPc = AwaitPlan | Deciding | Receiving | AwaitDone | DestOk | DestFailed

  datatype State = State(
    source: SourcePc,
    sent: nat,                 // events sent
    sourceBytes: nat,          // the source's progress counter
    dest: DestPc,
    got: seq<Event>,
    destBytes: nat,            // the destination's progress counter
    sawEnd: bool,              // the end frame, not just the end of the stream
    done: Option<nat>,         // the total of the `Done` frame
    toDest: Bytes,
    toSource: Bytes,
    streamedOut: bool,         // `stream_out` was called
    streamedIn: bool)          // `stream_in` was called

  datatype Step =
    | SourceSendsPlan
    | SourceReadsAck
    | SourceSendsEvent
    | SourceEnds
    | SourceSendsDone
    | SourceAudits
    | SourceDies(written: nat)
    | DestReadsPlan
    | DestDecides
    | DestReadsEvent
    | DestReadsDone
    | DestDies

  // ------------------------------------------------------------------------- what goes on the wire

  function Ack(approved: bool, preflightOk: bool): ControlFrame {
    PlanAck(approved, if !preflightOk then "preflight failed" else if !approved then "rejected by operator" else "accepted")
  }

  function Approved(c: Config): bool {
    c.preflightOk && c.accepts
  }

  function AckBytes(c: Config): Option<Bytes> {
    Framed(c.control, Ack(Approved(c), c.preflightOk))
  }

  function PlanBytes(c: Config): Option<Bytes> {
    Framed(c.control, PlanFrame(c.plan))
  }

  function DoneBytes(c: Config): Option<Bytes> {
    Framed(c.control, Done(SumBytes(c.events), ""))
  }

  /** No frame is too long. An event that cannot be sent is a failure of the source before it. */
  ghost predicate Sendable(c: Config) {
    && Faithful(c.data) && Faithful(c.control)
    && PlanBytes(c).Some? && AckBytes(c).Some? && DoneBytes(c).Some?
    && EndFrame(c.data).Some? && Encodable(c.data, c.events)
  }

  predicate SourceClosed(s: State) {
    s.source.SourceOk? || s.source.SourceFailed?
  }

  predicate DestClosed(s: State) {
    s.dest.DestOk? || s.dest.DestFailed?
  }

  /** A frame is there, or what is there is all there will be. */
  predicate FrameReady(c: Config, queue: Bytes, closed: bool) {
    var r: Received<ControlFrame> := Receive(c.control, queue);
    closed || (!r.CleanEof? && r != Faulty(UnexpectedEof))
  }

  predicate EventReady(c: Config, queue: Bytes, closed: bool) {
    var r := NextEvent(c.data, queue);
    closed || (r != Ended(false, []) && r != Failed(UnexpectedEof))
  }

  // -------------------------------------------------------------------------------- the steps

  ghost predicate Enabled(c: Config, s: State, step: Step)
    requires Sendable(c)
  {
    match step
    case SourceSendsPlan => s.source.Ready?
    case SourceReadsAck => s.source.AwaitAck? && FrameReady(c, s.toSource, DestClosed(s))
    case SourceSendsEvent => s.source.Streaming? && s.sent < |c.events|
    case SourceEnds => s.source.Streaming? && s.sent == |c.events|
    case SourceSendsDone => s.source.SendDone?
    case SourceAudits => s.source.Audit?
    case SourceDies(_) => !SourceClosed(s)
    case DestReadsPlan => s.dest.AwaitPlan? && FrameReady(c, s.toDest, SourceClosed(s))
    case DestDecides => s.dest.Deciding?
    case DestReadsEvent => s.dest.Receiving? && EventReady(c, s.toDest, SourceClosed(s))
    case DestReadsDone => s.dest.AwaitDone? && FrameReady(c, s.toDest, SourceClosed(s))
    case DestDies => !DestClosed(s)
  }

  /** The write that a source which dies may leave unfinished. */
  ghost function PendingWrite(c: Config, s: State): Bytes
    requires Sendable(c)
  {
    match s.source
    case Ready => PlanBytes(c).value
    case Streaming => if s.sent < |c.events| then EncodeEvent(c.data, c.events[s.sent]).value else EndFrame(c.data).value
    case SendDone =>
      var frame := Framed(c.control, Done(s.sourceBytes, ""));
      if frame.Some? then frame.value else []
    case _ => []
  }

  function Fail(s: State): State {
    s.(source := SourceFailed)
  }

  function AfterAck(c: Config, s: State): State {
    var r: Received<ControlFrame> := Receive(c.control, s.toSource);
    if r.Frame? && r.frame.PlanAck? && r.frame.accepted then
      s.(source := Streaming, streamedOut := true, toSource := r.rest)
    else Fail(s)
  }

  function AfterDone(s: State, frame: Option<Bytes>): State {
    if frame.None? then Fail(s) else s.(source := Audit, toDest := s.toDest + frame.value)
  }

  function AfterPlan(c: Config, s: State): State {
    var r: Received<ControlFrame> := Receive(c.control, s.toDest);
    if r.Frame? && r.frame.PlanFrame? then s.(dest := Deciding, toDest := r.rest) else s.(dest := DestFailed)
  }

  ghost function AfterDecision(c: Config, s: State): State
    requires Sendable(c)
  {
    var told := s.(toSource := s.toSource + AckBytes(c).value);
    if Approved(c) then told.(dest := Receiving, streamedIn := true) else told.(dest := DestFailed)
  }

  function WithEvent(s: State, e: Event, rest: Bytes): State {
    s.(got := s.got + [e], destBytes := s.destBytes + PayloadOf(e), toDest := rest)
  }

  function AfterEvent(c: Config, s: State): State {
    match NextEvent(c.data, s.toDest)
    case Got(e, rest) => WithEvent(s, e, rest)
    case Ended(byFrame, rest) => s.(dest := AwaitDone, sawEnd := byFrame, toDest := rest)
    case Failed(_) => s.(dest := DestFailed)
  }

  /** Anything but `Done` and `Abort`, even the end of the stream, is only worth a warning. */
  function AfterLastFrame(c: Config, s: State): State {
    var r: Received<ControlFrame> := Receive(c.control, s.toDest);
    match r
    case Faulty(_) => s.(dest := DestFailed)
    case CleanEof => s.(dest := DestOk, toDest := [])
    case Frame(frame, rest) =>
      if frame.Abort? then s.(dest := DestFailed)
      else s.(dest := DestOk, toDest := rest, done := if frame.Done? then Some(frame.totalBytes) else None)
  }

  ghost function Apply(c: Config, s: State, step: Step): State
    requires Sendable(c) && Enabled(c, s, step)
  {
    match step
    case SourceSendsPlan => s.(source := AwaitAck, toDest := s.toDest + PlanBytes(c).value)
    case SourceReadsAck => AfterAck(c, s)
    case SourceSendsEvent =>
      var e := c.events[s.sent];
      s.(sent := s.sent + 1, sourceBytes := s.sourceBytes + PayloadOf(e), toDest := s.toDest + EncodeEvent(c.data, e).value)
    case SourceEnds => s.(source := SendDone, toDest := s.toDest + EndFrame(c.data).value)
    case SourceSendsDone => AfterDone(s, Framed(c.control, Done(s.sourceBytes, "")))
    case SourceAudits => s.(source := if c.before == c.after then SourceOk else SourceFailed)
    case SourceDies(written) =>
      var pending := PendingWrite(c, s);
      Fail(s).(toDest := s.toDest + if written < |pending| then pending[..written] else pending)
    case DestReadsPlan => AfterPlan(c, s)
    case DestDecides => AfterDecision(c, s)
    case DestReadsEvent => AfterEvent(c, s)
    case DestReadsDone => AfterLastFrame(c, s)
    case DestDies => s.(dest := DestFailed)
  }

  const INITIAL := State(Ready, 0, 0, AwaitPlan, [], 0, false, None, [], [], false, false)

  ghost predicate Schedule(c: Config, s: State, steps: seq<Step>)
    requires Sendable(c)
    decreases |steps|
  {
    |steps| > 0 ==> Enabled(c, s, steps[0]) && Schedule(c, Apply(c, s, steps[0]), steps[1..])
  }

  ghost function Outcome(c: Config, s: State, steps: seq<Step>): State
    requires Sendable(c) && Schedule(c, s, steps)
    decreases |steps|
  {
    if |steps| == 0 then s else Outcome(c, Apply(c, s, steps[0]), steps[1..])
  }

  // ------------------------------------------------------------------------------ the invariant

  /** The events from the `k`-th on, the end frame and the `Done` frame. */
  ghost function Rest(c: Config, k: nat): Bytes
    requires Sendable(c) && k <= |c.events|
  {
    EncodeAll(c.data, c.events[k..]) + DoneBytes(c).value
  }

  /** What the destination has still to read when all goes well. */
  ghost function Unread(c: Config, dest: DestPc, got: nat, sawEnd: bool): Bytes
    requires Sendable(c)
  {
    match dest
    case AwaitPlan => PlanBytes(c).value + Rest(c, 0)
    case Deciding => Rest(c, 0)
    case Receiving => if got <= |c.events| then Rest(c, got) else []
    case AwaitDone => if sawEnd then DoneBytes(c).value else []
    case _ => []
  }

  /** What the source has still to write when all goes well. */
  ghost function Unwritten(c: Config, source: SourcePc, sent: nat): Bytes
    requires Sendable(c)
  {
    match source
    case Ready => PlanBytes(c).value + Rest(c, 0)
    case AwaitAck => Rest(c, 0)
    case Streaming => if sent <= |c.events| then Rest(c, sent) else []
    case SendDone => DoneBytes(c).value
    case _ => []
  }

  /** As long as both are well, what is on its way is what is written and not yet read. */
  ghost predicate QueueOk(c: Config, s: State)
    requires Sendable(c)
  {
    !DestClosed(s) ==> Fits(s.toDest, Unwritten(c, s.source, s.sent), Unread(c, s.dest, |s.got|, s.sawEnd), s.source.SourceFailed?)
  }

  predicate Fits(queue: Bytes, unwritten: Bytes, unread: Bytes, failed: bool) {
    if failed then queue <= unread else queue + unwritten == unread
  }

  ghost predicate SourceInv(c: Config, s: State)
    requires Sendable(c)
  {
    && s.sent <= |c.events| && s.sourceBytes == SumBytes(c.events[..s.sent])
    && (s.source.SendDone? || s.source.Audit? || s.source.SourceOk? ==> s.sent == |c.events|)
    && (s.source.Ready? || s.source.AwaitAck? ==> !s.streamedOut && s.sent == 0)
    && (s.source.SourceOk? ==> c.before == c.after)
    && (s.streamedOut ==> Approved(c))
    && (s.source.Streaming? || s.source.SendDone? || s.source.Audit? || s.source.SourceOk? ==> s.streamedOut)
    && (!s.streamedOut ==> s.sent == 0)
  }

  ghost predicate DestInv(c: Config, s: State)
    requires Sendable(c)
  {
    && s.got <= c.events && s.destBytes == SumBytes(s.got)
    && (s.dest.AwaitPlan? || s.dest.Deciding? ==> !s.streamedIn && s.toSource == [])
    && (s.dest.Receiving? || s.dest.AwaitDone? || s.dest.DestOk? ==> s.streamedIn)
    && (s.streamedIn ==> Approved(c))
    && (!s.streamedIn ==> s.got == [])
    && (s.sawEnd ==> s.got == c.events)
    && (s.done.Some? ==> s.dest.DestOk? && s.sawEnd && s.done.value == SumBytes(c.events))
    && (s.dest.AwaitDone? && !s.sawEnd ==> s.source.SourceFailed? && s.toDest == [])
    && (s.dest.DestOk? && s.done.None? ==> s.source.SourceFailed?)
  }

  /** The reply to the plan. */
  ghost predicate AckOk(c: Config, s: State)
    requires Sendable(c)
  {
    s.toSource == [] || s.toSource == AckBytes(c).value
  }

  ghost predicate Inv(c: Config, s: State)
    requires Sendable(c)
  {
    SourceInv(c, s) && DestInv(c, s) && AckOk(c, s) && QueueOk(c, s)
  }

  // ------------------------------------------------------------------------------ step by step

  lemma RestSplits(c: Config, k: nat)
    requires Sendable(c) && k <= |c.events|
    ensures k < |c.events| ==> Rest(c, k) == EncodeEvent(c.data, c.events[k]).value + Rest(c, k + 1)
    ensures k == |c.events| ==> Rest(c, k) == EndFrame(c.data).value + DoneBytes(c).value
  {
    if k < |c.events| {
      EncodeFirst(c.data, c.events[k..], DoneBytes(c).value);
      assert c.events[k..][1..] == c.events[k + 1..];
    } else {
      assert c.events[k..] == [];
    }
  }

  lemma SumOneMore(events: seq<Event>, k: nat)
    requires k < |events|
    ensures SumBytes(events[..k + 1]) == SumBytes(events[..k]) + PayloadOf(events[k])
  {
    assert events[..k + 1][..k] == events[..k];
  }

  /** Writing `x`, the first part of what is still to be written. */
  lemma WritingFits(queue: Bytes, x: Bytes, later: Bytes, unread: Bytes)
    requires Fits(queue, x + later, unread, false)
    ensures Fits(queue + x, later, unread, false)
  {
    assert (queue + x) + later == queue + (x + later);
  }

  lemma WritingKeepsQueue(c: Config, s: State, s': State, x: Bytes)
    requires Sendable(c) && QueueOk(c, s) && !SourceClosed(s) && !SourceClosed(s')
    requires s'.dest == s.dest && s'.got == s.got && s'.sawEnd == s.sawEnd && s'.toDest == s.toDest + x
    requires Unwritten(c, s.source, s.sent) == x + Unwritten(c, s'.source, s'.sent)
    ensures QueueOk(c, s')
  {
    if !DestClosed(s) {
      WritingFits(s.toDest, x, Unwritten(c, s'.source, s'.sent), Unread(c, s.dest, |s.got|, s.sawEnd));
    }
  }

  lemma SourceSendsPlanKeepsInv(c: Config, s: State)
    requires Sendable(c) && Inv(c, s) && Enabled(c, s, SourceSendsPlan)
    ensures Inv(c, Apply(c, s, SourceSendsPlan))
  {
    WritingKeepsQueue(c, s, Apply(c, s, SourceSendsPlan), PlanBytes(c).value);
  }

  lemma SourceSendsEventKeepsInv(c: Config, s: State)
    requires Sendable(c) && Inv(c, s) && Enabled(c, s, SourceSendsEvent)
    ensures Inv(c, Apply(c, s, SourceSendsEvent))
  {
    SumOneMore(c.events, s.sent);
    SendingKeepsQueue(c, s);
  }

  lemma SendingKeepsQueue(c: Config, s: State)
    requires Sendable(c) && QueueOk(c, s) && Enabled(c, s, SourceSendsEvent)
    ensures QueueOk(c, Apply(c, s, SourceSendsEvent))
  {
    RestSplits(c, s.sent);
    if !DestClosed(s) {
      WritingFits(s.toDest, EncodeEvent(c.data, c.events[s.sent]).value, Rest(c, s.sent + 1), Unread(c, s.dest, |s.got|, s.sawEnd));
    }
  }

  lemma SourceEndsKeepsInv(c: Config, s: State)
    requires Sendable(c) && Inv(c, s) && Enabled(c, s, SourceEnds)
    ensures Inv(c, Apply(c, s, SourceEnds))
  {
    RestSplits(c, s.sent);
    WritingKeepsQueue(c, s, Apply(c, s, SourceEnds), EndFrame(c.data).value);
  }

  lemma SourceSendsDoneKeepsInv(c: Config, s: State)
    requires Sendable(c) && Inv(c, s) && Enabled(c, s, SourceSendsDone)
    ensures Inv(c, Apply(c, s, SourceSendsDone))
  {
    assert c.events[..|c.events|] == c.events;
    var done := DoneBytes(c).value;
    assert done + [] == done;
    WritingKeepsQueue(c, s, Apply(c, s, SourceSendsDone), done);
  }

  lemma SourceReadsAckKeepsInv(c: Config, s: State)
    requires Sendable(c) && Inv(c, s) && Enabled(c, s, SourceReadsAck)
    ensures Inv(c, Apply(c, s, SourceReadsAck))
  {
    var ack := Ack(Approved(c), c.preflightOk);
    var t := s.toSource;
    if t == AckBytes(c).value {
      assert t <= t + [];
      ReceiveFromPrefix(c.control, ack, t, [], t);
    }
    assert c.events[0..] == c.events;
  }

  lemma PendingIsUnwritten(c: Config, s: State)
    requires Sendable(c) && SourceInv(c, s)
    ensures PendingWrite(c, s) <= Unwritten(c, s.source, s.sent)
  {
    assert c.events[..|c.events|] == c.events;
    if s.source.Streaming? {
      RestSplits(c, s.sent);
    }
  }

  lemma PartIsPrefix(queue: Bytes, part: Bytes, pending: Bytes, unwritten: Bytes)
    requires part <= pending && pending <= unwritten
    ensures queue + part <= queue + unwritten
  {
  }

  lemma SourceDiesKeepsInv(c: Config, s: State, written: nat)
    requires Sendable(c) && Inv(c, s) && Enabled(c, s, SourceDies(written))
    ensures Inv(c, Apply(c, s, SourceDies(written)))
  {
    var pending := PendingWrite(c, s);
    PendingIsUnwritten(c, s);
    PartIsPrefix(s.toDest, if written < |pending| then pending[..written] else pending, pending, Unwritten(c, s.source, s.sent));
  }

  lemma DestReadsPlanKeepsInv(c: Config, s: State)
    requires Sendable(c) && Inv(c, s) && Enabled(c, s, DestReadsPlan)
    ensures Inv(c, Apply(c, s, DestReadsPlan))
  {
    var plan := PlanBytes(c).value;
    QueueIsPrefix(c, s);
    ReceiveFromPrefix(c.control, PlanFrame(c.plan), plan, Rest(c, 0), s.toDest);
    if |s.toDest| >= |plan| {
      ReadingFits(s.toDest, plan, Rest(c, 0), Unwritten(c, s.source, s.sent), s.source.SourceFailed?);
    }
  }

  /** Reading `x`, all of which is there, off the front. */
  lemma ReadingFits(queue: Bytes, x: Bytes, later: Bytes, unwritten: Bytes, failed: bool)
    requires Fits(queue, unwritten, x + later, failed) && |queue| >= |x|
    ensures Fits(queue[|x|..], unwritten, later, failed)
  {
    if failed {
      PrefixTail(x, later, queue);
    } else {
      assert (queue + unwritten)[|x|..] == queue[|x|..] + unwritten;
      assert (x + later)[|x|..] == later;
    }
  }

  lemma DestReadsEventKeepsInv(c: Config, s: State)
    requires Sendable(c) && Inv(c, s) && Enabled(c, s, DestReadsEvent)
    ensures Inv(c, Apply(c, s, DestReadsEvent))
  {
    RestSplits(c, |s.got|);
    if |s.got| < |c.events| {
      DestReadsOneEvent(c, s);
    } else {
      DestReadsTheEnd(c, s);
    }
  }

  lemma DestReadsOneEvent(c: Config, s: State)
    requires Sendable(c) && Inv(c, s) && Enabled(c, s, DestReadsEvent) && |s.got| < |c.events|
    requires Rest(c, |s.got|) == EncodeEvent(c.data, c.events[|s.got|]).value + Rest(c, |s.got| + 1)
    ensures Inv(c, Apply(c, s, DestReadsEvent))
  {
    var x := EncodeEvent(c.data, c.events[|s.got|]).value;
    OneEventOrNone(c, s);
    if |s.toDest| >= |x| {
      WithEventKeepsInv(c, s, s.toDest[|x|..]);
    } else if |s.toDest| < 4 {
      CutOffKeepsInv(c, s);
    } else {
      DestFailsKeepsInv(c, s);
    }
  }

  lemma WithEventKeepsInv(c: Config, s: State, rest: Bytes)
    requires Sendable(c) && Inv(c, s) && s.dest.Receiving? && |s.got| < |c.events|
    requires |s.toDest| >= |EncodeEvent(c.data, c.events[|s.got|]).value|
    requires rest == s.toDest[|EncodeEvent(c.data, c.events[|s.got|]).value|..]
    ensures Inv(c, WithEvent(s, c.events[|s.got|], rest))
  {
    WithEventKeepsDestInv(c, s, c.events[|s.got|], rest);
    RestFits(c, |s.got|, s.toDest, Unwritten(c, s.source, s.sent), s.source.SourceFailed?);
    WithEventKeepsQueue(c, s, rest);
  }

  /** The stream ends where a frame might begin. */
  lemma CutOffKeepsInv(c: Config, s: State)
    requires Sendable(c) && Inv(c, s) && s.dest.Receiving? && s.source.SourceFailed?
    ensures Inv(c, s.(dest := AwaitDone, sawEnd := false, toDest := []))
  {
  }

  lemma DestFailsKeepsInv(c: Config, s: State)
    requires Sendable(c) && Inv(c, s) && !DestClosed(s)
    ensures Inv(c, s.(dest := DestFailed))
  {
  }

  lemma DestDecidesKeepsInv(c: Config, s: State)
    requires Sendable(c) && Inv(c, s) && Enabled(c, s, DestDecides)
    ensures Inv(c, Apply(c, s, DestDecides))
  {
    assert [] + AckBytes(c).value == AckBytes(c).value;
  }

  lemma SourceAuditsKeepsInv(c: Config, s: State)
    requires Sendable(c) && Inv(c, s) && Enabled(c, s, SourceAudits)
    ensures Inv(c, Apply(c, s, SourceAudits))
  {
  }

  lemma RestFits(c: Config, k: nat, queue: Bytes, unwritten: Bytes, failed: bool)
    requires Sendable(c) && k < |c.events| && Fits(queue, unwritten, Rest(c, k), failed)
    requires |queue| >= |EncodeEvent(c.data, c.events[k]).value|
    ensures Fits(queue[|EncodeEvent(c.data, c.events[k]).value|..], unwritten, Rest(c, k + 1), failed)
  {
    RestSplits(c, k);
    ReadingFits(queue, EncodeEvent(c.data, c.events[k]).value, Rest(c, k + 1), unwritten, failed);
  }

  lemma WithEventKeepsQueue(c: Config, s: State, rest: Bytes)
    requires Sendable(c) && s.dest.Receiving? && |s.got| < |c.events|
    requires Fits(rest, Unwritten(c, s.source, s.sent), Rest(c, |s.got| + 1), s.source.SourceFailed?)
    ensures QueueOk(c, WithEvent(s, c.events[|s.got|], rest))
  {
  }

  lemma WithEventKeepsDestInv(c: Config, s: State, e: Event, rest: Bytes)
    requires Sendable(c) && DestInv(c, s) && s.dest.Receiving? && |s.got| < |c.events| && e == c.events[|s.got|]
    ensures DestInv(c, WithEvent(s, e, rest))
  {
    var k := |s.got|;
    assert s.got + [e] == c.events[..k + 1] && s.got == c.events[..k];
    SumOneMore(c.events, k);
  }

  /** The next event, or nothing and the source is gone. */
  lemma OneEventOrNone(c: Config, s: State)
    requires Sendable(c) && QueueOk(c, s) && Enabled(c, s, DestReadsEvent) && |s.got| < |c.events|
    requires Rest(c, |s.got|) == EncodeEvent(c.data, c.events[|s.got|]).value + Rest(c, |s.got| + 1)
    ensures var e := c.events[|s.got|];
            var x := EncodeEvent(c.data, e).value;
            AfterEvent(c, s) ==
              if |s.toDest| >= |x| then WithEvent(s, e, s.toDest[|x|..])
              else if |s.toDest| < 4 then s.(dest := AwaitDone, sawEnd := false, toDest := [])
              else s.(dest := DestFailed)
    ensures |s.toDest| < |EncodeEvent(c.data, c.events[|s.got|]).value| ==> s.source.SourceFailed?
  {
    var e := c.events[|s.got|];
    QueueIsPrefix(c, s);
    NextFromPrefix(c.data, e, EncodeEvent(c.data, e).value, Rest(c, |s.got| + 1), s.toDest);
  }

  lemma DestReadsTheEnd(c: Config, s: State)
    requires Sendable(c) && Inv(c, s) && Enabled(c, s, DestReadsEvent) && |s.got| == |c.events|
    requires Rest(c, |s.got|) == EndFrame(c.data).value + DoneBytes(c).value
    ensures Inv(c, Apply(c, s, DestReadsEvent))
  {
    var x := EndFrame(c.data).value;
    QueueIsPrefix(c, s);
    EndFromPrefix(c.data, x, DoneBytes(c).value, s.toDest);
    assert s.got == c.events;
    if |s.toDest| >= |x| {
      ReadingFits(s.toDest, x, DoneBytes(c).value, Unwritten(c, s.source, s.sent), s.source.SourceFailed?);
    }
  }

  lemma QueueIsPrefix(c: Config, s: State)
    requires Sendable(c) && QueueOk(c, s) && !DestClosed(s)
    ensures s.toDest <= Unread(c, s.dest, |s.got|, s.sawEnd)
  {
  }

  lemma DestReadsDoneKeepsInv(c: Config, s: State)
    requires Sendable(c) && Inv(c, s) && Enabled(c, s, DestReadsDone)
    ensures Inv(c, Apply(c, s, DestReadsDone))
  {
    if s.sawEnd {
      var x := DoneBytes(c).value;
      assert s.toDest <= x + [];
      ReceiveFromPrefix(c.control, Done(SumBytes(c.events), ""), x, [], s.toDest);
      if s.source.SourceOk? {
        assert s.toDest + [] == s.toDest;
      }
    }
  }

  lemma StepKeepsInv(c: Config, s: State, step: Step)
    requires Sendable(c) && Inv(c, s) && Enabled(c, s, step)
    ensures Inv(c, Apply(c, s, step))
  {
    match step
    case SourceReadsAck => SourceReadsAckKeepsInv(c, s);
    case SourceDies(written) => SourceDiesKeepsInv(c, s, written);
    case DestReadsPlan => DestReadsPlanKeepsInv(c, s);
    case DestReadsEvent => DestReadsEventKeepsInv(c, s);
    case DestReadsDone => DestReadsDoneKeepsInv(c, s);
    case SourceAudits => SourceAuditsKeepsInv(c, s);
    case DestDecides => DestDecidesKeepsInv(c, s);
    case DestDies => DestFailsKeepsInv(c, s);
    case SourceSendsPlan => SourceSendsPlanKeepsInv(c, s);
    case SourceSendsEvent => SourceSendsEventKeepsInv(c, s);
    case SourceEnds => SourceEndsKeepsInv(c, s);
    case SourceSendsDone => SourceSendsDoneKeepsInv(c, s);
  }

  /** Induction over schedules. */
  lemma {:induction false} ScheduleKeeps(c: Config, s: State, steps: seq<Step>, good: State -> bool)
    requires Sendable(c) && Schedule(c, s, steps) && good(s)
    requires forall t, step :: good(t) && Enabled(c, t, step) ==> good(Apply(c, t, step))
    ensures good(Outcome(c, s, steps))
    decreases |steps|
  {
    if |steps| > 0 {
      ScheduleKeeps(c, Apply(c, s, steps[0]), steps[1..], good);
    }
  }

  lemma ScheduleKeepsInv(c: Config, s: State, steps: seq<Step>)
    requires Sendable(c) && Inv(c, s) && Schedule(c, s, steps)
    ensures Inv(c, Outcome(c, s, steps))
  {
    forall t, step | Inv(c, t) && Enabled(c, t, step)
      ensures Inv(c, Apply(c, t, step))
    {
      StepKeepsInv(c, t, step);
    }
    ScheduleKeeps(c, s, steps, t => Inv(c, t));
  }

  lemma InitialInv(c: Config)
    requires Sendable(c)
    ensures Inv(c, INITIAL)
  {
    assert c.events[..0] == [];
  }

  // ------------------------------------------------------------------------------- the theorems

  /** Payload flows only after the destination has accepted; a rejection leads to neither
      `stream_out` nor `stream_in`. */
  lemma NoPayloadWithoutAcceptance(c: Config, steps: seq<Step>)
    requires Sendable(c) && Schedule(c, INITIAL, steps)
    ensures var end := Outcome(c, INITIAL, steps);
            && (end.streamedOut || end.streamedIn ==> c.preflightOk && c.accepts)
            && (end.sent > 0 || end.sourceBytes > 0 ==> end.streamedOut)
            && (end.got != [] || end.destBytes > 0 ==> end.streamedIn)
  {
    InitialInv(c);
    ScheduleKeepsInv(c, INITIAL, steps);
    assert c.events[..0] == [];
  }

  /** What the destination has got is always the first events the source sent. A source that
      succeeds has sent all of them and its fingerprint has not changed. A destination that has read
      `Done` got exactly these events, and the total is the number of bytes that both have counted;
      without `Done` it succeeds only if the source has failed. */
  lemma SessionIsFaithful(c: Config, steps: seq<Step>)
    requires Sendable(c) && Schedule(c, INITIAL, steps)
    ensures var end := Outcome(c, INITIAL, steps);
            && end.got <= c.events && end.destBytes == SumBytes(end.got)
            && (end.source.SourceOk? ==> c.before == c.after && end.sent == |c.events| && end.sourceBytes == SumBytes(c.events))
            && (end.done.Some? ==> end.dest.DestOk? && end.got == c.events && end.done.value == end.destBytes == SumBytes(c.events))
            && (end.dest.DestOk? && end.done.None? ==> end.source.SourceFailed?)
  {
    InitialInv(c);
    ScheduleKeepsInv(c, INITIAL, steps);
    assert c.events[..|c.events|] == c.events;
  }

  // -------------------------------------------------- success of the destination without `Done`

  lemma OneStep(c: Config, s: State, step: Step, rest: seq<Step>)
    requires Sendable(c) && Enabled(c, s, step) && Schedule(c, Apply(c, s, step), rest)
    ensures Schedule(c, s, [step] + rest) && Outcome(c, s, [step] + rest) == Outcome(c, Apply(c, s, step), rest)
  {
    assert ([step] + rest)[1..] == rest;
  }

  /** The first `k` events are sent and read, and nothing else is on its way. */
  ghost function Lockstep(c: Config, k: nat): State
    requires k <= |c.events|
  {
    State(Streaming, k, SumBytes(c.events[..k]), Receiving, c.events[..k], SumBytes(c.events[..k]), false, None, [], [], true, true)
  }

  lemma Handshake(c: Config, rest: seq<Step>) returns (steps: seq<Step>)
    requires Sendable(c) && Approved(c) && Schedule(c, Lockstep(c, 0), rest)
    ensures Schedule(c, INITIAL, steps) && Outcome(c, INITIAL, steps) == Outcome(c, Lockstep(c, 0), rest)
  {
    var plan, ack := PlanBytes(c).value, AckBytes(c).value;
    ReceiveFromPrefix(c.control, PlanFrame(c.plan), plan, [], plan);
    ReceiveFromPrefix(c.control, Ack(true, true), ack, [], ack);
    assert c.events[..0] == [] && plan[|plan|..] == [] && ack[|ack|..] == [] && [] + plan == plan && [] + ack == ack;
    assert plan <= plan + [] && ack <= ack + [];
    var s1 := Apply(c, INITIAL, SourceSendsPlan);
    var s2 := Apply(c, s1, DestReadsPlan);
    var s3 := Apply(c, s2, DestDecides);
    assert Apply(c, s3, SourceReadsAck) == Lockstep(c, 0);
    OneStep(c, s3, SourceReadsAck, rest);
    OneStep(c, s2, DestDecides, [SourceReadsAck] + rest);
    OneStep(c, s1, DestReadsPlan, [DestDecides] + ([SourceReadsAck] + rest));
    steps := [DestReadsPlan] + ([DestDecides] + ([SourceReadsAck] + rest));
    OneStep(c, INITIAL, SourceSendsPlan, steps);
    steps := [SourceSendsPlan] + steps;
  }

  lemma OneRound(c: Config, k: nat, rest: seq<Step>) returns (steps: seq<Step>)
    requires Sendable(c) && k < |c.events| && Schedule(c, Lockstep(c, k + 1), rest)
    ensures Schedule(c, Lockstep(c, k), steps)
    ensures Outcome(c, Lockstep(c, k), steps) == Outcome(c, Lockstep(c, k + 1), rest)
  {
    var x := EncodeEvent(c.data, c.events[k]).value;
    ReadsBack(c.data, c.events[k], x);
    SendsOne(c, k, x);
    ReadsOne(c, k, x);
    OneStep(c, OneAhead(c, k, x), DestReadsEvent, rest);
    steps := [DestReadsEvent] + rest;
    OneStep(c, Lockstep(c, k), SourceSendsEvent, steps);
    steps := [SourceSendsEvent] + steps;
  }

  /** ... and event `k` is on its way, as `x`. */
  ghost function OneAhead(c: Config, k: nat, x: Bytes): State
    requires k < |c.events|
  {
    Lockstep(c, k).(sent := k + 1, sourceBytes := SumBytes(c.events[..k + 1]), toDest := x)
  }

  lemma SendsOne(c: Config, k: nat, x: Bytes)
    requires Sendable(c) && k < |c.events| && EncodeEvent(c.data, c.events[k]) == Some(x)
    ensures Enabled(c, Lockstep(c, k), SourceSendsEvent)
    ensures Apply(c, Lockstep(c, k), SourceSendsEvent) == OneAhead(c, k, x)
  {
    SumOneMore(c.events, k);
    assert [] + x == x;
  }

  lemma ReadsOne(c: Config, k: nat, x: Bytes)
    requires Sendable(c) && k < |c.events| && NextEvent(c.data, x) == Got(c.events[k], [])
    ensures Enabled(c, OneAhead(c, k, x), DestReadsEvent)
    ensures Apply(c, OneAhead(c, k, x), DestReadsEvent) == Lockstep(c, k + 1)
  {
    SumOneMore(c.events, k);
    assert c.events[..k + 1] == c.events[..k] + [c.events[k]];
  }

  lemma ReadsBack(codec: DataCodec, e: Event, x: Bytes)
    requires Faithful(codec) && EncodeEvent(codec, e) == Some(x)
    ensures NextEvent(codec, x) == Got(e, [])
  {
    assert x <= x + [] && x[|x|..] == [];
    NextFromPrefix(codec, e, x, [], x);
  }

  lemma {:induction false} Rounds(c: Config, k: nat, rest: seq<Step>) returns (steps: seq<Step>)
    requires Sendable(c) && k <= |c.events| && Schedule(c, Lockstep(c, k), rest)
    ensures Schedule(c, Lockstep(c, 0), steps) && Outcome(c, Lockstep(c, 0), steps) == Outcome(c, Lockstep(c, k), rest)
  {
    steps := rest;
    if k > 0 {
      steps := OneRound(c, k - 1, rest);
      steps := Rounds(c, k - 1, steps);
    }
  }

  /** A source that dies after any number of events, before the end frame, leaves a destination that
      can report success with just these. */
  lemma TruncatedRestoreSucceeds(c: Config, k: nat) returns (steps: seq<Step>)
    requires Sendable(c) && Approved(c) && k <= |c.events|
    ensures Schedule(c, INITIAL, steps)
    ensures var end := Outcome(c, INITIAL, steps);
            end.source.SourceFailed? && end.dest.DestOk? && end.done.None? && end.got == c.events[..k]
  {
    var s0 := Lockstep(c, k);
    var s1 := Apply(c, s0, SourceDies(0));
    assert s1.toDest == [];
    var s2 := Apply(c, s1, DestReadsEvent);
    OneStep(c, s2, DestReadsDone, []);
    OneStep(c, s1, DestReadsEvent, [DestReadsDone] + []);
    steps := [DestReadsEvent] + ([DestReadsDone] + []);
    OneStep(c, s0, SourceDies(0), steps);
    steps := [SourceDies(0)] + steps;
    steps := Rounds(c, k, steps);
    steps := Handshake(c, steps);
  }

  /** A destination that succeeds has all the events, whatever the schedule. */
  ghost predicate SuccessIsComplete(c: Config)
    requires Sendable(c)
  {
    forall steps :: Schedule(c, INITIAL, steps) && Outcome(c, INITIAL, steps).dest.DestOk? ==>
      Outcome(c, INITIAL, steps).got == c.events
  }

  /** That is so only for a plan that is not approved, where nothing succeeds, and where there are no
      events to lose. */
  lemma SuccessIsCompleteIff(c: Config)
    requires Sendable(c)
    ensures SuccessIsComplete(c) <==> !Approved(c) || c.events == []
  {
    if !Approved(c) || c.events == [] {
      forall steps | Schedule(c, INITIAL, steps) && Outcome(c, INITIAL, steps).dest.DestOk?
        ensures Outcome(c, INITIAL, steps).got == c.events
      {
        InitialInv(c);
        ScheduleKeepsInv(c, INITIAL, steps);
      }
    } else {
      var steps := TruncatedRestoreSucceeds(c, 0);
      assert Outcome(c, INITIAL, steps).got != c.events;
    }
  }

  // ---------------------------------------------------------------------- the two sides as they run

  /** `send_plan` and `recv_ack`: nothing but the plan is written before an accepting reply is read. */
  method OfferPlan(stream: ByteStream, control: Codec<ControlFrame>, plan: Plan) returns (accepted: bool)
    modifies stream
    ensures stream.outgoing == old(stream.outgoing) || Framed(control, PlanFrame(plan)).Some?
    ensures Framed(control, PlanFrame(plan)).Some? ==>
              stream.outgoing <= old(stream.outgoing) + Framed(control, PlanFrame(plan)).value
    ensures accepted ==> Framed(control, PlanFrame(plan)).Some?
    ensures accepted ==> stream.outgoing == old(stream.outgoing) + Framed(control, PlanFrame(plan)).value
    ensures accepted ==> var r := Receive(control, old(stream.incoming)); r.Frame? && r.frame.PlanAck? && r.frame.accepted
  {
    var ok := stream.SendFrame(control, PlanFrame(plan));
    if !ok {
      return false;
    }
    var r: Received<ControlFrame> := stream.RecvFrame(control);
    return r.Frame? && r.frame.PlanAck? && r.frame.accepted;
  }

  method SendOne(sink: ChunkSink, e: Event) returns (ok: bool)
    modifies sink, sink.stream`outgoing
    ensures ok ==> EncodeEvent(sink.codec, e).Some?
    ensures ok ==> sink.stream.outgoing == old(sink.stream.outgoing) + EncodeEvent(sink.codec, e).value
    ensures ok ==> sink.bytesDone == old(sink.bytesDone) + PayloadOf(e)
    ensures EncodeEvent(sink.codec, e).Some? ==>
              sink.stream.outgoing <= old(sink.stream.outgoing) + EncodeEvent(sink.codec, e).value
  {
    match e {
      case Chunk(itemId, offset, data) => ok := sink.SendChunk(itemId, offset, data);
      case ItemDone(itemId, total, blake3) => ok := sink.FinishItem(itemId, total, blake3);
    }
  }

  /** `written` is `before` and the encoding of the first `k` events, `bytes` their payload. */
  ghost predicate SentSoFar(codec: DataCodec, events: seq<Event>, k: nat, before: Bytes, written: Bytes, bytes: int)
    requires k <= |events|
  {
    && Encodable(codec, events[..k])
    && written == before + EncodeEvents(codec, events[..k])
    && bytes == SumBytes(events[..k])
  }

  lemma SentOneMore(codec: DataCodec, events: seq<Event>, k: nat, before: Bytes, written: Bytes, bytes: int)
    requires k < |events| && SentSoFar(codec, events, k, before, written, bytes)
    ensures EncodeEvent(codec, events[k]).Some? ==>
              SentSoFar(codec, events, k + 1, before, written + EncodeEvent(codec, events[k]).value, bytes + PayloadOf(events[k]))
  {
    if EncodeEvent(codec, events[k]).Some? {
      EncodeLast(codec, events[..k], events[k]);
      assert events[..k + 1] == events[..k] + [events[k]];
      SumOneMore(events, k);
      Reassociate(before, EncodeEvents(codec, events[..k]), EncodeEvent(codec, events[k]).value);
    }
  }

  lemma {:induction false} EncodeFew(codec: DataCodec, events: seq<Event>, k: nat)
    requires Encodable(codec, events) && k <= |events|
    ensures EncodeEvents(codec, events[..k]) <= EncodeEvents(codec, events)
    decreases |events|
  {
    if k == |events| {
      assert events[..k] == events;
    } else {
      var front := events[..|events| - 1];
      EncodeFew(codec, front, k);
      EncodeLast(codec, front, events[|events| - 1]);
      assert front + [events[|events| - 1]] == events && front[..k] == events[..k];
    }
  }

  /** A send that fails after the first `k` events leaves a prefix of the whole stream. */
  lemma SentIsPrefix(codec: DataCodec, events: seq<Event>, k: nat, before: Bytes, sofar: Bytes, written: Bytes, bytes: int)
    requires Encodable(codec, events) && EndFrame(codec).Some? && k < |events|
    requires SentSoFar(codec, events, k, before, sofar, bytes)
    requires written <= sofar + EncodeEvent(codec, events[k]).value
    ensures written <= before + EncodeAll(codec, events)
  {
    var e, done := EncodeEvent(codec, events[k]).value, EncodeEvents(codec, events[..k]);
    EncodeLast(codec, events[..k], events[k]);
    assert events[..k] + [events[k]] == events[..k + 1];
    EncodeFew(codec, events, k + 1);
    Reassociate(before, done, e);
    PrefixExtends(before, done + e, EncodeEvents(codec, events), EndFrame(codec).value);
  }

  lemma PrefixExtends(before: Bytes, few: Bytes, all: Bytes, end: Bytes)
    requires few <= all
    ensures before + few <= before + (all + end)
  {
  }

  /** `stream_out` of these events and `finish`. */
  method StreamOut(sink: ChunkSink, events: seq<Event>) returns (ok: bool)
    modifies sink, sink.stream`outgoing
    ensures ok ==> Encodable(sink.codec, events) && EndFrame(sink.codec).Some?
    ensures ok ==> sink.stream.outgoing == old(sink.stream.outgoing) + EncodeAll(sink.codec, events)
    ensures ok ==> sink.bytesDone == old(sink.bytesDone) + SumBytes(events)
    ensures Encodable(sink.codec, events) && EndFrame(sink.codec).Some? ==>
              sink.stream.outgoing <= old(sink.stream.outgoing) + EncodeAll(sink.codec, events)
  {
    ghost var before, bytes := sink.stream.outgoing, sink.bytesDone;
    assert events[..0] == [];
    for k := 0 to |events|
      invariant SentSoFar(sink.codec, events, k, before, sink.stream.outgoing, sink.bytesDone - bytes)
    {
      ghost var sofar, counted := sink.stream.outgoing, sink.bytesDone - bytes;
      SentOneMore(sink.codec, events, k, before, sofar, counted);
      ok := SendOne(sink, events[k]);
      if !ok {
        if Encodable(sink.codec, events) && EndFrame(sink.codec).Some? {
          SentIsPrefix(sink.codec, events, k, before, sofar, sink.stream.outgoing, counted);
        }
        return;
      }
    }
    AllSent(sink.codec, events, before, sink.stream.outgoing, sink.bytesDone - bytes);
    ok := sink.Finish();
  }

  lemma AllSent(codec: DataCodec, events: seq<Event>, before: Bytes, written: Bytes, bytes: int)
    requires SentSoFar(codec, events, |events|, before, written, bytes)
    ensures Encodable(codec, events) && bytes == SumBytes(events)
    ensures EndFrame(codec).Some? ==> written + EndFrame(codec).value == before + EncodeAll(codec, events)
  {
    assert events[..|events|] == events;
    if EndFrame(codec).Some? {
      Reassociate(before, EncodeEvents(codec, events), EndFrame(codec).value);
    }
  }

  lemma Reassociate(a: Bytes, b: Bytes, c: Bytes)
    ensures (a + b) + c == a + (b + c)
  {
  }

  lemma {:induction false} EncodeLast(codec: DataCodec, events: seq<Event>, e: Event)
    requires Encodable(codec, events) && EncodeEvent(codec, e).Some?
    ensures Encodable(codec, events + [e])
    ensures EncodeEvents(codec, events + [e]) == EncodeEvents(codec, events) + EncodeEvent(codec, e).value
  {
    if |events| == 0 {
      assert events + [e] == [e] && [e][1..] == [];
    } else {
      EncodeLast(codec, events[1..], e);
      assert (events + [e])[1..] == events[1..] + [e];
    }
  }

  /** No frame of this transfer is too long. */
  ghost predicate AllSendable(control: Codec<ControlFrame>, data: DataCodec, plan: Plan, events: seq<Event>) {
    && Framed(control, PlanFrame(plan)).Some? && Framed(control, Done(SumBytes(events), "")).Some?
    && Encodable(data, events) && EndFrame(data).Some?
  }

  /** Everything that a source writes. */
  ghost function Transcript(control: Codec<ControlFrame>, data: DataCodec, plan: Plan, events: seq<Event>): Bytes
    requires AllSendable(control, data, plan, events)
  {
    Framed(control, PlanFrame(plan)).value
      + (EncodeAll(data, events) + Framed(control, Done(SumBytes(events), "")).value)
  }

  /** How far a source may have come. */
  lemma PartOfTranscript(control: Codec<ControlFrame>, data: DataCodec, plan: Plan, events: seq<Event>, b: Bytes, written: Bytes)
    ensures AllSendable(control, data, plan, events) ==>
              var p, all, done := Framed(control, PlanFrame(plan)).value, EncodeAll(data, events), Framed(control, Done(SumBytes(events), "")).value;
              && (written <= b + p ==> written <= b + Transcript(control, data, plan, events))
              && (written <= b + p + all ==> written <= b + Transcript(control, data, plan, events))
              && (written <= b + p + all + done ==> written <= b + Transcript(control, data, plan, events))
              && b + p + all + done == b + Transcript(control, data, plan, events)
  {
    if AllSendable(control, data, plan, events) {
      var p, all, done := Framed(control, PlanFrame(plan)).value, EncodeAll(data, events), Framed(control, Done(SumBytes(events), "")).value;
      assert b + p + all + done == b + (p + (all + done));
    }
  }

  /** `run_source`: success means that everything was written, in order, with the total the sink has
      counted, and that the fingerprint is the same as before. A failure leaves a prefix. */
  method RunSource(stream: ByteStream, control: Codec<ControlFrame>, data: DataCodec, plan: Plan, events: seq<Event>,
                   before: nat, after: nat) returns (ok: bool)
    modifies stream
    ensures ok ==> before == after && AllSendable(control, data, plan, events)
    ensures ok ==> stream.outgoing == old(stream.outgoing) + Transcript(control, data, plan, events)
    ensures AllSendable(control, data, plan, events) ==>
              stream.outgoing <= old(stream.outgoing) + Transcript(control, data, plan, events)
  {
    ghost var b := stream.outgoing;
    var accepted := OfferPlan(stream, control, plan);
    if !accepted {
      PartOfTranscript(control, data, plan, events, b, stream.outgoing);
      return false;
    }
    var sink := new ChunkSink(stream, data);
    ok := StreamOut(sink, events);
    if !ok {
      PartOfTranscript(control, data, plan, events, b, stream.outgoing);
      return false;
    }
    ok := stream.SendFrame(control, Done(sink.bytesDone, ""));
    PartOfTranscript(control, data, plan, events, b, stream.outgoing);
    return ok && before == after;
  }

  lemma DecodeContinues(codec: DataCodec, got: seq<Event>, s: Bytes, e: Event, rest: Bytes)
    requires NextEvent(codec, s) == Got(e, rest)
    ensures Decoded(got + DecodeAll(codec, s).events, DecodeAll(codec, s).last) ==
            Decoded((got + [e]) + DecodeAll(codec, rest).events, DecodeAll(codec, rest).last)
    ensures SumBytes(got + [e]) == SumBytes(got) + PayloadOf(e)
  {
    var later := DecodeAll(codec, rest).events;
    assert got + ([e] + later) == (got + [e]) + later;
    assert (got + [e])[..|got|] == got;
  }

  /** `stream_in` that reads to the end. `got` is what it was handed. */
  method StreamIn(src: ChunkSource) returns (got: seq<Event>, ok: bool)
    modifies src, src.stream`incoming
    ensures got <= DecodeAll(src.codec, old(src.stream.incoming)).events
    ensures ok ==> var d := DecodeAll(src.codec, old(src.stream.incoming));
                   got == d.events && d.last.Ended? && src.stream.incoming == d.last.rest
    ensures src.bytesDone == old(src.bytesDone) + SumBytes(got)
  {
    got := [];
    ghost var whole := DecodeAll(src.codec, src.stream.incoming);
    while true
      invariant whole == Decoded(got + DecodeAll(src.codec, src.stream.incoming).events, DecodeAll(src.codec, src.stream.incoming).last)
      invariant src.bytesDone == old(src.bytesDone) + SumBytes(got)
      decreases |src.stream.incoming|
    {
      ghost var s := src.stream.incoming;
      var next := src.NextChunk();
      if next.Failed? {
        return got, false;
      }
      if next.Ended? {
        assert DecodeAll(src.codec, s) == Decoded([], next);
        return got, true;
      }
      DecodeContinues(src.codec, got, s, next.event, next.rest);
      got := got + [next.event];
    }
  }

  /** `run_destination`. On a rejection nothing more is read; on success the events are those that
      the bytes after the plan decode to. */
  method RunDestination(stream: ByteStream, control: Codec<ControlFrame>, data: DataCodec, preflightOk: bool, accepts: bool)
    returns (got: seq<Event>, ok: bool)
    modifies stream
    ensures !(preflightOk && accepts) ==> !ok && got == []
    ensures ok ==> var r := Receive(control, old(stream.incoming)); r.Frame? && r.frame.PlanFrame?
    ensures ok ==> var d := DecodeAll(data, Receive(control, old(stream.incoming)).rest);
                   got == d.events && d.last.Ended? && !Receive(control, d.last.rest).Faulty?
    ensures got != [] ==>
              var r := Receive(control, old(stream.incoming));
              r.Frame? && r.frame.PlanFrame? && got <= DecodeAll(data, r.rest).events
    ensures ok || got != [] ==> Framed(control, Ack(true, true)).Some? &&
                                stream.outgoing == old(stream.outgoing) + Framed(control, Ack(true, true)).value
  {
    got, ok := [], false;
    var r: Received<ControlFrame> := stream.RecvFrame(control);
    if !r.Frame? || !r.frame.PlanFrame? {
      return;
    }
    var approved := preflightOk && accepts;
    var told := stream.SendFrame(control, Ack(approved, preflightOk));
    if !told || !approved {
      return;
    }
    var src := new ChunkSource(stream, data);
    got, ok := StreamIn(src);
    if !ok {
      return;
    }
    var last: Received<ControlFrame> := stream.RecvFrame(control);
    ok := !last.Faulty? && (last.Frame? ==> !last.frame.Abort?);
  }

  // --------------------------------------------------------------------------- the two together

  /** After the plan, any prefix of what a source writes decodes to the first events. */
  lemma StreamOfPrefix(data: DataCodec, events: seq<Event>, done: Bytes, t: Bytes)
    requires Faithful(data) && Encodable(data, events) && EndFrame(data).Some? && t <= EncodeAll(data, events) + done
    ensures DecodeAll(data, t).events <= events
    ensures t == EncodeAll(data, events) + done ==> DecodeAll(data, t) == Decoded(events, Ended(true, done))
  {
    var all := EncodeAll(data, events);
    if |t| < |all| {
      assert t <= all;
      var k := TruncatedStream(data, events, t);
    } else {
      assert t == all + t[|all|..];
      StreamRoundTrip(data, events, t[|all|..]);
      if t == all + done {
        assert t[|all|..] == done;
      }
    }
  }

  lemma DestinationOfPrefix(control: Codec<ControlFrame>, data: DataCodec, plan: Plan, events: seq<Event>, t: Bytes)
    requires Faithful(control) && Faithful(data) && AllSendable(control, data, plan, events)
    requires t <= Transcript(control, data, plan, events)
    ensures var r := Receive(control, t);
            r.Frame? ==> r.frame == PlanFrame(plan) && DecodeAll(data, r.rest).events <= events
    ensures t == Transcript(control, data, plan, events) ==>
              var r := Receive(control, t); r.Frame? && DecodeAll(data, r.rest).events == events
  {
    var p, done := Framed(control, PlanFrame(plan)).value, Framed(control, Done(SumBytes(events), "")).value;
    var rest := EncodeAll(data, events) + done;
    ReceiveFromPrefix(control, PlanFrame(plan), p, rest, t);
    if |t| >= |p| {
      PrefixTail(p, rest, t);
      StreamOfPrefix(data, events, done, t[|p|..]);
      if t == p + rest {
        assert t[|p|..] == rest;
      }
    }
  }

  /** Both sides as they run, the destination on what the source has written and the source on the
      reply of an accepting destination. Whatever stalls or fails, the destination is handed the first
      events; when the source succeeds, a destination that succeeds has all of them, and has given the
      reply that the source has read. */
  method RunBoth(a: ByteStream, b: ByteStream, control: Codec<ControlFrame>, data: DataCodec, plan: Plan, events: seq<Event>,
                 before: nat, after: nat) returns (sourceOk: bool, got: seq<Event>, destOk: bool)
    requires Faithful(control) && Faithful(data) && AllSendable(control, data, plan, events)
    requires a != b && a.outgoing == [] && b.outgoing == []
    requires Framed(control, Ack(true, true)) == Some(a.incoming)
    modifies a, b
    ensures got <= events
    ensures sourceOk ==> before == after && a.outgoing == Transcript(control, data, plan, events)
    ensures sourceOk && destOk ==> got == events
    ensures destOk ==> b.outgoing == old(a.incoming)
  {
    sourceOk := RunSource(a, control, data, plan, events, before, after);
    b.incoming := a.outgoing;
    assert [] + Transcript(control, data, plan, events) == Transcript(control, data, plan, events);
    DestinationOfPrefix(control, data, plan, events, b.incoming);
    got, destOk := RunDestination(b, control, data, true, true);
    assert [] + old(a.incoming) == old(a.incoming);
  }
}
