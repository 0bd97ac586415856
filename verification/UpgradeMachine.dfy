/** The consumer's relay-to-direct upgrade: the `listen` loop with its one-shot slots, the
    background upgrade tasks, and the server that answers each request in order
    (vendored-from-bore/secret.rs:905-1192, 1327-1338, 1449-1528, 1619-1668).

    Offers and the replies to them carry the number of the attempt they belong to; the program
    itself cannot see it. Attempt 0 stands for the negotiation made at startup, before the loop.
    Timers and the outcome of probing, dialling and brokering are arbitrary. */
module UpgradeMachine {
  import opened Common

  type Attempt = nat

  datatype Request = HintRequest | Offer(attempt: Attempt)

  datatype Reply =
    | Heartbeat
    | Hint
    | Answer(attempt: Attempt, punch: bool)   // UdpPunch, or UdpUnavailable

  datatype TaskPc = Gathering | AwaitPunch | Dialing | Exited

  /** The task's end of a one-shot channel it sends on. */
  datatype OneShot = Pending | Sent | Dropped

  /** The one-shot channel the loop sends the broker's reply on. */
  datatype PunchShot = PunchPending | Delivered(answers: Attempt, punch: bool) | PunchDropped

  datatype Task = Task(pc: TaskPc, cand: OneShot, punch: PunchShot, done: OneShot)

  /** The local variables of the loop. A slot names the attempt whose channel end it holds. */
  datatype Loop = Loop(
    waitingForHint: bool,
    direct: bool,
    candRx: Option<Attempt>,
    punchTx: Option<Attempt>,
    doneRx: Option<Attempt>)

  datatype State = State(
    loop: Loop,
    tasks: seq<Task>,            // tasks[a] belongs to attempt a; tasks[0] is the startup's
    requests: seq<Request>,      // consumer to server, first in first out
    replies: seq<Reply>)         // server to consumer

  datatype Step =
    | TimerFires
    | LoopReceives
    | LoopTakesCandidates
    | LoopTakesDone
    | ServerAnswers(punch: bool)
    | ServerHeartbeat
    | TaskGathers(a: Attempt)
    | TaskGatherFails(a: Attempt)
    | TaskDropsCandidates(a: Attempt)
    | TaskReadsPunch(a: Attempt)
    | TaskDials(a: Attempt, ok: bool)

  // ------------------------------------------------------------------------------ the loop's arms

  const IDLE_TASK := Task(Exited, Dropped, PunchDropped, Dropped)

  predicate MayStart(l: Loop) {
    !l.direct && l.doneRx.None? && !l.waitingForHint
  }

  /** Ask the server for the provider's STUN hint. */
  function OnTimer(l: Loop): Loop {
    l.(waitingForHint := true)
  }

  /** A hint that is waited for spawns the attempt `next`; any other hint is stray. */
  function OnHint(l: Loop, next: Attempt): Loop {
    if l.waitingForHint then Loop(false, l.direct, Some(next), Some(next), Some(next)) else l
  }

  /** `nego_punch_tx.take()` */
  function OnAnswer(l: Loop): Loop {
    l.(punchTx := None)
  }

  /** The task's candidates, or `None` when it dropped the channel. */
  function OnCandidates(l: Loop, sent: bool): Loop {
    if sent then l.(candRx := None) else l.(candRx := None, punchTx := None, doneRx := None)
  }

  function OnDone(l: Loop, connected: bool): Loop {
    Loop(l.waitingForHint, l.direct || connected, None, None, None)
  }

  /** A dropped sender shows at the task's end. */
  function DropPunch(tasks: seq<Task>, slot: Option<Attempt>): seq<Task> {
    if slot.Some? && slot.value < |tasks| && tasks[slot.value].punch.PunchPending?
    then tasks[slot.value := tasks[slot.value].(punch := PunchDropped)] else tasks
  }

  // ----------------------------------------------------------------------------------- the steps

  predicate Enabled(s: State, step: Step) {
    match step
    case TimerFires => MayStart(s.loop)
    case LoopReceives => |s.replies| > 0
    case LoopTakesCandidates =>
      s.loop.candRx.Some? && s.loop.candRx.value < |s.tasks| && !s.tasks[s.loop.candRx.value].cand.Pending?
    case LoopTakesDone =>
      s.loop.doneRx.Some? && s.loop.doneRx.value < |s.tasks| && !s.tasks[s.loop.doneRx.value].done.Pending?
    case ServerAnswers(_) => |s.requests| > 0
    case ServerHeartbeat => true
    case TaskGathers(a) => a < |s.tasks| && s.tasks[a].pc.Gathering?
    case TaskGatherFails(a) => a < |s.tasks| && s.tasks[a].pc.Gathering?
    case TaskDropsCandidates(a) => a < |s.tasks| && s.tasks[a].pc.Exited? && s.tasks[a].cand.Pending?
    case TaskReadsPunch(a) => a < |s.tasks| && s.tasks[a].pc.AwaitPunch? && !s.tasks[a].punch.PunchPending?
    case TaskDials(a, _) => a < |s.tasks| && s.tasks[a].pc.Dialing?
  }

  function AfterReceive(s: State): State
    requires |s.replies| > 0
  {
    var rest := s.(replies := s.replies[1..]);
    match s.replies[0]
    case Heartbeat => rest
    case Hint =>
      if s.loop.waitingForHint then
        rest.(loop := OnHint(s.loop, |s.tasks|), tasks := s.tasks + [Task(Gathering, Pending, PunchPending, Pending)])
      else rest
    case Answer(a, punch) =>
      if s.loop.punchTx.Some? && s.loop.punchTx.value < |s.tasks| then
        var b := s.loop.punchTx.value;
        rest.(loop := OnAnswer(s.loop), tasks := s.tasks[b := s.tasks[b].(punch := Delivered(a, punch))])
      else rest
  }

  function Apply(s: State, step: Step): State
    requires Enabled(s, step)
  {
    match step
    case TimerFires => s.(loop := OnTimer(s.loop), requests := s.requests + [HintRequest])
    case LoopReceives => AfterReceive(s)
    case LoopTakesCandidates =>
      var a := s.loop.candRx.value;
      if s.tasks[a].cand.Sent? then
        s.(loop := OnCandidates(s.loop, true), requests := s.requests + [Offer(a)])
      else
        s.(loop := OnCandidates(s.loop, false), tasks := DropPunch(s.tasks, s.loop.punchTx))
    case LoopTakesDone =>
      var a := s.loop.doneRx.value;
      s.(loop := OnDone(s.loop, s.tasks[a].done.Sent?), tasks := DropPunch(s.tasks, s.loop.punchTx))
    case ServerAnswers(punch) =>
      var reply := match s.requests[0] case HintRequest => Hint case Offer(a) => Answer(a, punch);
      s.(requests := s.requests[1..], replies := s.replies + [reply])
    case ServerHeartbeat => s.(replies := s.replies + [Heartbeat])
    case TaskGathers(a) => s.(tasks := s.tasks[a := s.tasks[a].(pc := AwaitPunch, cand := Sent)])
    case TaskGatherFails(a) =>
      // the channels are dropped one after the other, `done_tx` first
      s.(tasks := s.tasks[a := s.tasks[a].(pc := Exited, done := Dropped)])
    case TaskDropsCandidates(a) => s.(tasks := s.tasks[a := s.tasks[a].(cand := Dropped)])
    case TaskReadsPunch(a) =>
      var t := s.tasks[a];
      s.(tasks := s.tasks[a := if t.punch.Delivered? && t.punch.punch then t.(pc := Dialing)
                               else t.(pc := Exited, done := Dropped)])
    case TaskDials(a, ok) =>
      s.(tasks := s.tasks[a := s.tasks[a].(pc := Exited, done := if ok then Sent else Dropped)])
  }

  predicate Schedule(s: State, steps: seq<Step>)
    decreases |steps|
  {
    |steps| > 0 ==> Enabled(s, steps[0]) && Schedule(Apply(s, steps[0]), steps[1..])
  }

  function Outcome(s: State, steps: seq<Step>): State
    requires Schedule(s, steps)
    decreases |steps|
  {
    if |steps| == 0 then s else Outcome(Apply(s, steps[0]), steps[1..])
  }

  // --------------------------------------------------------------------------------- the invariant

  /** What is on its way to the loop, in the order it will arrive: the replies, then the replies to
      the requests. `None` is a hint, `Some(a)` a reply to the offer of attempt `a`. */
  function ReplyTags(replies: seq<Reply>): seq<Option<Attempt>> {
    if |replies| == 0 then []
    else
      var rest := ReplyTags(replies[1..]);
      match replies[0]
      case Heartbeat => rest
      case Hint => [None] + rest
      case Answer(a, _) => [Some(a)] + rest
  }

  function RequestTags(requests: seq<Request>): seq<Option<Attempt>> {
    if |requests| == 0 then []
    else
      (match requests[0] case HintRequest => [None] case Offer(a) => [Some(a)]) + RequestTags(requests[1..])
  }

  function Pipe(s: State): seq<Option<Attempt>> {
    ReplyTags(s.replies) + RequestTags(s.requests)
  }

  /** What the startup negotiation may leave behind: nothing, a hint that came too late, or a reply
      to its offer that came too late; still queued at the server or already on its way. */
  predicate Init(s: State) {
    && s.tasks == [IDLE_TASK]
    && !s.loop.waitingForHint && s.loop.candRx.None? && s.loop.punchTx.None? && s.loop.doneRx.None?
    && (Pipe(s) == [] || (!s.loop.direct && (Pipe(s) == [None] || Pipe(s) == [Some(0)])))
  }

  predicate HintComing(pipe: seq<Option<Attempt>>) {
    exists k :: 0 <= k < |pipe| && pipe[k].None?
  }

  predicate NoAnswers(pipe: seq<Option<Attempt>>) {
    forall k :: 0 <= k < |pipe| ==> pipe[k].None?
  }

  /** The only answer on its way is for `a`. */
  predicate OneAnswer(pipe: seq<Option<Attempt>>, a: Attempt) {
    exists k :: 0 <= k < |pipe| && pipe[k] == Some(a) && NoAnswers(pipe[..k]) && NoAnswers(pipe[k + 1..])
  }

  /** The loop's own bookkeeping. */
  predicate LoopOk(l: Loop) {
    && (l.doneRx.None? ==> l.candRx.None? && l.punchTx.None?)
    && (l.candRx.Some? ==> l.candRx == l.doneRx && l.punchTx == l.doneRx)
    && (l.punchTx.Some? ==> l.punchTx == l.doneRx)
    && (l.waitingForHint ==> l.doneRx.None? && !l.direct)
    && (l.direct ==> l.doneRx.None?)
  }

  /** The task of the attempt in flight, as far as the slots tell. */
  predicate CurrentTaskOk(l: Loop, t: Task) {
    && (l.candRx.Some? ==>
          && t.punch.PunchPending?
          && (t.pc.Gathering? ==> t.cand.Pending? && t.done.Pending?)
          && (t.pc.AwaitPunch? ==> t.cand.Sent? && t.done.Pending?)
          && !t.pc.Dialing?
          && (t.pc.Exited? ==> !t.cand.Sent? && t.done.Dropped?))
    && (l.candRx.None? && l.punchTx.Some? ==> t.pc.AwaitPunch? && t.punch.PunchPending? && t.done.Pending?)
    && (l.candRx.None? && l.punchTx.None? ==>
          && t.punch.Delivered? && !t.pc.Gathering?
          && (t.pc.Exited? <==> !t.done.Pending?))
  }

  /** A task no slot refers to is over. */
  predicate TasksOk(s: State) {
    && 0 < |s.tasks|
    && (s.loop.doneRx.Some? ==> 0 < s.loop.doneRx.value < |s.tasks| && CurrentTaskOk(s.loop, s.tasks[s.loop.doneRx.value]))
    && (forall a :: 0 <= a < |s.tasks| && s.loop.doneRx != Some(a) ==> s.tasks[a].pc.Exited?)
    && (forall a :: 0 <= a < |s.tasks| && s.tasks[a].punch.Delivered? ==> s.tasks[a].punch.answers == a)
  }

  /** Which replies are on their way. A leftover of the startup comes before every hint. */
  predicate PipeOk(s: State) {
    var pipe := Pipe(s);
    && (s.loop.waitingForHint ==> HintComing(pipe))
    && if s.loop.punchTx.Some? && s.loop.candRx.None? then OneAnswer(pipe, s.loop.punchTx.value)
       else NoAnswers(pipe)
            || (s.loop.doneRx.None? && |pipe| > 0 && pipe[0] == Some(0) && NoAnswers(pipe[1..]))
  }

  predicate Inv(s: State) {
    LoopOk(s.loop) && TasksOk(s) && PipeOk(s)
  }

  // ------------------------------------------------------------------------ how the pipe changes

  lemma {:induction false} ReplyTagsAppend(replies: seq<Reply>, r: Reply)
    ensures ReplyTags(replies + [r]) == ReplyTags(replies) + ReplyTags([r])
  {
    if |replies| == 0 {
      assert replies + [r] == [r];
    } else {
      assert (replies + [r])[1..] == replies[1..] + [r];
      ReplyTagsAppend(replies[1..], r);
    }
  }

  lemma {:induction false} RequestTagsAppend(requests: seq<Request>, r: Request)
    ensures RequestTags(requests + [r]) == RequestTags(requests) + RequestTags([r])
  {
    if |requests| == 0 {
      assert requests + [r] == [r];
    } else {
      assert (requests + [r])[1..] == requests[1..] + [r];
      RequestTagsAppend(requests[1..], r);
    }
  }

  lemma TagOfOne(r: Request)
    ensures RequestTags([r]) == [if r.Offer? then Some(r.attempt) else None]
  {
    assert [r][1..] == [];
  }

  /** A request adds its reply at the end of the pipe. */
  lemma RequestExtendsPipe(s: State, r: Request)
    ensures Pipe(s.(requests := s.requests + [r])) == Pipe(s) + [if r.Offer? then Some(r.attempt) else None]
  {
    RequestTagsAppend(s.requests, r);
    TagOfOne(r);
  }

  /** Answering a request does not change what arrives, nor in what order. */
  lemma AnswerKeepsPipe(s: State, punch: bool)
    requires |s.requests| > 0
    ensures Pipe(Apply(s, ServerAnswers(punch))) == Pipe(s)
  {
    var s' := Apply(s, ServerAnswers(punch));
    var reply := s'.replies[|s'.replies| - 1];
    ReplyTagsAppend(s.replies, reply);
    assert [reply][1..] == [];
    assert Pipe(s') == ReplyTags(s.replies) + (ReplyTags([reply]) + RequestTags(s.requests[1..]));
  }

  lemma HeartbeatKeepsPipe(s: State)
    ensures Pipe(s.(replies := s.replies + [Heartbeat])) == Pipe(s)
  {
    ReplyTagsAppend(s.replies, Heartbeat);
    assert [Heartbeat][1..] == [];
  }

  /** Receiving takes the first element off the pipe. */
  lemma ReceiveShortensPipe(s: State)
    requires |s.replies| > 0
    ensures var rest := s.(replies := s.replies[1..]);
            match s.replies[0]
            case Heartbeat => Pipe(rest) == Pipe(s)
            case Hint => Pipe(s) == [None] + Pipe(rest)
            case Answer(a, _) => Pipe(s) == [Some(a)] + Pipe(rest)
  {
  }

  lemma AppendAnswer(pipe: seq<Option<Attempt>>, a: Attempt)
    requires NoAnswers(pipe)
    ensures OneAnswer(pipe + [Some(a)], a)
  {
    var longer := pipe + [Some(a)];
    assert longer[..|pipe|] == pipe && longer[|pipe| + 1..] == [];
    assert longer[|pipe|] == Some(a);
  }

  lemma TailOfOneAnswer(pipe: seq<Option<Attempt>>, tail: seq<Option<Attempt>>, a: Attempt, head: Option<Attempt>)
    requires OneAnswer(pipe, a) && pipe == [head] + tail
    ensures if head.Some? then head == Some(a) && NoAnswers(tail) else OneAnswer(tail, a)
  {
    var k :| 0 <= k < |pipe| && pipe[k] == Some(a) && NoAnswers(pipe[..k]) && NoAnswers(pipe[k + 1..]);
    if k == 0 {
      assert pipe[1..] == tail;
    } else {
      assert pipe[..k][0] == head;
      assert tail[k - 1] == Some(a);
      assert tail[k..] == pipe[k + 1..];
      assert tail[..k - 1] == pipe[..k][1..];
    }
  }

  // ------------------------------------------------------------------------------ step by step

  lemma LongerPipe(pipe: seq<Option<Attempt>>)
    ensures NoAnswers(pipe) ==> NoAnswers(pipe + [None])
    ensures |pipe| > 0 && NoAnswers(pipe[1..]) ==> NoAnswers((pipe + [None])[1..])
    ensures HintComing(pipe + [None])
  {
    assert (pipe + [None])[|pipe|].None?;
    if |pipe| > 0 {
      assert (pipe + [None])[1..] == pipe[1..] + [None];
    }
  }

  lemma TimerKeepsInv(s: State)
    requires Inv(s) && MayStart(s.loop)
    ensures Inv(Apply(s, TimerFires))
  {
    RequestExtendsPipe(s, HintRequest);
    LongerPipe(Pipe(s));
    assert Pipe(Apply(s, TimerFires)) == Pipe(s) + [None];
  }

  lemma TailHasNoAnswers(pipe: seq<Option<Attempt>>, head: Option<Attempt>, tail: seq<Option<Attempt>>)
    requires pipe == [head] + tail
    ensures NoAnswers(pipe) ==> NoAnswers(tail) && head.None?
    ensures pipe[1..] == tail
  {
    assert pipe[0] == head;
    assert forall k :: 0 <= k < |tail| ==> tail[k] == pipe[k + 1];
  }

  /** A hint arrives. It cannot overtake a leftover reply, so a new attempt starts with none. */
  lemma HintKeepsInv(s: State)
    requires Inv(s) && |s.replies| > 0 && s.replies[0].Hint?
    ensures Inv(AfterReceive(s))
    ensures s.loop.waitingForHint ==> NoAnswers(Pipe(AfterReceive(s)))
  {
    var rest := s.(replies := s.replies[1..]);
    ReceiveShortensPipe(s);
    assert Pipe(AfterReceive(s)) == Pipe(rest);
    TailHasNoAnswers(Pipe(s), None, Pipe(rest));
    if s.loop.punchTx.Some? && s.loop.candRx.None? {
      TailOfOneAnswer(Pipe(s), Pipe(rest), s.loop.punchTx.value, None);
    }
  }

  /** A reply arrives: it answers the offer of the attempt that takes it, or nobody takes it. */
  lemma AnswerKeepsInv(s: State)
    requires Inv(s) && |s.replies| > 0 && s.replies[0].Answer?
    ensures Inv(AfterReceive(s))
    ensures s.loop.punchTx.Some? ==> s.loop.punchTx == Some(s.replies[0].attempt)
    ensures s.loop.punchTx.None? ==> s.replies[0].attempt == 0
  {
    var rest := s.(replies := s.replies[1..]);
    var a := s.replies[0].attempt;
    ReceiveShortensPipe(s);
    assert Pipe(AfterReceive(s)) == Pipe(rest);
    TailHasNoAnswers(Pipe(s), Some(a), Pipe(rest));
    if s.loop.punchTx.Some? && s.loop.candRx.None? {
      TailOfOneAnswer(Pipe(s), Pipe(rest), s.loop.punchTx.value, Some(a));
    }
    if s.loop.waitingForHint {
      var k :| 0 <= k < |Pipe(s)| && Pipe(s)[k].None?;
      assert Pipe(rest)[k - 1].None?;
    }
  }

  lemma HeartbeatReceivedKeepsInv(s: State)
    requires Inv(s) && |s.replies| > 0 && s.replies[0].Heartbeat?
    ensures Inv(AfterReceive(s))
  {
    ReceiveShortensPipe(s);
  }

  lemma CandidatesKeepInv(s: State)
    requires Inv(s) && Enabled(s, LoopTakesCandidates)
    ensures Inv(Apply(s, LoopTakesCandidates))
  {
    var a := s.loop.candRx.value;
    var s' := Apply(s, LoopTakesCandidates);
    if s.tasks[a].cand.Sent? {
      RequestExtendsPipe(s, Offer(a));
      assert Pipe(s') == Pipe(s) + [Some(a)];
      AppendAnswer(Pipe(s), a);
    } else {
      assert Pipe(s') == Pipe(s);
    }
  }

  lemma DoneKeepsInv(s: State)
    requires Inv(s) && Enabled(s, LoopTakesDone)
    ensures Inv(Apply(s, LoopTakesDone))
  {
    assert Pipe(Apply(s, LoopTakesDone)) == Pipe(s);
  }

  lemma TaskStepKeepsInv(s: State, step: Step)
    requires Inv(s) && Enabled(s, step)
    requires step.TaskGathers? || step.TaskGatherFails? || step.TaskDropsCandidates? || step.TaskReadsPunch? || step.TaskDials?
    ensures Inv(Apply(s, step))
  {
    assert Pipe(Apply(s, step)) == Pipe(s);
  }

  lemma StepKeepsInv(s: State, step: Step)
    requires Inv(s) && Enabled(s, step)
    ensures Inv(Apply(s, step))
  {
    match step
    case TimerFires => TimerKeepsInv(s);
    case LoopReceives =>
      match s.replies[0] {
        case Heartbeat => HeartbeatReceivedKeepsInv(s);
        case Hint => HintKeepsInv(s);
        case Answer(_, _) => AnswerKeepsInv(s);
      }
    case LoopTakesCandidates => CandidatesKeepInv(s);
    case LoopTakesDone => DoneKeepsInv(s);
    case ServerAnswers(punch) => AnswerKeepsPipe(s, punch);
    case ServerHeartbeat => HeartbeatKeepsPipe(s);
    case _ => TaskStepKeepsInv(s, step);
  }

  lemma InitInv(s: State)
    requires Init(s)
    ensures Inv(s)
  {
    assert |Pipe(s)| <= 1;
  }

  lemma {:induction false} ScheduleKeepsInv(s: State, steps: seq<Step>)
    requires Inv(s) && Schedule(s, steps)
    ensures Inv(Outcome(s, steps))
    decreases |steps|
  {
    if |steps| > 0 {
      StepKeepsInv(s, steps[0]);
      ScheduleKeepsInv(Apply(s, steps[0]), steps[1..]);
    }
  }

  // ------------------------------------------------------------------------------- the theorems

  predicate Running(t: Task) {
    !t.pc.Exited?
  }

  /** At most one attempt is in flight, the slots agree on it, and it is none while the loop waits
      for a hint or is direct. */
  lemma AtMostOneAttempt(s: State, steps: seq<Step>)
    requires Init(s) && Schedule(s, steps)
    ensures var end := Outcome(s, steps);
            && (forall a, b :: 0 <= a < |end.tasks| && 0 <= b < |end.tasks| && Running(end.tasks[a]) && Running(end.tasks[b]) ==> a == b)
            && (forall a :: 0 <= a < |end.tasks| && Running(end.tasks[a]) ==> end.loop.doneRx == Some(a))
            && (end.loop.doneRx.None? ==> end.loop.candRx.None? && end.loop.punchTx.None?)
            && (end.loop.waitingForHint || end.loop.direct ==> end.loop.doneRx.None?)
            && !(end.loop.waitingForHint && end.loop.direct)
  {
    InitInv(s);
    ScheduleKeepsInv(s, steps);
  }

  /** A `UdpPunch` or `UdpUnavailable` is only ever delivered to the attempt whose offer it answers,
      whatever the startup left behind. */
  lemma RepliesReachTheirAttempt(s: State, steps: seq<Step>)
    requires Init(s) && Schedule(s, steps)
    ensures var end := Outcome(s, steps);
            forall a :: 0 <= a < |end.tasks| && end.tasks[a].punch.Delivered? ==> end.tasks[a].punch.answers == a
    ensures var end := Outcome(s, steps);
            |end.replies| > 0 && end.replies[0].Answer? ==>
              end.loop.punchTx == Some(end.replies[0].attempt) || (end.loop.punchTx.None? && end.replies[0].attempt == 0)
  {
    InitInv(s);
    ScheduleKeepsInv(s, steps);
    var end := Outcome(s, steps);
    if |end.replies| > 0 && end.replies[0].Answer? {
      AnswerKeepsInv(end);
    }
  }

  /** Nobody waits in vain: a hint is on its way to a loop that waits for one, and the reply to its
      offer is on its way to an attempt that waits for that. */
  lemma NobodyWaitsInVain(s: State, steps: seq<Step>)
    requires Init(s) && Schedule(s, steps)
    ensures var end := Outcome(s, steps);
            && (end.loop.waitingForHint ==> HintComing(Pipe(end)))
            && (end.loop.punchTx.Some? && end.loop.candRx.None? ==>
                  && end.loop.punchTx.value < |end.tasks|
                  && end.tasks[end.loop.punchTx.value].pc.AwaitPunch?
                  && OneAnswer(Pipe(end), end.loop.punchTx.value))
  {
    InitInv(s);
    ScheduleKeepsInv(s, steps);
  }

  // ------------------------------------------------------------------------- the loop as it runs

  /** The loop's local variables, updated in place by its `select!` arms. `sent` is what it has put
      on the control channel. */
  class ListenLoop {
    var waitingForHint: bool
    var direct: bool
    var candRx: Option<Attempt>
    var punchTx: Option<Attempt>
    var doneRx: Option<Attempt>
    var spawned: Attempt
    var sent: seq<Request>

    function View(): Loop
      reads this
    {
      Loop(waitingForHint, direct, candRx, punchTx, doneRx)
    }

    constructor (direct: bool)
      ensures View() == Loop(false, direct, None, None, None) && spawned == 0 && sent == []
    {
      waitingForHint, this.direct := false, direct;
      candRx, punchTx, doneRx := None, None, None;
      spawned, sent := 0, [];
    }

    /** The head of the loop: `due` is the backoff timer. */
    method Tick(due: bool)
      modifies this`waitingForHint, this`sent
      ensures due && MayStart(old(View())) ==> View() == OnTimer(old(View())) && sent == old(sent) + [HintRequest]
      ensures !(due && MayStart(old(View()))) ==> View() == old(View()) && sent == old(sent)
    {
      if !direct && doneRx.None? && !waitingForHint && due {
        sent := sent + [HintRequest];
        waitingForHint := true;
      }
    }

    /** A frame on the control channel. `to` is the attempt a broker reply is handed to. */
    method Receive(reply: Reply) returns (to: Option<Attempt>)
      modifies this
      ensures sent == old(sent) && spawned == old(spawned) + if reply.Hint? && old(waitingForHint) then 1 else 0
      ensures View() == match reply
                        case Heartbeat => old(View())
                        case Hint => OnHint(old(View()), old(spawned) + 1)
                        case Answer(_, _) => OnAnswer(old(View()))
      ensures to == if reply.Answer? then old(punchTx) else None
    {
      to := None;
      match reply {
        case Heartbeat =>
        case Hint =>
          if waitingForHint {
            waitingForHint := false;
            spawned := spawned + 1;
            candRx := Some(spawned);
            punchTx := Some(spawned);
            doneRx := Some(spawned);
          }
        case Answer(_, _) =>
          to := punchTx;
          punchTx := None;
      }
    }

    /** The candidates arm, once `recv_opt` has cleared the slot. */
    method TakeCandidates(offered: bool)
      requires candRx.Some?
      modifies this`candRx, this`punchTx, this`doneRx, this`sent
      ensures View() == OnCandidates(old(View()), offered)
      ensures sent == if offered then old(sent) + [Offer(old(candRx).value)] else old(sent)
    {
      var a := candRx.value;
      candRx := None;
      if offered {
        sent := sent + [Offer(a)];
      } else {
        punchTx := None;
        doneRx := None;
      }
    }

    /** The done arm. */
    method TakeDone(connected: bool)
      requires doneRx.Some?
      modifies this`candRx, this`punchTx, this`doneRx, this`direct
      ensures View() == OnDone(old(View()), connected)
    {
      doneRx := None;
      candRx := None;
      punchTx := None;
      if connected {
        direct := true;
      }
    }
  }
}
