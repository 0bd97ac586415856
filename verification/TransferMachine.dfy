/** A chunked transfer as the concurrent machine it is: sender workers drain one shared queue into
    their data streams, receiver workers write, mark and flush under two locks, the page cache
    writes back when it likes, and either side may fail, lose power and resume; an accepted transfer
    is committed, perhaps in part, one that is declined is removed, perhaps in part, and both may be
    resumed even then (vendored-from-bore/transfer.rs:891-1001, 1101-1115, 1176-1203, 1233-1237, 1450-1555, 1622-1866, 2083-2181,
    2793-2920).

    A step is one critical section, one frame sent or received, or one write call. A write puts
    its bytes into the volatile file when it returns. Digests are injective and the source files
    do not change. Syncs and renames of the state file succeed while a run lasts; a run may stop
    anywhere, and so may a commit and the removal of a declined transfer's stage. */
module TransferMachine {
  import opened Common
  import opened Chunking
  import opened ManifestTypes
  import opened ResumePlan
  import opened ResumeState

  /** What the sender offers: the accepted manifest and the content of its regular files. */
  datatype Config = Config(entries: seq<ManifestEntry>, source: Files)

  predicate ValidConfig(c: Config) {
    && UniqueIds(c.entries)
    && SoundFiles(c.entries)
    && (forall k :: 0 <= k < |c.entries| && c.entries[k].kind.RegularFile? ==>
          && c.entries[k].id in c.source
          && c.entries[k].size == Some(|c.source[c.entries[k].id]|)
          && c.entries[k].fullHash == Some(Blake3(c.source[c.entries[k].id])))
    && (forall e :: e in c.source ==> IsRegular(c, e))
  }

  predicate IsRegular(c: Config, e: FileId) {
    e in ById(c.entries) && ById(c.entries)[e].kind.RegularFile?
  }

  /** Frames on a data stream, from the sender to the receiver. */
  datatype Message =
    | WorkerHello
    | ChunkStart(task: ChunkTask, digest: Digest, payload: Bytes)
    | WorkerDone

  datatype SenderPc =
    | Connecting
    | Popping
    | Holding(task: ChunkTask)
    | AwaitComplete
    | Finished
    | SenderFailed

  /** Where a receiver worker goes once its flush is over. */
  datatype After = ThenReceive | ThenComplete | ThenDone | ThenFailed

  datatype ReceiverPc =
    | AwaitHello
    | Receiving
    | Writing(task: ChunkTask, payload: Bytes, written: nat)
    | WantFlush(after: After)     // waits for `persist_lock`
    | Flushing(after: After)      // holds `persist_lock`
    | Done
    | ReceiverFailed

  /** One data stream with the worker at each end; `completed` is the WorkerComplete frame. */
  datatype Link = Link(tx: SenderPc, wire: seq<Message>, rx: ReceiverPc, completed: bool)

  const IDLE := Link(Connecting, [], AwaitHello, false)

  /** A flush between its snapshot and its rename. */
  datatype Job = Job(holder: nat, snapshot: Flags, left: set<FileId>)

  /** The receiver's shared state and disk. `persisted` holds every version of the state file ever
      renamed into place: the rename is not synced, so a power failure may bring any of them back,
      or none. `gone` are the files that have left the stage: moved by a commit, or removed when
      the transfer was declined. A run that found a hash mismatch, has begun to commit or was declined
      has `stopped`. */
  datatype Store = Store(
    rt: Runtime,
    resumed: Flags,
    job: Option<Job>,
    volatile: Files,
    durable: Files,
    persisted: set<Flags>,
    gone: set<FileId>,
    stopped: bool)

  datatype State = State(store: Store, queue: seq<ChunkTask>, links: seq<Link>)

  datatype Step =
    | SendHello(w: nat)
    | Pop(w: nat)
    | SendChunk(w: nat)
    | Receive(w: nat)
    | WriteSome(w: nat, n: nat)
    | MarkChunk(w: nat)
    | BeginFlush(w: nat)
    | SyncFile(w: nat, e: FileId)
    | PersistState(w: nat)
    | ReadComplete(w: nat)
    | Writeback(e: FileId, lo: nat, hi: nat)
    | FailSender(w: nat)
    | FailReceiver(w: nat)
    | ResetAfterMismatch(e: FileId)
    | CommitStage(moved: set<FileId>, settled: set<FileId>)
    | DeclineStage(removed: set<FileId>, settled: set<FileId>)
    | Restart(powerLoss: bool, found: Option<Flags>, parallel: nat)

  function JobLeft(job: Option<Job>): set<FileId> {
    if job.Some? then job.value.left else {}
  }

  // ------------------------------------------------------------------------ files and bitmaps

  predicate FlagsLayout(c: Config, flags: Flags) {
    flags.Keys == c.source.Keys
    && forall e :: e in c.source ==> |flags[e]| == ChunkCountFor(|c.source[e]|)
  }

  predicate FilesLayout(c: Config, files: Files) {
    files.Keys == c.source.Keys && forall e :: e in c.source ==> |files[e]| == |c.source[e]|
  }

  function FreshFlags(c: Config): (flags: Flags) {
    map e | e in c.source :: AllFalse(ChunkCountFor(|c.source[e]|))
  }

  function Overwrite(content: Bytes, at: nat, data: Bytes): (r: Bytes)
    requires at + |data| <= |content|
  {
    content[..at] + data + content[at + |data|..]
  }

  /** The regular files in manifest order, as the verification loop visits them. */
  function Specs(entries: seq<ManifestEntry>): seq<FileSpec> {
    if |entries| == 0 then []
    else
      var last := entries[|entries| - 1];
      var before := Specs(entries[..|entries| - 1]);
      if last.kind.RegularFile? && last.fullHash.Some?
      then before + [FileSpec(last.id, last.chunkCount, last.fullHash.value)] else before
  }

  // --------------------------------------------------------------------------------- the steps

  /** The state at the start of a run that found the bitmaps `flags`; a fresh state file comes with
      an empty plan. */
  function StartRun(c: Config, flags: Flags, fromScratch: bool, volatile: Files, durable: Files,
                    persisted: set<Flags>, gone: set<FileId>, parallel: nat): State
    requires ValidConfig(c) && FlagsLayout(c, flags)
  {
    FlagsFitEntries(c, flags);
    var plan := if fromScratch then [] else PlanOf(c.entries, flags).1;
    var tasks := Tasks(c.entries, Completed(plan));
    State(Store(Runtime(flags, map[], {}, 0), flags, None, volatile, durable, persisted, gone, false), tasks,
          seq(SenderConnections(tasks, ClampParallel(parallel)), _ => IDLE))
  }

  lemma FlagsFitEntries(c: Config, flags: Flags)
    requires ValidConfig(c) && FlagsLayout(c, flags)
    ensures FlagsFit(c.entries, flags)
  {
    forall k | 0 <= k < |c.entries| && c.entries[k].kind.RegularFile?
      ensures c.entries[k].id in flags && |flags[c.entries[k].id]| == c.entries[k].chunkCount
    {
      assert SoundFile(c.entries[k]);
    }
  }

  predicate CanSendHello(s: State, w: nat) {
    w < |s.links| && s.links[w].tx.Connecting?
  }

  function AfterSendHello(s: State, w: nat): State
    requires CanSendHello(s, w)
  {
    var l := s.links[w];
    s.(links := s.links[w := l.(tx := Popping, wire := l.wire + [WorkerHello])])
  }

  predicate CanPop(s: State, w: nat) {
    w < |s.links| && s.links[w].tx.Popping?
  }

  /** The next task, or WorkerDone when the queue is empty. */
  function AfterPop(s: State, w: nat): State
    requires CanPop(s, w)
  {
    var l := s.links[w];
    if |s.queue| == 0 then s.(links := s.links[w := l.(tx := AwaitComplete, wire := l.wire + [WorkerDone])])
    else s.(queue := s.queue[1..], links := s.links[w := l.(tx := Holding(s.queue[0]))])
  }

  predicate CanSendChunk(c: Config, s: State, w: nat) {
    && w < |s.links| && s.links[w].tx.Holding?
    && var t := s.links[w].tx.task; t.entryId in c.source && t.offset + t.len <= |c.source[t.entryId]|
  }

  /** The chunk as the sender frames it: what it reads from its file, and the digest of that. */
  function ChunkMessage(c: Config, t: ChunkTask): Message
    requires t.entryId in c.source && t.offset + t.len <= |c.source[t.entryId]|
  {
    var payload := c.source[t.entryId][t.offset..t.offset + t.len];
    ChunkStart(t, Blake3(payload), payload)
  }

  function AfterSendChunk(c: Config, s: State, w: nat): State
    requires CanSendChunk(c, s, w)
  {
    var l := s.links[w];
    s.(links := s.links[w := l.(tx := Popping, wire := l.wire + [ChunkMessage(c, l.tx.task)])])
  }

  predicate CanReceive(s: State, w: nat) {
    w < |s.links| && |s.links[w].wire| > 0 && (s.links[w].rx.AwaitHello? || s.links[w].rx.Receiving?)
  }

  /** What a receiver worker does with the next frame. */
  function OnMessage(c: Config, flags: Flags, rx: ReceiverPc, m: Message): ReceiverPc {
    if rx.AwaitHello? then
      if m.WorkerHello? then Receiving else ReceiverFailed
    else
      match m
      case WorkerHello => WantFlush(ThenFailed)
      case WorkerDone => WantFlush(ThenComplete)
      case ChunkStart(t, digest, payload) =>
        if !IsRegular(c, t.entryId) then WantFlush(ThenFailed)
        else if ValidateChunkGeometry(ById(c.entries)[t.entryId], t.chunkIndex, t.offset, t.len).Err?
        then WantFlush(ThenFailed)
        else if |payload| != t.len || Blake3(payload) != digest then WantFlush(ThenFailed)
        else if IsFlagged(flags, t.entryId, t.chunkIndex) then Receiving
        else Writing(t, payload, 0)
  }

  function AfterReceive(c: Config, s: State, w: nat): State
    requires CanReceive(s, w)
  {
    var l := s.links[w];
    s.(links := s.links[w := l.(wire := l.wire[1..], rx := OnMessage(c, s.store.rt.flags, l.rx, l.wire[0]))])
  }

  predicate CanWriteSome(s: State, w: nat, n: nat) {
    && w < |s.links| && s.links[w].rx.Writing?
    && 0 < n && s.links[w].rx.written + n <= |s.links[w].rx.payload|
    && s.links[w].rx.task.entryId in s.store.volatile
    && s.links[w].rx.task.offset + |s.links[w].rx.payload| <= |s.store.volatile[s.links[w].rx.task.entryId]|
  }

  /** The next `n` bytes of a payload land in the file. */
  function WritePiece(files: Files, t: ChunkTask, payload: Bytes, written: nat, n: nat): Files
    requires t.entryId in files && written + n <= |payload| && t.offset + |payload| <= |files[t.entryId]|
  {
    files[t.entryId := Overwrite(files[t.entryId], t.offset + written, payload[written..written + n])]
  }

  function AfterWriteSome(s: State, w: nat, n: nat): State
    requires CanWriteSome(s, w, n)
  {
    var l := s.links[w];
    s.(store := s.store.(volatile := WritePiece(s.store.volatile, l.rx.task, l.rx.payload, l.rx.written, n)),
       links := s.links[w := l.(rx := l.rx.(written := l.rx.written + n))])
  }

  predicate CanMarkChunk(s: State, w: nat) {
    && w < |s.links| && s.links[w].rx.Writing?
    && s.links[w].rx.written == |s.links[w].rx.payload|
    && HasSlot(s.store.rt.flags, s.links[w].rx.task.entryId, s.links[w].rx.task.chunkIndex)
  }

  function AfterMarkChunk(s: State, w: nat): State
    requires CanMarkChunk(s, w)
  {
    var l := s.links[w];
    var rt := Mark(s.store.rt, l.rx.task.entryId, l.rx.task.chunkIndex);
    s.(store := s.store.(rt := rt),
       links := s.links[w := l.(rx := if rt.pending >= FLUSH_EVERY_CHUNKS then WantFlush(ThenReceive) else Receiving)])
  }

  predicate CanBeginFlush(s: State, w: nat) {
    w < |s.links| && s.links[w].rx.WantFlush? && s.store.job.None?
  }

  /** A flush is over: the worker goes on to what it meant to do. */
  function AfterFlush(l: Link, after: After): Link {
    match after
    case ThenReceive => l.(rx := Receiving)
    case ThenComplete => l.(rx := WantFlush(ThenDone), completed := true)
    case ThenDone => l.(rx := Done)
    case ThenFailed => l.(rx := ReceiverFailed)
  }

  function AfterBeginFlush(s: State, w: nat): State
    requires CanBeginFlush(s, w)
  {
    var l := s.links[w];
    if NothingToFlush(s.store.rt) then s.(links := s.links[w := AfterFlush(l, l.rx.after)])
    else s.(store := s.store.(job := Some(Job(w, s.store.rt.flags, s.store.rt.dirty)), rt := AfterSnapshot(s.store.rt)),
            links := s.links[w := l.(rx := Flushing(l.rx.after))])
  }

  predicate CanSyncFile(s: State, w: nat, e: FileId) {
    && w < |s.links| && s.links[w].rx.Flushing?
    && s.store.job.Some? && s.store.job.value.holder == w && e in s.store.job.value.left
    && e in s.store.volatile
  }

  function AfterSyncFile(s: State, w: nat, e: FileId): State
    requires CanSyncFile(s, w, e)
  {
    s.(store := s.store.(durable := s.store.durable[e := s.store.volatile[e]],
                         job := Some(s.store.job.value.(left := s.store.job.value.left - {e}))))
  }

  predicate CanPersistState(s: State, w: nat) {
    && w < |s.links| && s.links[w].rx.Flushing?
    && s.store.job.Some? && s.store.job.value.holder == w && s.store.job.value.left == {}
  }

  function AfterPersistState(s: State, w: nat): State
    requires CanPersistState(s, w)
  {
    var l := s.links[w];
    s.(store := s.store.(persisted := s.store.persisted + {s.store.job.value.snapshot}, job := None),
       links := s.links[w := AfterFlush(l, l.rx.after)])
  }

  predicate CanReadComplete(s: State, w: nat) {
    w < |s.links| && s.links[w].tx.AwaitComplete? && s.links[w].completed
  }

  function AfterReadComplete(s: State, w: nat): State
    requires CanReadComplete(s, w)
  {
    s.(links := s.links[w := s.links[w].(tx := Finished)])
  }

  predicate CanWriteback(s: State, e: FileId, lo: nat, hi: nat) {
    e in s.store.volatile && e in s.store.durable && lo <= hi <= |s.store.volatile[e]| && |s.store.durable[e]| == |s.store.volatile[e]|
  }

  function AfterWriteback(s: State, e: FileId, lo: nat, hi: nat): State
    requires CanWriteback(s, e, lo, hi)
  {
    s.(store := s.store.(durable := s.store.durable[e := Overwrite(s.store.durable[e], lo, s.store.volatile[e][lo..hi])]))
  }

  function AfterFailSender(s: State, w: nat): State
    requires w < |s.links|
  {
    s.(links := s.links[w := s.links[w].(tx := SenderFailed)])
  }

  predicate CanFailReceiver(s: State, w: nat) {
    w < |s.links| && (s.links[w].rx.AwaitHello? || s.links[w].rx.Receiving? || s.links[w].rx.Writing?)
  }

  /** A worker that fails after its hello still flushes. */
  function AfterFailReceiver(s: State, w: nat): State
    requires CanFailReceiver(s, w)
  {
    var l := s.links[w];
    s.(links := s.links[w := l.(rx := if l.rx.AwaitHello? then ReceiverFailed else WantFlush(ThenFailed))])
  }

  predicate SpecsKnown(c: Config, s: State) {
    Known(s.store.rt, s.store.volatile, Specs(c.entries))
  }

  /** `verify_summary` would accept now. */
  predicate AcceptedAt(c: Config, s: State) {
    SpecsKnown(c, s) && Verify(s.store.rt, s.store.volatile, Specs(c.entries)).Accepted?
  }

  /** Verification runs once every receiver worker is done. */
  predicate CanReset(c: Config, s: State, e: FileId) {
    && !s.store.stopped
    && (forall w :: 0 <= w < |s.links| ==> s.links[w].rx.Done?)
    && SpecsKnown(c, s) && Verify(s.store.rt, s.store.volatile, Specs(c.entries)) == HashMismatch(e)
    && e in s.store.rt.flags
  }

  /** `reset_file` and the end of the run. */
  function AfterReset(s: State, e: FileId): State
    requires e in s.store.rt.flags
  {
    var rt := Reset(s.store.rt, e);
    State(s.store.(rt := rt, persisted := s.store.persisted + {rt.flags}, stopped := true), [], [])
  }

  /** `commit_stage` of an accepted transfer, from its first rename to wherever it stops: `moved` are
      the files that have left the stage by then. A power failure undoes renames that are not yet on
      disk; `settled` are the files whose renames are. */
  predicate CanCommitStage(c: Config, s: State, moved: set<FileId>, settled: set<FileId>) {
    && !s.store.stopped
    && (forall w :: 0 <= w < |s.links| ==> s.links[w].rx.Done?)
    && AcceptedAt(c, s)
    && settled <= moved <= c.source.Keys
  }

  /** `remove_dir_all` of a transfer that is declined, or not confirmed in time, before any data stream
      is open. Its failure is ignored: `removed` are the files it has got to. */
  predicate CanDeclineStage(c: Config, s: State, removed: set<FileId>, settled: set<FileId>) {
    && !s.store.stopped
    && (forall w :: 0 <= w < |s.links| ==> s.links[w] == IDLE)
    && settled <= removed <= c.source.Keys
  }

  function Zeros(n: nat): Bytes {
    seq(n, _ => 0)
  }

  /** What `prepare_regular_file` finds or makes of the files: those in `lost` anew, zero-filled. */
  function Recreated(files: Files, lost: set<FileId>): Files {
    map e | e in files :: if e in lost then Zeros(|files[e]|) else files[e]
  }

  /** The run is over. The files that are gone stand as the next run will find them. */
  function StageWithout(s: State, lost: set<FileId>, settled: set<FileId>): State {
    State(s.store.(volatile := Recreated(s.store.volatile, lost), durable := Recreated(s.store.durable, settled),
                   gone := s.store.gone + lost, stopped := true), [], [])
  }

  predicate CanRestart(c: Config, s: State, found: Option<Flags>) {
    found.Some? ==> found.value in s.store.persisted && FlagsLayout(c, found.value)
  }

  /** A new run. After a power failure the staged files hold their durable bytes. */
  function AfterRestart(c: Config, s: State, powerLoss: bool, found: Option<Flags>, parallel: nat): State
    requires ValidConfig(c) && CanRestart(c, s, found)
  {
    var volatile := if powerLoss then s.store.durable else s.store.volatile;
    match found
    case Some(flags) => StartRun(c, flags, false, volatile, s.store.durable, s.store.persisted, s.store.gone, parallel)
    case None =>
      StartRun(c, FreshFlags(c), true, volatile, s.store.durable, s.store.persisted + {FreshFlags(c)}, s.store.gone, parallel)
  }

  predicate Enabled(c: Config, s: State, step: Step)
    requires ValidConfig(c)
  {
    match step
    case SendHello(w) => CanSendHello(s, w)
    case Pop(w) => CanPop(s, w)
    case SendChunk(w) => CanSendChunk(c, s, w)
    case Receive(w) => CanReceive(s, w)
    case WriteSome(w, n) => CanWriteSome(s, w, n)
    case MarkChunk(w) => CanMarkChunk(s, w)
    case BeginFlush(w) => CanBeginFlush(s, w)
    case SyncFile(w, e) => CanSyncFile(s, w, e)
    case PersistState(w) => CanPersistState(s, w)
    case ReadComplete(w) => CanReadComplete(s, w)
    case Writeback(e, lo, hi) => CanWriteback(s, e, lo, hi)
    case FailSender(w) => w < |s.links|
    case FailReceiver(w) => CanFailReceiver(s, w)
    case ResetAfterMismatch(e) => CanReset(c, s, e)
    case CommitStage(moved, settled) => CanCommitStage(c, s, moved, settled)
    case DeclineStage(removed, settled) => CanDeclineStage(c, s, removed, settled)
    case Restart(powerLoss, found, parallel) => CanRestart(c, s, found)
  }

  function Apply(c: Config, s: State, step: Step): State
    requires ValidConfig(c) && Enabled(c, s, step)
  {
    match step
    case SendHello(w) => AfterSendHello(s, w)
    case Pop(w) => AfterPop(s, w)
    case SendChunk(w) => AfterSendChunk(c, s, w)
    case Receive(w) => AfterReceive(c, s, w)
    case WriteSome(w, n) => AfterWriteSome(s, w, n)
    case MarkChunk(w) => AfterMarkChunk(s, w)
    case BeginFlush(w) => AfterBeginFlush(s, w)
    case SyncFile(w, e) => AfterSyncFile(s, w, e)
    case PersistState(w) => AfterPersistState(s, w)
    case ReadComplete(w) => AfterReadComplete(s, w)
    case Writeback(e, lo, hi) => AfterWriteback(s, e, lo, hi)
    case FailSender(w) => AfterFailSender(s, w)
    case FailReceiver(w) => AfterFailReceiver(s, w)
    case ResetAfterMismatch(e) => AfterReset(s, e)
    case CommitStage(moved, settled) => StageWithout(s, moved, settled)
    case DeclineStage(removed, settled) => StageWithout(s, removed, settled)
    case Restart(powerLoss, found, parallel) => AfterRestart(c, s, powerLoss, found, parallel)
  }

  /** The first run starts without a state file; the stage may hold anything of the right size. */
  ghost predicate Init(c: Config, s: State) {
    && ValidConfig(c)
    && FilesLayout(c, s.store.volatile) && FilesLayout(c, s.store.durable)
    && exists parallel: nat :: s == StartRun(c, FreshFlags(c), true, s.store.volatile, s.store.durable, {FreshFlags(c)}, {}, parallel)
  }

  /** A schedule: the steps are enabled one after the other. */
  predicate Schedule(c: Config, s: State, steps: seq<Step>)
    requires ValidConfig(c)
    decreases |steps|
  {
    |steps| > 0 ==> Enabled(c, s, steps[0]) && Schedule(c, Apply(c, s, steps[0]), steps[1..])
  }

  function Outcome(c: Config, s: State, steps: seq<Step>): State
    requires ValidConfig(c) && Schedule(c, s, steps)
    decreases |steps|
  {
    if |steps| == 0 then s else Outcome(c, Apply(c, s, steps[0]), steps[1..])
  }

  /** Induction over schedules made of `allowed` steps. */
  lemma {:induction false} ScheduleKeeps(c: Config, s: State, steps: seq<Step>, allowed: Step -> bool, good: State -> bool)
    requires ValidConfig(c) && Schedule(c, s, steps) && good(s)
    requires forall j :: 0 <= j < |steps| ==> allowed(steps[j])
    requires forall t, step :: good(t) && allowed(step) && Enabled(c, t, step) ==> good(Apply(c, t, step))
    ensures good(Outcome(c, s, steps))
    decreases |steps|
  {
    if |steps| > 0 {
      assert forall j :: 0 <= j < |steps[1..]| ==> steps[1..][j] == steps[j + 1];
      ScheduleKeeps(c, Apply(c, s, steps[0]), steps[1..], allowed, good);
    }
  }

  lemma ScheduleCons(c: Config, s: State, step: Step, rest: seq<Step>)
    requires ValidConfig(c) && Enabled(c, s, step) && Schedule(c, Apply(c, s, step), rest)
    ensures Schedule(c, s, [step] + rest) && Outcome(c, s, [step] + rest) == Outcome(c, Apply(c, s, step), rest)
  {
    assert ([step] + rest)[1..] == rest;
  }
}
