/** What every schedule of the transfer machine keeps: flagged chunks hold the source's bytes,
    chunks flagged in a state file are durable, and every chunk that is not flagged is on its way
    at most once. */
module TransferSafety {
  import opened Common
  import opened Chunking
  import opened ManifestTypes
  import opened ResumePlan
  import opened ResumeState
  import opened TransferMachine

  // ------------------------------------------------------------- agreement with the source

  predicate RightAt(c: Config, files: Files, gone: set<FileId>, e: FileId, k: nat) {
    && e in files && e in c.source && k < |files[e]| && k < |c.source[e]|
    && (files[e][k] == c.source[e][k] || (e in gone && files[e][k] == 0))
  }

  ghost predicate ChunkRight(c: Config, files: Files, gone: set<FileId>, e: FileId, i: nat)
    requires e in c.source
  {
    forall k: nat :: InChunk(|c.source[e]|, i, k) ==> RightAt(c, files, gone, e, k)
  }

  /** Every flagged chunk of a file outside `exempt` holds the source's bytes; in a file of `gone`, a
      byte may be zero instead. */
  ghost predicate FlagsRight(c: Config, flags: Flags, files: Files, exempt: set<FileId>, gone: set<FileId>) {
    forall e, i :: e in c.source && e !in exempt && IsFlagged(flags, e, i) ==> ChunkRight(c, files, gone, e, i)
  }

  /** `b` is right wherever `a` is. */
  ghost predicate NoWorse(c: Config, a: Files, b: Files) {
    forall gone, e, k :: RightAt(c, a, gone, e, k) ==> RightAt(c, b, gone, e, k)
  }

  lemma NoWorseKeepsFlagsRight(c: Config, flags: Flags, a: Files, b: Files, exempt: set<FileId>, gone: set<FileId>)
    requires FlagsRight(c, flags, a, exempt, gone) && NoWorse(c, a, b)
    ensures FlagsRight(c, flags, b, exempt, gone)
  {
    forall e, i | e in c.source && e !in exempt && IsFlagged(flags, e, i)
      ensures ChunkRight(c, b, gone, e, i)
    {
      assert ChunkRight(c, a, gone, e, i);
    }
  }

  /** `mixed` is right wherever both of the others are. */
  ghost predicate Mixes(c: Config, durable: Files, volatile: Files, mixed: Files) {
    forall gone, e, k ::
      RightAt(c, durable, gone, e, k) && RightAt(c, volatile, gone, e, k) ==> RightAt(c, mixed, gone, e, k)
  }

  /** Writing back correct volatile bytes never spoils a durable chunk. */
  lemma MixKeepsFlagsRight(c: Config, flags: Flags, durable: Files, volatile: Files, mixed: Files,
                           exempt: set<FileId>, gone: set<FileId>)
    requires FlagsRight(c, flags, volatile, {}, gone) && FlagsRight(c, flags, durable, exempt, gone)
    requires Mixes(c, durable, volatile, mixed)
    ensures FlagsRight(c, flags, mixed, exempt, gone)
  {
    forall e, i | e in c.source && e !in exempt && IsFlagged(flags, e, i)
      ensures ChunkRight(c, mixed, gone, e, i)
    {
      assert ChunkRight(c, durable, gone, e, i) && ChunkRight(c, volatile, gone, e, i);
    }
  }

  // ------------------------------------------------------------------------- the invariant

  predicate TaskOk(c: Config, t: ChunkTask) {
    && IsRegular(c, t.entryId)
    && t.entryId in c.source
    && t.chunkIndex < ChunkCountFor(|c.source[t.entryId]|)
    && t.offset == ChunkOffset(t.chunkIndex)
    && t.len == ChunkLen(|c.source[t.entryId]|, t.chunkIndex)
    && 0 < t.len && t.offset + t.len <= |c.source[t.entryId]|
  }

  predicate PayloadOk(c: Config, t: ChunkTask, payload: Bytes) {
    TaskOk(c, t) && payload == c.source[t.entryId][t.offset..t.offset + t.len]
  }

  predicate MessageOk(c: Config, m: Message) {
    m.ChunkStart? ==> PayloadOk(c, m.task, m.payload) && m.digest == Blake3(m.payload)
  }

  predicate WireOk(c: Config, wire: seq<Message>) {
    forall k :: 0 <= k < |wire| ==> MessageOk(c, wire[k])
  }

  predicate WriterOk(c: Config, rx: ReceiverPc) {
    rx.Writing? ==> PayloadOk(c, rx.task, rx.payload) && rx.written <= |rx.payload|
  }

  /** The bytes a worker has already written of its chunk are in the volatile file. */
  ghost predicate WrittenRight(c: Config, volatile: Files, rx: ReceiverPc) {
    rx.Writing? ==>
      forall k: nat :: rx.task.offset <= k < rx.task.offset + rx.written ==> RightAt(c, volatile, {}, rx.task.entryId, k)
  }

  ghost predicate LinkOk(c: Config, volatile: Files, l: Link) {
    && (l.tx.Holding? ==> TaskOk(c, l.tx.task))
    && WireOk(c, l.wire)
    && WriterOk(c, l.rx)
    && WrittenRight(c, volatile, l.rx)
  }

  ghost predicate LinksOk(c: Config, volatile: Files, links: seq<Link>) {
    forall w :: 0 <= w < |links| ==> LinkOk(c, volatile, links[w])
  }

  predicate QueueOk(c: Config, queue: seq<ChunkTask>) {
    forall k :: 0 <= k < |queue| ==> TaskOk(c, queue[k])
  }

  /** The owner of a flush in progress holds `persist_lock`. */
  predicate HolderOk(job: Option<Job>, links: seq<Link>) {
    job.Some? ==> job.value.holder < |links| && links[job.value.holder].rx.Flushing?
  }

  /** Flagged means right in the volatile file; and right in the durable file, unless a sync of the
      file is still due. */
  ghost predicate RuntimeOk(c: Config, rt: Runtime, due: set<FileId>, volatile: Files, durable: Files, gone: set<FileId>) {
    && FlagsLayout(c, rt.flags) && rt.dirty <= c.source.Keys
    && FlagsRight(c, rt.flags, volatile, {}, gone)
    && FlagsRight(c, rt.flags, durable, due, gone)
  }

  ghost predicate JobOk(c: Config, job: Option<Job>, volatile: Files, durable: Files, gone: set<FileId>) {
    job.Some? ==>
      && FlagsLayout(c, job.value.snapshot) && job.value.left <= c.source.Keys
      && FlagsRight(c, job.value.snapshot, volatile, {}, gone)
      && FlagsRight(c, job.value.snapshot, durable, job.value.left, gone)
  }

  /** Flagged in a state file means durable, whatever becomes of this run. */
  ghost predicate PersistedOk(c: Config, p: Flags, volatile: Files, durable: Files, gone: set<FileId>) {
    FlagsLayout(c, p) && FlagsRight(c, p, volatile, {}, gone) && FlagsRight(c, p, durable, {}, gone)
  }

  ghost predicate AllPersistedOk(c: Config, persisted: set<Flags>, volatile: Files, durable: Files, gone: set<FileId>) {
    forall p :: p in persisted ==> PersistedOk(c, p, volatile, durable, gone)
  }

  ghost predicate StoreOk(c: Config, store: Store) {
    && FilesLayout(c, store.volatile) && FilesLayout(c, store.durable)
    && RuntimeOk(c, store.rt, store.rt.dirty + JobLeft(store.job), store.volatile, store.durable, store.gone)
    && JobOk(c, store.job, store.volatile, store.durable, store.gone)
    && AllPersistedOk(c, store.persisted, store.volatile, store.durable, store.gone)
  }

  predicate Counted(rt: Runtime, resumed: Flags, e: FileId) {
    e in rt.flags && e in resumed && FreshCount(rt, e) + Count(resumed[e]) == Count(rt.flags[e])
  }

  /** `fresh_chunks` counts the bits that this run has set. */
  ghost predicate CountsOk(c: Config, store: Store) {
    && FlagsLayout(c, store.rt.flags) && FlagsLayout(c, store.resumed)
    && forall e :: e in c.source ==> Counted(store.rt, store.resumed, e)
  }

  /** The chunks that this run has flagged itself. */
  function Newly(flags: Flags, resumed: Flags): (r: Flags)
    ensures forall e, i :: IsFlagged(r, e, i) <==> IsFlagged(flags, e, i) && !IsFlagged(resumed, e, i)
  {
    map e | e in flags :: seq(|flags[e]|, i requires 0 <= i < |flags[e]| => flags[e][i] && !IsFlagged(resumed, e, i))
  }

  /** What a run knows of its own chunks: they are the source's, even where the file has left
      the stage before. */
  ghost predicate RunOk(c: Config, store: Store) {
    && CountsOk(c, store)
    && (forall e, i :: IsFlagged(store.resumed, e, i) ==> IsFlagged(store.rt.flags, e, i))
    && FlagsRight(c, Newly(store.rt.flags, store.resumed), store.volatile, {}, {})
    && FlagsRight(c, Newly(store.rt.flags, store.resumed), store.durable, store.rt.dirty + JobLeft(store.job), {})
  }

  function CountIf(b: bool): nat {
    if b then 1 else 0
  }

  predicate Carries(m: Message, t: ChunkTask) {
    m.ChunkStart? && m.task == t
  }

  function WireWork(wire: seq<Message>, t: ChunkTask): nat {
    if |wire| == 0 then 0 else CountIf(Carries(wire[0], t)) + WireWork(wire[1..], t)
  }

  /** How often one stream is carrying chunk `t`, from the sender's hand to the receiver's. */
  function LinkWork(l: Link, t: ChunkTask): nat {
    CountIf(l.tx.Holding? && l.tx.task == t) + WireWork(l.wire, t) + CountIf(l.rx.Writing? && l.rx.task == t)
  }

  function LinksWork(links: seq<Link>, t: ChunkTask): nat {
    if |links| == 0 then 0 else LinksWork(links[..|links| - 1], t) + LinkWork(links[|links| - 1], t)
  }

  /** How often chunk `t` is on its way: queued, held, on the wire or being written. */
  function Work(queue: seq<ChunkTask>, links: seq<Link>, t: ChunkTask): nat {
    multiset(queue)[t] + LinksWork(links, t)
  }

  /** A chunk is on its way at most once, and not at all once it is flagged. */
  ghost predicate WorkOk(flags: Flags, queue: seq<ChunkTask>, links: seq<Link>) {
    forall t :: Work(queue, links, t) <= CountIf(!IsFlagged(flags, t.entryId, t.chunkIndex))
  }

  /** This worker will take the dirty set before it is done. */
  predicate WillFlush(rx: ReceiverPc) {
    rx.Receiving? || rx.Writing? || rx.WantFlush? || (rx.Flushing? && (rx.after.ThenReceive? || rx.after.ThenComplete?))
  }

  /** A dirty file never outlives the workers: one of them still has to flush it. */
  ghost predicate DirtyCovered(rt: Runtime, links: seq<Link>) {
    NothingToFlush(rt) || exists w :: 0 <= w < |links| && WillFlush(links[w].rx)
  }

  ghost predicate Inv(c: Config, s: State) {
    && ValidConfig(c)
    && StoreOk(c, s.store)
    && (s.store.stopped || RunOk(c, s.store))
    && QueueOk(c, s.queue)
    && LinksOk(c, s.store.volatile, s.links)
    && HolderOk(s.store.job, s.links)
    && WorkOk(s.store.rt.flags, s.queue, s.links)
    && DirtyCovered(s.store.rt, s.links)
  }

  // ------------------------------------------------------------------- small facts about work

  lemma {:induction false} WireWorkAppend(wire: seq<Message>, m: Message, t: ChunkTask)
    ensures WireWork(wire + [m], t) == WireWork(wire, t) + CountIf(Carries(m, t))
  {
    if |wire| == 0 {
      assert (wire + [m])[1..] == [];
    } else {
      assert (wire + [m])[1..] == wire[1..] + [m];
      WireWorkAppend(wire[1..], m, t);
    }
  }

  lemma {:induction false} LinksWorkUpdate(links: seq<Link>, w: nat, l: Link, t: ChunkTask)
    requires w < |links|
    ensures LinksWork(links[w := l], t) + LinkWork(links[w], t) == LinksWork(links, t) + LinkWork(l, t)
  {
    var m := |links| - 1;
    if w == m {
      assert links[w := l][..m] == links[..m];
    } else {
      assert links[w := l][..m] == links[..m][w := l];
      LinksWorkUpdate(links[..m], w, l, t);
    }
  }

  lemma {:induction false} LinksWorkContains(links: seq<Link>, w: nat, t: ChunkTask)
    requires w < |links|
    ensures LinkWork(links[w], t) <= LinksWork(links, t)
  {
    if w < |links| - 1 {
      LinksWorkContains(links[..|links| - 1], w, t);
    }
  }

  /** One stream changes and the queue does not: chunks may get lost, none appears. */
  lemma NoNewWork(flags: Flags, queue: seq<ChunkTask>, links: seq<Link>, w: nat, l: Link)
    requires WorkOk(flags, queue, links) && w < |links|
    requires forall t :: LinkWork(l, t) <= LinkWork(links[w], t)
    ensures WorkOk(flags, queue, links[w := l])
  {
    forall t ensures Work(queue, links[w := l], t) <= Work(queue, links, t) {
      LinksWorkUpdate(links, w, l, t);
    }
  }

  /** The stream that is about to be marked carries its chunk. */
  lemma CarriedIsWanted(flags: Flags, queue: seq<ChunkTask>, links: seq<Link>, w: nat, t: ChunkTask)
    requires WorkOk(flags, queue, links) && w < |links| && LinkWork(links[w], t) >= 1
    ensures !IsFlagged(flags, t.entryId, t.chunkIndex) && Work(queue, links, t) == 1
  {
    LinksWorkContains(links, w, t);
    assert Work(queue, links, t) >= 1;
  }

  lemma CoveredAfter(rt: Runtime, rt': Runtime, links: seq<Link>, w: nat, l: Link)
    requires DirtyCovered(rt, links) && w < |links|
    requires NothingToFlush(rt) ==> NothingToFlush(rt')
    requires WillFlush(links[w].rx) ==> WillFlush(l.rx) || NothingToFlush(rt')
    ensures DirtyCovered(rt', links[w := l])
  {
    var links' := links[w := l];
    if !NothingToFlush(rt') {
      var v :| 0 <= v < |links| && WillFlush(links[v].rx);
      assert WillFlush(links'[v].rx);
    }
  }

  /** A step that changes one stream and nothing else. */
  lemma LinkStep(c: Config, s: State, w: nat, l: Link)
    requires Inv(c, s) && w < |s.links|
    requires LinkOk(c, s.store.volatile, l)
    requires forall t :: LinkWork(l, t) <= LinkWork(s.links[w], t)
    requires s.links[w].rx.Flushing? ==> l.rx.Flushing?
    requires WillFlush(s.links[w].rx) ==> WillFlush(l.rx) || NothingToFlush(s.store.rt)
    ensures Inv(c, s.(links := s.links[w := l]))
  {
    NoNewWork(s.store.rt.flags, s.queue, s.links, w, l);
    CoveredAfter(s.store.rt, s.store.rt, s.links, w, l);
  }

  lemma LinksOkAfter(c: Config, volatile: Files, links: seq<Link>, w: nat, l: Link)
    requires LinksOk(c, volatile, links) && w < |links| && LinkOk(c, volatile, l)
    ensures LinksOk(c, volatile, links[w := l])
  {
  }

  lemma HolderOkAfter(job: Option<Job>, links: seq<Link>, w: nat, l: Link)
    requires HolderOk(job, links) && w < |links|
    requires links[w].rx.Flushing? ==> l.rx.Flushing?
    ensures HolderOk(job, links[w := l])
  {
  }

  /** Leaving a flush changes the receiver's end of the stream only. */
  lemma AfterFlushOk(c: Config, volatile: Files, l: Link)
    requires LinkOk(c, volatile, l) && (l.rx.WantFlush? || l.rx.Flushing?)
    ensures LinkOk(c, volatile, AfterFlush(l, l.rx.after))
    ensures forall t :: LinkWork(AfterFlush(l, l.rx.after), t) == LinkWork(l, t)
    ensures l.rx.Flushing? && WillFlush(l.rx) ==> WillFlush(AfterFlush(l, l.rx.after).rx)
  {
  }

  // --------------------------------------------------------------------- files under one write

  lemma OverwriteAt(content: Bytes, at: nat, data: Bytes, k: nat)
    requires at + |data| <= |content| && k < |content|
    ensures |Overwrite(content, at, data)| == |content|
    ensures Overwrite(content, at, data)[k] == if at <= k < at + |data| then data[k - at] else content[k]
  {
  }

  /** Writing a piece of a correct payload makes exactly that piece right. */
  lemma PieceLands(c: Config, files: Files, t: ChunkTask, payload: Bytes, written: nat, n: nat, k: nat)
    requires FilesLayout(c, files) && PayloadOk(c, t, payload) && written + n <= |payload|
    requires k < |files[t.entryId]|
    ensures var after := WritePiece(files, t, payload, written, n)[t.entryId];
            && |after| == |files[t.entryId]|
            && after[k] == if t.offset + written <= k < t.offset + written + n then c.source[t.entryId][k]
                           else files[t.entryId][k]
  {
    var data := payload[written..written + n];
    OverwriteAt(files[t.entryId], t.offset + written, data, k);
  }

  /** A correct write spoils nothing. */
  lemma PieceIsNoWorse(c: Config, files: Files, t: ChunkTask, payload: Bytes, written: nat, n: nat)
    requires FilesLayout(c, files) && PayloadOk(c, t, payload) && written + n <= |payload|
    ensures var files' := WritePiece(files, t, payload, written, n);
            && FilesLayout(c, files') && NoWorse(c, files, files')
            && forall k: nat :: t.offset + written <= k < t.offset + written + n ==> RightAt(c, files', {}, t.entryId, k)
  {
    var files' := WritePiece(files, t, payload, written, n);
    forall k: nat | k < |files[t.entryId]|
      ensures |files'[t.entryId]| == |files[t.entryId]|
      ensures files'[t.entryId][k] == if t.offset + written <= k < t.offset + written + n then c.source[t.entryId][k]
                                      else files[t.entryId][k]
    {
      PieceLands(c, files, t, payload, written, n, k);
    }
  }

  lemma WritebackMixes(c: Config, s: State, e: FileId, lo: nat, hi: nat)
    requires FilesLayout(c, s.store.volatile) && FilesLayout(c, s.store.durable) && CanWriteback(s, e, lo, hi)
    ensures var durable' := AfterWriteback(s, e, lo, hi).store.durable;
            FilesLayout(c, durable') && Mixes(c, s.store.durable, s.store.volatile, durable')
  {
    var durable' := AfterWriteback(s, e, lo, hi).store.durable;
    forall k: nat | k < |s.store.durable[e]|
      ensures |durable'[e]| == |s.store.durable[e]|
      ensures durable'[e][k] == if lo <= k < hi then s.store.volatile[e][k] else s.store.durable[e][k]
    {
      OverwriteAt(s.store.durable[e], lo, s.store.volatile[e][lo..hi], k);
    }
  }

  // ------------------------------------------------------------------------- sender's steps

  lemma AppendKeepsLink(c: Config, volatile: Files, l: Link, m: Message)
    requires LinkOk(c, volatile, l) && MessageOk(c, m)
    ensures WireOk(c, l.wire + [m])
    ensures forall t :: WireWork(l.wire + [m], t) == WireWork(l.wire, t) + CountIf(Carries(m, t))
  {
    forall t ensures WireWork(l.wire + [m], t) == WireWork(l.wire, t) + CountIf(Carries(m, t)) {
      WireWorkAppend(l.wire, m, t);
    }
  }

  lemma SendHelloKeepsInv(c: Config, s: State, w: nat)
    requires Inv(c, s) && CanSendHello(s, w)
    ensures Inv(c, AfterSendHello(s, w))
  {
    AppendKeepsLink(c, s.store.volatile, s.links[w], WorkerHello);
    LinkStep(c, s, w, AfterSendHello(s, w).links[w]);
  }

  /** The chunk goes from the sender's hand onto the wire. */
  lemma SentLinkOk(c: Config, volatile: Files, l: Link)
    requires LinkOk(c, volatile, l) && l.tx.Holding?
    ensures var l' := l.(tx := Popping, wire := l.wire + [ChunkMessage(c, l.tx.task)]);
            LinkOk(c, volatile, l') && forall t :: LinkWork(l', t) == LinkWork(l, t)
  {
    AppendKeepsLink(c, volatile, l, ChunkMessage(c, l.tx.task));
  }

  lemma SendChunkKeepsInv(c: Config, s: State, w: nat)
    requires Inv(c, s) && CanSendChunk(c, s, w)
    ensures Inv(c, AfterSendChunk(c, s, w))
  {
    SentLinkOk(c, s.store.volatile, s.links[w]);
    LinkStep(c, s, w, AfterSendChunk(c, s, w).links[w]);
  }

  lemma ReadCompleteKeepsInv(c: Config, s: State, w: nat)
    requires Inv(c, s) && CanReadComplete(s, w)
    ensures Inv(c, AfterReadComplete(s, w))
  {
    LinkStep(c, s, w, AfterReadComplete(s, w).links[w]);
  }

  lemma FailSenderKeepsInv(c: Config, s: State, w: nat)
    requires Inv(c, s) && w < |s.links|
    ensures Inv(c, AfterFailSender(s, w))
  {
    LinkStep(c, s, w, AfterFailSender(s, w).links[w]);
  }

  lemma PopKeepsInv(c: Config, s: State, w: nat)
    requires Inv(c, s) && CanPop(s, w)
    ensures Inv(c, AfterPop(s, w))
  {
    if |s.queue| == 0 {
      AppendKeepsLink(c, s.store.volatile, s.links[w], WorkerDone);
      LinkStep(c, s, w, AfterPop(s, w).links[w]);
    } else {
      PopTaskKeepsInv(c, s, w);
    }
  }

  lemma PopTaskKeepsInv(c: Config, s: State, w: nat)
    requires Inv(c, s) && CanPop(s, w) && |s.queue| > 0
    ensures Inv(c, AfterPop(s, w))
  {
    var s' := AfterPop(s, w);
    assert forall k :: 0 <= k < |s'.queue| ==> s'.queue[k] == s.queue[k + 1];
    assert LinkOk(c, s.store.volatile, s.links[w]);
    LinksOkAfter(c, s.store.volatile, s.links, w, s'.links[w]);
    HolderOkAfter(s.store.job, s.links, w, s'.links[w]);
    PopKeepsWork(s, w);
    CoveredAfter(s.store.rt, s.store.rt, s.links, w, s'.links[w]);
  }

  lemma PopKeepsWork(s: State, w: nat)
    requires CanPop(s, w) && |s.queue| > 0
    ensures forall t :: Work(AfterPop(s, w).queue, AfterPop(s, w).links, t) == Work(s.queue, s.links, t)
  {
    var s' := AfterPop(s, w);
    forall t ensures Work(s'.queue, s'.links, t) == Work(s.queue, s.links, t) {
      LinksWorkUpdate(s.links, w, s'.links[w], t);
      PoppedOccurrences(s.queue, t);
    }
  }

  lemma PoppedOccurrences<T>(queue: seq<T>, t: T)
    requires |queue| > 0
    ensures multiset(queue)[t] == multiset(queue[1..])[t] + if queue[0] == t then 1 else 0
  {
    assert queue == [queue[0]] + queue[1..];
    OccursJoined([queue[0]], queue[1..], t);
  }

  // ----------------------------------------------------------------------- receiver's steps

  /** An honest chunk passes every check, and it is written: it cannot already be complete. */
  lemma HonestChunkIsWritten(c: Config, s: State, w: nat)
    requires Inv(c, s) && CanReceive(s, w) && s.links[w].rx.Receiving? && s.links[w].wire[0].ChunkStart?
    ensures AfterReceive(c, s, w).links[w].rx == Writing(s.links[w].wire[0].task, s.links[w].wire[0].payload, 0)
  {
    var m := s.links[w].wire[0];
    assert LinkOk(c, s.store.volatile, s.links[w]) && MessageOk(c, m);
    assert LinkWork(s.links[w], m.task) >= 1;
    CarriedIsWanted(s.store.rt.flags, s.queue, s.links, w, m.task);
    HonestGeometry(c, m.task);
  }

  lemma HonestGeometry(c: Config, t: ChunkTask)
    requires ValidConfig(c) && TaskOk(c, t)
    ensures ValidateChunkGeometry(ById(c.entries)[t.entryId], t.chunkIndex, t.offset, t.len).Ok?
  {
    var k := EntryIndex(c, t.entryId);
    ByIdFinds(c.entries, k);
    assert SoundFile(c.entries[k]);
  }

  lemma EntryIndex(c: Config, e: FileId) returns (k: nat)
    requires ValidConfig(c) && IsRegular(c, e)
    ensures k < |c.entries| && c.entries[k].id == e && c.entries[k].kind.RegularFile?
  {
    k := ByIdComesFrom(c.entries, e);
  }

  lemma {:induction false} ByIdComesFrom(entries: seq<ManifestEntry>, e: FileId) returns (k: nat)
    requires e in ById(entries)
    ensures k < |entries| && entries[k].id == e && ById(entries)[e] == entries[k]
  {
    if entries[|entries| - 1].id == e {
      k := |entries| - 1;
    } else {
      k := ByIdComesFrom(entries[..|entries| - 1], e);
    }
  }

  lemma ReceiveKeepsInv(c: Config, s: State, w: nat)
    requires Inv(c, s) && CanReceive(s, w)
    ensures Inv(c, AfterReceive(c, s, w))
  {
    var l := s.links[w];
    var l' := AfterReceive(c, s, w).links[w];
    assert LinkOk(c, s.store.volatile, l) && MessageOk(c, l.wire[0]);
    assert forall k :: 0 <= k < |l'.wire| ==> l'.wire[k] == l.wire[k + 1];
    if l.rx.Receiving? && l.wire[0].ChunkStart? {
      HonestChunkIsWritten(c, s, w);
    }
    LinkStep(c, s, w, l');
  }

  lemma OtherLinksAfterWrite(c: Config, a: Files, b: Files, links: seq<Link>)
    requires LinksOk(c, a, links) && NoWorse(c, a, b)
    ensures LinksOk(c, b, links)
  {
    forall w | 0 <= w < |links| ensures LinkOk(c, b, links[w]) {
      assert LinkOk(c, a, links[w]);
    }
  }

  lemma WriteKeepsStore(c: Config, s: State, w: nat, n: nat)
    requires Inv(c, s) && CanWriteSome(s, w, n)
    ensures StoreOk(c, AfterWriteSome(s, w, n).store)
    ensures NoWorse(c, s.store.volatile, AfterWriteSome(s, w, n).store.volatile)
  {
    var a := s.store.volatile;
    var rx := s.links[w].rx;
    assert LinkOk(c, a, s.links[w]);
    var b := WritePiece(a, rx.task, rx.payload, rx.written, n);
    PieceIsNoWorse(c, a, rx.task, rx.payload, rx.written, n);
    var gone := s.store.gone;
    NoWorseKeepsFlagsRight(c, s.store.rt.flags, a, b, {}, gone);
    if s.store.job.Some? {
      NoWorseKeepsFlagsRight(c, s.store.job.value.snapshot, a, b, {}, gone);
    }
    forall p | p in s.store.persisted ensures PersistedOk(c, p, b, s.store.durable, gone) {
      assert PersistedOk(c, p, a, s.store.durable, gone);
      NoWorseKeepsFlagsRight(c, p, a, b, {}, gone);
    }
  }

  lemma WriteKeepsRun(c: Config, s: State, w: nat, n: nat)
    requires Inv(c, s) && CanWriteSome(s, w, n) && !s.store.stopped
    ensures RunOk(c, AfterWriteSome(s, w, n).store)
  {
    var a, b := s.store.volatile, AfterWriteSome(s, w, n).store.volatile;
    var rx := s.links[w].rx;
    assert LinkOk(c, a, s.links[w]);
    PieceIsNoWorse(c, a, rx.task, rx.payload, rx.written, n);
    NoWorseKeepsFlagsRight(c, Newly(s.store.rt.flags, s.store.resumed), a, b, {}, {});
  }

  lemma WriteKeepsLinks(c: Config, s: State, w: nat, n: nat)
    requires Inv(c, s) && CanWriteSome(s, w, n)
    ensures LinksOk(c, AfterWriteSome(s, w, n).store.volatile, AfterWriteSome(s, w, n).links)
  {
    var a := s.store.volatile;
    var rx := s.links[w].rx;
    assert LinkOk(c, a, s.links[w]);
    var b := WritePiece(a, rx.task, rx.payload, rx.written, n);
    PieceIsNoWorse(c, a, rx.task, rx.payload, rx.written, n);
    OtherLinksAfterWrite(c, a, b, s.links);
    WrittenFurther(c, b, s.links[w], n);
    LinksOkAfter(c, b, s.links, w, AfterWriteSome(s, w, n).links[w]);
  }

  /** The bytes written so far, and the piece that has just landed. */
  lemma WrittenFurther(c: Config, b: Files, l: Link, n: nat)
    requires LinkOk(c, b, l) && l.rx.Writing? && l.rx.written + n <= |l.rx.payload|
    requires forall k: nat :: l.rx.task.offset + l.rx.written <= k < l.rx.task.offset + l.rx.written + n ==>
               RightAt(c, b, {}, l.rx.task.entryId, k)
    ensures LinkOk(c, b, l.(rx := l.rx.(written := l.rx.written + n)))
  {
  }

  lemma WriteKeepsInv(c: Config, s: State, w: nat, n: nat)
    requires Inv(c, s) && CanWriteSome(s, w, n)
    ensures Inv(c, AfterWriteSome(s, w, n))
  {
    var l' := AfterWriteSome(s, w, n).links[w];
    WriteKeepsStore(c, s, w, n);
    if !s.store.stopped {
      WriteKeepsRun(c, s, w, n);
    }
    WriteKeepsLinks(c, s, w, n);
    HolderOkAfter(s.store.job, s.links, w, l');
    NoNewWork(s.store.rt.flags, s.queue, s.links, w, l');
    CoveredAfter(s.store.rt, s.store.rt, s.links, w, l');
  }

  /** A chunk that is written in full is right. */
  lemma FullyWrittenIsRight(c: Config, volatile: Files, rx: ReceiverPc)
    requires rx.Writing? && rx.written == |rx.payload| && WriterOk(c, rx) && WrittenRight(c, volatile, rx)
    ensures ChunkRight(c, volatile, {}, rx.task.entryId, rx.task.chunkIndex)
  {
  }

  lemma MarkedFlags(flags: Flags, e: FileId, i: nat, f: FileId, j: nat)
    requires HasSlot(flags, e, i)
    ensures IsFlagged(flags[e := flags[e][i := true]], f, j) <==> IsFlagged(flags, f, j) || (f == e && j == i)
  {
  }

  lemma MarkKeepsRight(c: Config, flags: Flags, flags': Flags, files: Files, exempt: set<FileId>, gone: set<FileId>,
                       e: FileId, i: nat)
    requires FlagsRight(c, flags, files, exempt, gone)
    requires forall f, j :: IsFlagged(flags', f, j) ==> IsFlagged(flags, f, j) || (f == e && j == i)
    requires e in c.source && (e in exempt || ChunkRight(c, files, gone, e, i))
    ensures FlagsRight(c, flags', files, exempt, gone)
  {
  }

  lemma RightIsFine(c: Config, files: Files, gone: set<FileId>, e: FileId, i: nat)
    requires e in c.source && ChunkRight(c, files, {}, e, i)
    ensures ChunkRight(c, files, gone, e, i)
  {
    forall k: nat | InChunk(|c.source[e]|, i, k) ensures RightAt(c, files, gone, e, k) {
      assert RightAt(c, files, {}, e, k);
    }
  }

  lemma ExemptMore(c: Config, flags: Flags, files: Files, exempt: set<FileId>, exempt': set<FileId>, gone: set<FileId>)
    requires FlagsRight(c, flags, files, exempt, gone) && exempt <= exempt'
    ensures FlagsRight(c, flags, files, exempt', gone)
  {
  }

  /** Marking a chunk that is right in the volatile file, in one bitmap and on both disks. */
  lemma MarkKeepsBoth(c: Config, flags: Flags, flags': Flags, volatile: Files, durable: Files,
                      due: set<FileId>, due': set<FileId>, gone: set<FileId>, e: FileId, i: nat)
    requires FlagsRight(c, flags, volatile, {}, gone) && FlagsRight(c, flags, durable, due, gone)
    requires forall f, j :: IsFlagged(flags', f, j) ==> IsFlagged(flags, f, j) || (f == e && j == i)
    requires e in c.source && ChunkRight(c, volatile, gone, e, i) && due <= due' && e in due'
    ensures FlagsRight(c, flags', volatile, {}, gone) && FlagsRight(c, flags', durable, due', gone)
  {
    MarkKeepsRight(c, flags, flags', volatile, {}, gone, e, i);
    ExemptMore(c, flags, durable, due, due', gone);
    MarkKeepsRight(c, flags, flags', durable, due', gone, e, i);
  }

  lemma MarkedCount(rt: Runtime, resumed: Flags, e: FileId, i: nat, f: FileId)
    requires HasSlot(rt.flags, e, i) && !IsFlagged(rt.flags, e, i) && Counted(rt, resumed, f)
    ensures Counted(Mark(rt, e, i), resumed, f)
  {
    CountSet(rt.flags[e], i);
  }

  lemma MarkKeepsCounts(c: Config, store: Store, e: FileId, i: nat)
    requires CountsOk(c, store) && HasSlot(store.rt.flags, e, i) && !IsFlagged(store.rt.flags, e, i)
    ensures CountsOk(c, store.(rt := Mark(store.rt, e, i)))
  {
    forall f | f in c.source ensures Counted(Mark(store.rt, e, i), store.resumed, f) {
      MarkedCount(store.rt, store.resumed, e, i, f);
    }
  }

  /** Two chunks of the manifest with the same entry and index are the same task. */
  lemma TaskIdentity(c: Config, t: ChunkTask, u: ChunkTask)
    requires TaskOk(c, t) && TaskOk(c, u) && t.entryId == u.entryId && t.chunkIndex == u.chunkIndex
    ensures t == u
  {
  }

  lemma MarkKeepsWork(c: Config, s: State, w: nat)
    requires QueueOk(c, s.queue) && LinksOk(c, s.store.volatile, s.links)
    requires WorkOk(s.store.rt.flags, s.queue, s.links) && CanMarkChunk(s, w)
    ensures WorkOk(AfterMarkChunk(s, w).store.rt.flags, s.queue, AfterMarkChunk(s, w).links)
    ensures !IsFlagged(s.store.rt.flags, s.links[w].rx.task.entryId, s.links[w].rx.task.chunkIndex)
    ensures forall u :: Work(s.queue, s.links, u) ==
              Work(s.queue, AfterMarkChunk(s, w).links, u) + CountIf(s.links[w].rx.task == u)
  {
    var s' := AfterMarkChunk(s, w);
    var t := s.links[w].rx.task;
    assert LinkOk(c, s.store.volatile, s.links[w]);
    CarriedIsWanted(s.store.rt.flags, s.queue, s.links, w, t);
    forall u
      ensures Work(s.queue, s.links, u) == Work(s.queue, s'.links, u) + CountIf(t == u)
      ensures Work(s.queue, s'.links, u) <= CountIf(!IsFlagged(s'.store.rt.flags, u.entryId, u.chunkIndex))
    {
      MarkedFlags(s.store.rt.flags, t.entryId, t.chunkIndex, u.entryId, u.chunkIndex);
      LinksWorkUpdate(s.links, w, s'.links[w], u);
      if u.entryId == t.entryId && u.chunkIndex == t.chunkIndex && Work(s.queue, s.links, u) > 0 {
        WorkIsSound(c, s, u);
        TaskIdentity(c, t, u);
      }
    }
  }

  /** Everything on its way is a chunk of the manifest. */
  lemma WorkIsSound(c: Config, s: State, t: ChunkTask)
    requires QueueOk(c, s.queue) && LinksOk(c, s.store.volatile, s.links) && Work(s.queue, s.links, t) > 0
    ensures TaskOk(c, t)
  {
    if t in multiset(s.queue) {
      assert t in s.queue;
    } else {
      LinksWorkIsSound(c, s.store.volatile, s.links, t);
    }
  }

  lemma {:induction false} LinksWorkIsSound(c: Config, volatile: Files, links: seq<Link>, t: ChunkTask)
    requires LinksOk(c, volatile, links) && LinksWork(links, t) > 0
    ensures TaskOk(c, t)
  {
    var m := |links| - 1;
    if LinksWork(links[..m], t) > 0 {
      LinksWorkIsSound(c, volatile, links[..m], t);
    } else {
      assert LinkOk(c, volatile, links[m]);
      if WireWork(links[m].wire, t) > 0 {
        WireWorkIsSound(c, links[m].wire, t);
      }
    }
  }

  lemma {:induction false} WireWorkIsSound(c: Config, wire: seq<Message>, t: ChunkTask)
    requires WireOk(c, wire) && WireWork(wire, t) > 0
    ensures TaskOk(c, t)
  {
    assert MessageOk(c, wire[0]);
    if !Carries(wire[0], t) {
      WireWorkIsSound(c, wire[1..], t);
    }
  }

  /** The chunk that is about to be marked: right, and not marked before. */
  lemma MarkedChunk(c: Config, s: State, w: nat) returns (e: FileId, i: nat)
    requires Inv(c, s) && CanMarkChunk(s, w)
    ensures e == s.links[w].rx.task.entryId && i == s.links[w].rx.task.chunkIndex
    ensures e in c.source && HasSlot(s.store.rt.flags, e, i) && !IsFlagged(s.store.rt.flags, e, i)
    ensures ChunkRight(c, s.store.volatile, {}, e, i) && ChunkRight(c, s.store.volatile, s.store.gone, e, i)
    ensures forall f, j :: IsFlagged(Mark(s.store.rt, e, i).flags, f, j) <==> IsFlagged(s.store.rt.flags, f, j) || (f == e && j == i)
  {
    var rx := s.links[w].rx;
    e, i := rx.task.entryId, rx.task.chunkIndex;
    assert LinkOk(c, s.store.volatile, s.links[w]);
    FullyWrittenIsRight(c, s.store.volatile, rx);
    RightIsFine(c, s.store.volatile, s.store.gone, e, i);
    CarriedIsWanted(s.store.rt.flags, s.queue, s.links, w, rx.task);
  }

  lemma MarkKeepsStore(c: Config, s: State, w: nat)
    requires Inv(c, s) && CanMarkChunk(s, w)
    ensures StoreOk(c, AfterMarkChunk(s, w).store)
  {
    var a, b := s.store, AfterMarkChunk(s, w).store;
    var e, i := MarkedChunk(c, s, w);
    MarkKeepsBoth(c, a.rt.flags, b.rt.flags, a.volatile, a.durable, a.rt.dirty + JobLeft(a.job),
                  b.rt.dirty + JobLeft(b.job), a.gone, e, i);
  }

  lemma MarkKeepsRun(c: Config, s: State, w: nat)
    requires Inv(c, s) && CanMarkChunk(s, w) && !s.store.stopped
    ensures RunOk(c, AfterMarkChunk(s, w).store)
  {
    var a, b := s.store, AfterMarkChunk(s, w).store;
    var e, i := MarkedChunk(c, s, w);
    MarkKeepsCounts(c, a, e, i);
    MarkKeepsBoth(c, Newly(a.rt.flags, a.resumed), Newly(b.rt.flags, b.resumed), a.volatile, a.durable,
                  a.rt.dirty + JobLeft(a.job), b.rt.dirty + JobLeft(b.job), {}, e, i);
  }

  lemma MarkKeepsInv(c: Config, s: State, w: nat)
    requires Inv(c, s) && CanMarkChunk(s, w)
    ensures Inv(c, AfterMarkChunk(s, w))
  {
    var l' := AfterMarkChunk(s, w).links[w];
    assert LinkOk(c, s.store.volatile, s.links[w]);
    LinksOkAfter(c, s.store.volatile, s.links, w, l');
    HolderOkAfter(s.store.job, s.links, w, l');
    MarkKeepsStore(c, s, w);
    if !s.store.stopped {
      MarkKeepsRun(c, s, w);
    }
    MarkKeepsWork(c, s, w);
    MarkIsCovered(s, w);
  }

  lemma MarkIsCovered(s: State, w: nat)
    requires CanMarkChunk(s, w)
    ensures DirtyCovered(AfterMarkChunk(s, w).store.rt, AfterMarkChunk(s, w).links)
  {
    assert WillFlush(AfterMarkChunk(s, w).links[w].rx);
  }

  // --------------------------------------------------------------- flushes: snapshot, sync, persist

  lemma EmptyFlushKeepsInv(c: Config, s: State, w: nat)
    requires Inv(c, s) && CanBeginFlush(s, w) && NothingToFlush(s.store.rt)
    ensures Inv(c, AfterBeginFlush(s, w))
  {
    assert LinkOk(c, s.store.volatile, s.links[w]);
    AfterFlushOk(c, s.store.volatile, s.links[w]);
    LinkStep(c, s, w, AfterFlush(s.links[w], s.links[w].rx.after));
  }

  /** What the dirty set protected, the job protects from now on. */
  lemma SnapshotKeepsStore(c: Config, s: State, w: nat)
    requires Inv(c, s) && CanBeginFlush(s, w) && !NothingToFlush(s.store.rt)
    ensures StoreOk(c, AfterBeginFlush(s, w).store)
    ensures s.store.stopped || RunOk(c, AfterBeginFlush(s, w).store)
  {
    var store' := AfterBeginFlush(s, w).store;
    assert store'.rt.dirty + JobLeft(store'.job) == s.store.rt.dirty + JobLeft(s.store.job) == s.store.rt.dirty;
  }

  lemma SnapshotKeepsInv(c: Config, s: State, w: nat)
    requires Inv(c, s) && CanBeginFlush(s, w) && !NothingToFlush(s.store.rt)
    ensures Inv(c, AfterBeginFlush(s, w))
  {
    var s' := AfterBeginFlush(s, w);
    SnapshotKeepsStore(c, s, w);
    assert LinkOk(c, s.store.volatile, s.links[w]);
    NoNewWork(s.store.rt.flags, s.queue, s.links, w, s'.links[w]);
  }

  lemma SyncMixes(c: Config, s: State, w: nat, e: FileId)
    requires FilesLayout(c, s.store.volatile) && CanSyncFile(s, w, e)
    ensures Mixes(c, s.store.durable, s.store.volatile, AfterSyncFile(s, w, e).store.durable)
  {
  }

  /** After the sync of one file, its flagged chunks are durable. */
  lemma SyncMakesDurable(c: Config, flags: Flags, s: State, w: nat, e: FileId, before: set<FileId>, after: set<FileId>,
                         gone: set<FileId>)
    requires FilesLayout(c, s.store.volatile) && CanSyncFile(s, w, e)
    requires FlagsRight(c, flags, s.store.volatile, {}, gone) && FlagsRight(c, flags, s.store.durable, before, gone)
    requires before <= after + {e}
    ensures FlagsRight(c, flags, AfterSyncFile(s, w, e).store.durable, after, gone)
  {
    var durable' := AfterSyncFile(s, w, e).store.durable;
    SyncMixes(c, s, w, e);
    forall f, i | f in c.source && f !in after && IsFlagged(flags, f, i)
      ensures ChunkRight(c, durable', gone, f, i)
    {
      assert ChunkRight(c, s.store.volatile, gone, f, i);
      if f != e {
        assert ChunkRight(c, s.store.durable, gone, f, i);
      }
    }
  }

  lemma SyncKeepsStore(c: Config, s: State, w: nat, e: FileId)
    requires Inv(c, s) && CanSyncFile(s, w, e)
    ensures StoreOk(c, AfterSyncFile(s, w, e).store)
  {
    var a := s.store;
    var b := AfterSyncFile(s, w, e).store;
    SyncMakesDurable(c, a.rt.flags, s, w, e, a.rt.dirty + JobLeft(a.job), b.rt.dirty + JobLeft(b.job), a.gone);
    SyncMakesDurable(c, a.job.value.snapshot, s, w, e, JobLeft(a.job), JobLeft(b.job), a.gone);
    forall p | p in b.persisted ensures PersistedOk(c, p, b.volatile, b.durable, b.gone) {
      assert PersistedOk(c, p, a.volatile, a.durable, a.gone);
      SyncMakesDurable(c, p, s, w, e, {}, {}, a.gone);
    }
  }

  lemma SyncKeepsRun(c: Config, s: State, w: nat, e: FileId)
    requires Inv(c, s) && CanSyncFile(s, w, e) && !s.store.stopped
    ensures RunOk(c, AfterSyncFile(s, w, e).store)
  {
    var a := s.store;
    var b := AfterSyncFile(s, w, e).store;
    SyncMakesDurable(c, Newly(a.rt.flags, a.resumed), s, w, e, a.rt.dirty + JobLeft(a.job), b.rt.dirty + JobLeft(b.job), {});
  }

  lemma SyncKeepsInv(c: Config, s: State, w: nat, e: FileId)
    requires Inv(c, s) && CanSyncFile(s, w, e)
    ensures Inv(c, AfterSyncFile(s, w, e))
  {
    SyncKeepsStore(c, s, w, e);
    if !s.store.stopped {
      SyncKeepsRun(c, s, w, e);
    }
  }

  lemma PersistKeepsStore(c: Config, s: State, w: nat)
    requires Inv(c, s) && CanPersistState(s, w)
    ensures StoreOk(c, AfterPersistState(s, w).store)
    ensures s.store.stopped || RunOk(c, AfterPersistState(s, w).store)
  {
    var a := s.store;
    var b := AfterPersistState(s, w).store;
    assert b.rt.dirty + JobLeft(b.job) == a.rt.dirty + JobLeft(a.job);
    forall p | p in b.persisted ensures PersistedOk(c, p, b.volatile, b.durable, b.gone) {
      assert p in a.persisted ==> PersistedOk(c, p, a.volatile, a.durable, a.gone);
    }
  }

  lemma PersistKeepsInv(c: Config, s: State, w: nat)
    requires Inv(c, s) && CanPersistState(s, w)
    ensures Inv(c, AfterPersistState(s, w))
  {
    var l := s.links[w];
    var l' := AfterFlush(l, l.rx.after);
    PersistKeepsStore(c, s, w);
    assert LinkOk(c, s.store.volatile, l);
    AfterFlushOk(c, s.store.volatile, l);
    LinksOkAfter(c, s.store.volatile, s.links, w, l');
    NoNewWork(s.store.rt.flags, s.queue, s.links, w, l');
    CoveredAfter(s.store.rt, s.store.rt, s.links, w, l');
  }

  // ------------------------------------------------------------------- the environment and faults

  lemma WritebackKeepsStore(c: Config, s: State, e: FileId, lo: nat, hi: nat)
    requires Inv(c, s) && CanWriteback(s, e, lo, hi)
    ensures StoreOk(c, AfterWriteback(s, e, lo, hi).store)
  {
    var a := s.store;
    var b := AfterWriteback(s, e, lo, hi).store;
    WritebackMixes(c, s, e, lo, hi);
    MixKeepsFlagsRight(c, a.rt.flags, a.durable, a.volatile, b.durable, a.rt.dirty + JobLeft(a.job), a.gone);
    if a.job.Some? {
      MixKeepsFlagsRight(c, a.job.value.snapshot, a.durable, a.volatile, b.durable, a.job.value.left, a.gone);
    }
    forall p | p in b.persisted ensures PersistedOk(c, p, b.volatile, b.durable, b.gone) {
      assert PersistedOk(c, p, a.volatile, a.durable, a.gone);
      MixKeepsFlagsRight(c, p, a.durable, a.volatile, b.durable, {}, a.gone);
    }
  }

  lemma WritebackKeepsInv(c: Config, s: State, e: FileId, lo: nat, hi: nat)
    requires Inv(c, s) && CanWriteback(s, e, lo, hi)
    ensures Inv(c, AfterWriteback(s, e, lo, hi))
  {
    var a := s.store;
    WritebackKeepsStore(c, s, e, lo, hi);
    if !a.stopped {
      WritebackMixes(c, s, e, lo, hi);
      MixKeepsFlagsRight(c, Newly(a.rt.flags, a.resumed), a.durable, a.volatile,
                         AfterWriteback(s, e, lo, hi).store.durable, a.rt.dirty + JobLeft(a.job), {});
    }
  }

  lemma FailReceiverKeepsInv(c: Config, s: State, w: nat)
    requires Inv(c, s) && CanFailReceiver(s, w)
    ensures Inv(c, AfterFailReceiver(s, w))
  {
    LinkStep(c, s, w, AfterFailReceiver(s, w).links[w]);
  }

  // ------------------------------------------------------------------------- the start of a run

  lemma {:induction false} IdleLinksCarryNothing(links: seq<Link>, t: ChunkTask)
    requires forall w :: 0 <= w < |links| ==> links[w] == IDLE
    ensures LinksWork(links, t) == 0
  {
    if |links| > 0 {
      IdleLinksCarryNothing(links[..|links| - 1], t);
    }
  }

  /** On its way means exactly: a chunk of the manifest that is not flagged, once. */
  ghost predicate WorkExact(c: Config, s: State) {
    forall t :: Work(s.queue, s.links, t) == CountIf(TaskOk(c, t) && !IsFlagged(s.store.rt.flags, t.entryId, t.chunkIndex))
  }

  lemma EntryTaskOk(c: Config, k: nat, index: nat)
    requires ValidConfig(c) && k < |c.entries| && c.entries[k].kind.RegularFile? && index < c.entries[k].chunkCount
    ensures TaskOk(c, TaskFor(c.entries[k], index))
  {
    assert SoundFile(c.entries[k]);
    ByIdFinds(c.entries, k);
    ChunkInsideFile(|c.source[c.entries[k].id]|, index);
  }

  /** The plan a run starts with leaves to do exactly what is not flagged. */
  lemma StartingPlan(c: Config, flags: Flags, fromScratch: bool, k: nat, index: nat)
    requires ValidConfig(c) && FlagsLayout(c, flags) && (fromScratch ==> flags == FreshFlags(c))
    requires k < |c.entries| && c.entries[k].kind.RegularFile? && index < c.entries[k].chunkCount
    ensures FlagsFit(c.entries, flags)
    ensures var plan := if fromScratch then [] else PlanOf(c.entries, flags).1;
            multiset(Tasks(c.entries, Completed(plan)))[TaskFor(c.entries[k], index)]
              == CountIf(!IsFlagged(flags, c.entries[k].id, index))
  {
    FlagsFitEntries(c, flags);
    assert SoundFile(c.entries[k]);
    if fromScratch {
      QueuedExactlyOnce(c.entries, map[], k, index);
    } else {
      QueueIsComplementOfFlags(c.entries, flags, k, index);
    }
  }

  lemma StartQueueOk(c: Config, plan: seq<ResumeFilePlan>, j: nat)
    requires ValidConfig(c) && j < |Tasks(c.entries, Completed(plan))|
    ensures TaskOk(c, Tasks(c.entries, Completed(plan))[j])
  {
    var k := QueuedTasksAreSound(c.entries, Completed(plan), j);
    EntryTaskOk(c, k, Tasks(c.entries, Completed(plan))[j].chunkIndex);
  }

  lemma StartWorkExact(c: Config, flags: Flags, fromScratch: bool, volatile: Files, durable: Files, persisted: set<Flags>,
                       gone: set<FileId>, parallel: nat)
    requires ValidConfig(c) && FlagsLayout(c, flags) && (fromScratch ==> flags == FreshFlags(c))
    ensures WorkExact(c, StartRun(c, flags, fromScratch, volatile, durable, persisted, gone, parallel))
    ensures QueueOk(c, StartRun(c, flags, fromScratch, volatile, durable, persisted, gone, parallel).queue)
  {
    var s := StartRun(c, flags, fromScratch, volatile, durable, persisted, gone, parallel);
    FlagsFitEntries(c, flags);
    var plan := if fromScratch then [] else PlanOf(c.entries, flags).1;
    forall k | 0 <= k < |s.queue| ensures TaskOk(c, s.queue[k]) {
      StartQueueOk(c, plan, k);
    }
    forall t
      ensures Work(s.queue, s.links, t) == CountIf(TaskOk(c, t) && !IsFlagged(flags, t.entryId, t.chunkIndex))
    {
      IdleLinksCarryNothing(s.links, t);
      if TaskOk(c, t) {
        var k := EntryIndex(c, t.entryId);
        assert SoundFile(c.entries[k]);
        assert t == TaskFor(c.entries[k], t.chunkIndex);
        StartingPlan(c, flags, fromScratch, k, t.chunkIndex);
      } else {
        assert t !in s.queue;
      }
    }
  }

  lemma FreshRunOk(c: Config, store: Store)
    requires FlagsLayout(c, store.resumed) && store.rt == Runtime(store.resumed, map[], {}, 0)
    ensures RunOk(c, store)
  {
    assert forall e, i :: !IsFlagged(Newly(store.rt.flags, store.resumed), e, i);
  }

  lemma FreshStoreOk(c: Config, store: Store)
    requires FilesLayout(c, store.volatile) && FilesLayout(c, store.durable)
    requires store.rt == Runtime(store.resumed, map[], {}, 0) && store.job == None && store.resumed in store.persisted
    requires AllPersistedOk(c, store.persisted, store.volatile, store.durable, store.gone)
    ensures StoreOk(c, store)
  {
    assert PersistedOk(c, store.resumed, store.volatile, store.durable, store.gone);
  }

  lemma FreshLinksOk(c: Config, volatile: Files, links: seq<Link>)
    requires forall w :: 0 <= w < |links| ==> links[w] == IDLE
    ensures LinksOk(c, volatile, links)
  {
  }

  lemma ExactIsOk(c: Config, s: State)
    requires WorkExact(c, s)
    ensures WorkOk(s.store.rt.flags, s.queue, s.links)
  {
    forall t ensures Work(s.queue, s.links, t) <= CountIf(!IsFlagged(s.store.rt.flags, t.entryId, t.chunkIndex)) {
      assert Work(s.queue, s.links, t) == CountIf(TaskOk(c, t) && !IsFlagged(s.store.rt.flags, t.entryId, t.chunkIndex));
    }
  }

  /** A run that starts from durable flags starts in the invariant. */
  lemma StartKeepsInv(c: Config, flags: Flags, fromScratch: bool, volatile: Files, durable: Files, persisted: set<Flags>,
                      gone: set<FileId>, parallel: nat)
    requires ValidConfig(c) && FlagsLayout(c, flags) && (fromScratch ==> flags == FreshFlags(c))
    requires FilesLayout(c, volatile) && FilesLayout(c, durable)
    requires flags in persisted && AllPersistedOk(c, persisted, volatile, durable, gone)
    ensures Inv(c, StartRun(c, flags, fromScratch, volatile, durable, persisted, gone, parallel))
  {
    var s := StartRun(c, flags, fromScratch, volatile, durable, persisted, gone, parallel);
    StartWorkExact(c, flags, fromScratch, volatile, durable, persisted, gone, parallel);
    FreshStoreOk(c, s.store);
    FreshRunOk(c, s.store);
    FreshLinksOk(c, volatile, s.links);
    ExactIsOk(c, s);
  }

  lemma FreshFlagsAreRight(c: Config, volatile: Files, durable: Files, gone: set<FileId>)
    ensures PersistedOk(c, FreshFlags(c), volatile, durable, gone)
  {
    assert forall e, i :: !IsFlagged(FreshFlags(c), e, i);
  }

  lemma InitInv(c: Config, s: State)
    requires Init(c, s)
    ensures Inv(c, s)
  {
    var volatile, durable := s.store.volatile, s.store.durable;
    var parallel: nat :| s == StartRun(c, FreshFlags(c), true, volatile, durable, {FreshFlags(c)}, {}, parallel);
    FreshFlagsAreRight(c, volatile, durable, {});
    StartKeepsInv(c, FreshFlags(c), true, volatile, durable, {FreshFlags(c)}, {}, parallel);
  }

  lemma RestartKeepsInv(c: Config, s: State, powerLoss: bool, found: Option<Flags>, parallel: nat)
    requires Inv(c, s) && CanRestart(c, s, found)
    ensures Inv(c, AfterRestart(c, s, powerLoss, found, parallel))
  {
    var a := s.store;
    var volatile := if powerLoss then a.durable else a.volatile;
    var persisted := if found.Some? then a.persisted else a.persisted + {FreshFlags(c)};
    FreshFlagsAreRight(c, volatile, a.durable, a.gone);
    forall p | p in persisted ensures PersistedOk(c, p, volatile, a.durable, a.gone) {
      assert p in a.persisted ==> PersistedOk(c, p, a.volatile, a.durable, a.gone);
    }
    if found.Some? {
      StartKeepsInv(c, found.value, false, volatile, a.durable, persisted, a.gone, parallel);
    } else {
      StartKeepsInv(c, FreshFlags(c), true, volatile, a.durable, persisted, a.gone, parallel);
    }
  }

  // -------------------------------------------------- the end of a run: reset, commit, declined

  lemma FewerFlagsRight(c: Config, flags: Flags, flags': Flags, files: Files, gone: set<FileId>)
    requires FlagsRight(c, flags, files, {}, gone)
    requires forall e, i :: IsFlagged(flags', e, i) ==> IsFlagged(flags, e, i)
    ensures FlagsRight(c, flags', files, {}, gone)
  {
  }

  lemma ResetKeepsStore(c: Config, s: State, e: FileId)
    requires StoreOk(c, s.store) && e in s.store.rt.flags && s.store.job.None? && s.store.rt.dirty == {}
    ensures StoreOk(c, AfterReset(s, e).store)
  {
    var a := s.store;
    var b := AfterReset(s, e).store;
    ResetFlagsAreFewer(a.rt, e);
    FewerFlagsRight(c, a.rt.flags, b.rt.flags, a.volatile, a.gone);
    FewerFlagsRight(c, a.rt.flags, b.rt.flags, a.durable, a.gone);
    assert PersistedOk(c, b.rt.flags, b.volatile, b.durable, b.gone);
  }

  lemma ResetFlagsAreFewer(rt: Runtime, e: FileId)
    requires e in rt.flags
    ensures forall f, i :: IsFlagged(Reset(rt, e).flags, f, i) ==> IsFlagged(rt.flags, f, i)
  {
  }

  /** When every worker is done, or none has begun, nothing is dirty and no flush is under way. */
  lemma QuietMeansClean(c: Config, s: State)
    requires Inv(c, s) && forall w :: 0 <= w < |s.links| ==> s.links[w].rx.Done? || s.links[w].rx.AwaitHello?
    ensures NothingToFlush(s.store.rt) && s.store.job.None?
    ensures s.store.rt.dirty + JobLeft(s.store.job) == {}
  {
  }

  /** A run that is over, with its store in order. */
  lemma StoppedInv(c: Config, s: State)
    requires ValidConfig(c) && StoreOk(c, s.store) && s.store.stopped && s.queue == [] && s.links == []
    requires NothingToFlush(s.store.rt) && s.store.job.None?
    ensures Inv(c, s)
  {
  }

  lemma ResetKeepsInv(c: Config, s: State, e: FileId)
    requires Inv(c, s) && CanReset(c, s, e)
    ensures Inv(c, AfterReset(s, e))
  {
    QuietMeansClean(c, s);
    ResetKeepsStore(c, s, e);
    StoppedInv(c, AfterReset(s, e));
  }

  /** What leaves the stage leaves a zero where a byte was right. */
  lemma RecreatedIsFine(c: Config, flags: Flags, files: Files, moved: set<FileId>, gone: set<FileId>, gone': set<FileId>)
    requires FilesLayout(c, files) && FlagsRight(c, flags, files, {}, gone) && gone + moved <= gone'
    ensures FilesLayout(c, Recreated(files, moved))
    ensures FlagsRight(c, flags, Recreated(files, moved), {}, gone')
  {
    var files' := Recreated(files, moved);
    forall e, i | e in c.source && IsFlagged(flags, e, i)
      ensures ChunkRight(c, files', gone', e, i)
    {
      assert ChunkRight(c, files, gone, e, i);
      forall k: nat | InChunk(|c.source[e]|, i, k) ensures RightAt(c, files', gone', e, k) {
        assert RightAt(c, files, gone, e, k);
      }
    }
  }

  lemma RemovalKeepsStore(c: Config, s: State, lost: set<FileId>, settled: set<FileId>)
    requires StoreOk(c, s.store) && NothingToFlush(s.store.rt) && s.store.job.None? && settled <= lost
    ensures StoreOk(c, StageWithout(s, lost, settled).store)
  {
    var a := s.store;
    var b := StageWithout(s, lost, settled).store;
    RecreatedIsFine(c, a.rt.flags, a.volatile, lost, a.gone, b.gone);
    RecreatedIsFine(c, a.rt.flags, a.durable, settled, a.gone, b.gone);
    forall p | p in b.persisted ensures PersistedOk(c, p, b.volatile, b.durable, b.gone) {
      assert PersistedOk(c, p, a.volatile, a.durable, a.gone);
      RecreatedIsFine(c, p, a.volatile, lost, a.gone, b.gone);
      RecreatedIsFine(c, p, a.durable, settled, a.gone, b.gone);
    }
  }

  lemma CommitKeepsInv(c: Config, s: State, moved: set<FileId>, settled: set<FileId>)
    requires Inv(c, s) && CanCommitStage(c, s, moved, settled)
    ensures Inv(c, StageWithout(s, moved, settled))
  {
    QuietMeansClean(c, s);
    RemovalKeepsStore(c, s, moved, settled);
    StoppedInv(c, StageWithout(s, moved, settled));
  }

  lemma DeclineKeepsInv(c: Config, s: State, removed: set<FileId>, settled: set<FileId>)
    requires Inv(c, s) && CanDeclineStage(c, s, removed, settled)
    ensures Inv(c, StageWithout(s, removed, settled))
  {
    QuietMeansClean(c, s);
    RemovalKeepsStore(c, s, removed, settled);
    StoppedInv(c, StageWithout(s, removed, settled));
  }

  // -------------------------------------------------------------------------- whole schedules

  lemma StepKeepsInv(c: Config, s: State, step: Step)
    requires Inv(c, s) && Enabled(c, s, step)
    ensures Inv(c, Apply(c, s, step))
  {
    match step
    case SendHello(w) => SendHelloKeepsInv(c, s, w);
    case Pop(w) => PopKeepsInv(c, s, w);
    case SendChunk(w) => SendChunkKeepsInv(c, s, w);
    case Receive(w) => ReceiveKeepsInv(c, s, w);
    case WriteSome(w, n) => WriteKeepsInv(c, s, w, n);
    case MarkChunk(w) => MarkKeepsInv(c, s, w);
    case BeginFlush(w) =>
      if NothingToFlush(s.store.rt) {
        EmptyFlushKeepsInv(c, s, w);
      } else {
        SnapshotKeepsInv(c, s, w);
      }
    case SyncFile(w, e) => SyncKeepsInv(c, s, w, e);
    case PersistState(w) => PersistKeepsInv(c, s, w);
    case ReadComplete(w) => ReadCompleteKeepsInv(c, s, w);
    case Writeback(e, lo, hi) => WritebackKeepsInv(c, s, e, lo, hi);
    case FailSender(w) => FailSenderKeepsInv(c, s, w);
    case FailReceiver(w) => FailReceiverKeepsInv(c, s, w);
    case ResetAfterMismatch(e) => ResetKeepsInv(c, s, e);
    case CommitStage(moved, settled) => CommitKeepsInv(c, s, moved, settled);
    case DeclineStage(removed, settled) => DeclineKeepsInv(c, s, removed, settled);
    case Restart(powerLoss, found, parallel) => RestartKeepsInv(c, s, powerLoss, found, parallel);
  }

  lemma ScheduleKeepsInv(c: Config, s: State, steps: seq<Step>)
    requires Inv(c, s) && Schedule(c, s, steps)
    ensures Inv(c, Outcome(c, s, steps))
  {
    forall t, step | Inv(c, t) && Enabled(c, t, step)
      ensures Inv(c, Apply(c, t, step))
    {
      StepKeepsInv(c, t, step);
    }
    ScheduleKeeps(c, s, steps, _ => true, t => Inv(c, t));
  }

  /** Crash durability. Whatever the workers, the page cache and the failures do, every version of
      the state file ever written flags only chunks whose bytes are durable and correct. Of a file
      that has left the stage, a byte may be zero instead. */
  lemma CrashDurability(c: Config, s: State, steps: seq<Step>)
    requires Init(c, s) && Schedule(c, s, steps)
    ensures var store := Outcome(c, s, steps).store;
            forall p, e, i :: p in store.persisted && e in c.source && IsFlagged(p, e, i) ==>
              ChunkRight(c, store.durable, store.gone, e, i)
              && (e !in store.gone ==> ChunkRight(c, store.durable, {}, e, i))
  {
    InitInv(c, s);
    ScheduleKeepsInv(c, s, steps);
    var store := Outcome(c, s, steps).store;
    forall p, e, i | p in store.persisted && e in c.source && IsFlagged(p, e, i)
      ensures ChunkRight(c, store.durable, store.gone, e, i)
      ensures e !in store.gone ==> ChunkRight(c, store.durable, {}, e, i)
    {
      assert PersistedOk(c, p, store.volatile, store.durable, store.gone);
      assert ChunkRight(c, store.durable, store.gone, e, i);
      if e !in store.gone {
        NotGoneIsRight(c, store.durable, store.gone, e, i);
      }
    }
  }

  lemma NotGoneIsRight(c: Config, files: Files, gone: set<FileId>, e: FileId, i: nat)
    requires e in c.source && e !in gone && ChunkRight(c, files, gone, e, i)
    ensures ChunkRight(c, files, {}, e, i)
  {
    forall k: nat | InChunk(|c.source[e]|, i, k) ensures RightAt(c, files, {}, e, k) {
      assert RightAt(c, files, gone, e, k);
    }
  }
}
