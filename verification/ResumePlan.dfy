/** What is left to send: the resume plan the receiver derives from its state file, the chunk
    tasks the sender derives from that plan, and the number of data streams both sides settle on
    (vendored-from-bore/transfer.rs:1361-1448, 1938-1982, 2717-2755). */
module ResumePlan {
  import opened Common
  import opened Chunking
  import opened ManifestTypes

  const MAX_PARALLEL: nat := 32

  datatype FileResumeState = FileResumeState(entryId: nat, completed: seq<bool>)

  datatype ResumeFilePlan = ResumeFilePlan(entryId: nat, completedChunks: seq<nat>)

  datatype ChunkTask = ChunkTask(entryId: nat, offset: nat, len: nat, chunkIndex: nat)

  datatype PlanError = UnknownEntry(id: nat) | LayoutMismatch(entryId: nat)

  // ---------------------------------------------------------------- the receiver's resume plan

  function ById(entries: seq<ManifestEntry>): map<nat, ManifestEntry> {
    if |entries| == 0 then map[]
    else ById(entries[..|entries| - 1])[entries[|entries| - 1].id := entries[|entries| - 1]]
  }

  /** The set bits below `n`, in ascending order. */
  function DoneIndices(completed: seq<bool>, n: nat): seq<nat>
    requires n <= |completed|
  {
    if n == 0 then []
    else if completed[n - 1] then DoneIndices(completed, n - 1) + [n - 1]
    else DoneIndices(completed, n - 1)
  }

  function DoneBytes(size: nat, completed: seq<bool>, n: nat): nat
    requires n <= |completed|
  {
    if n == 0 then 0
    else DoneBytes(size, completed, n - 1) + if completed[n - 1] then ChunkLen(size, n - 1) else 0
  }

  predicate FileError(byId: map<nat, ManifestEntry>, file: FileResumeState) {
    file.entryId !in byId || |file.completed| != byId[file.entryId].chunkCount
  }

  predicate FirstError(byId: map<nat, ManifestEntry>, files: seq<FileResumeState>, k: int) {
    0 <= k < |files| && FileError(byId, files[k]) && forall j :: 0 <= j < k ==> !FileError(byId, files[j])
  }

  function ErrorOf(byId: map<nat, ManifestEntry>, file: FileResumeState): PlanError {
    if file.entryId in byId then LayoutMismatch(file.entryId) else UnknownEntry(file.entryId)
  }

  /** The plan for the first `n` files of the state, and the bytes it accounts for. */
  function PlanPrefix(byId: map<nat, ManifestEntry>, files: seq<FileResumeState>, n: nat): (nat, seq<ResumeFilePlan>)
    requires n <= |files|
    requires forall k :: 0 <= k < n ==> !FileError(byId, files[k])
  {
    if n == 0 then (0, [])
    else
      var before := PlanPrefix(byId, files, n - 1);
      var file := files[n - 1];
      assert !FileError(byId, file);
      (before.0 + DoneBytes(SizeOf(byId[file.entryId]), file.completed, |file.completed|),
       before.1 + [ResumeFilePlan(file.entryId, DoneIndices(file.completed, |file.completed|))])
  }

  method BuildResumePlan(entries: seq<ManifestEntry>, files: seq<FileResumeState>)
    returns (r: Result<(nat, seq<ResumeFilePlan>), PlanError>)
    ensures r.Ok? <==> forall k :: 0 <= k < |files| ==> !FileError(ById(entries), files[k])
    ensures r.Ok? ==> r.value == PlanPrefix(ById(entries), files, |files|)
    ensures r.Err? ==> exists k :: FirstError(ById(entries), files, k) && r.error == ErrorOf(ById(entries), files[k])
  {
    var byId := map[];
    for i := 0 to |entries|
      invariant byId == ById(entries[..i])
    {
      assert entries[..i + 1][..i] == entries[..i];
      byId := byId[entries[i].id := entries[i]];
    }
    assert entries[..|entries|] == entries;
    var resumedBytes, plans := 0, [];
    for k := 0 to |files|
      invariant forall j :: 0 <= j < k ==> !FileError(byId, files[j])
      invariant (resumedBytes, plans) == PlanPrefix(byId, files, k)
    {
      var file := files[k];
      if file.entryId !in byId {
        return Err(UnknownEntry(file.entryId));
      }
      var entry := byId[file.entryId];
      if |file.completed| != entry.chunkCount {
        return Err(LayoutMismatch(file.entryId));
      }
      var completedChunks := [];
      var bytes := 0;
      for index := 0 to |file.completed|
        invariant completedChunks == DoneIndices(file.completed, index)
        invariant bytes == DoneBytes(SizeOf(entry), file.completed, index)
      {
        if file.completed[index] {
          completedChunks := completedChunks + [index];
          bytes := bytes + ChunkLen(SizeOf(entry), index);
        }
      }
      resumedBytes := resumedBytes + bytes;
      plans := plans + [ResumeFilePlan(file.entryId, completedChunks)];
    }
    return Ok((resumedBytes, plans));
  }

  function Upto(n: nat): (s: seq<nat>) {
    seq(n, i => i)
  }

  /** `all_chunks_complete_plan` */
  function AllChunksCompletePlan(entries: seq<ManifestEntry>): seq<ResumeFilePlan> {
    if |entries| == 0 then []
    else
      (if entries[0].kind.RegularFile? then [ResumeFilePlan(entries[0].id, Upto(entries[0].chunkCount))] else [])
      + AllChunksCompletePlan(entries[1..])
  }

  // ---------------------------------------------------------------------- the sender's tasks

  function Completed(plan: seq<ResumeFilePlan>): map<nat, seq<nat>> {
    if |plan| == 0 then map[]
    else Completed(plan[..|plan| - 1])[plan[|plan| - 1].entryId := plan[|plan| - 1].completedChunks]
  }

  function CompletedOf(completed: map<nat, seq<nat>>, id: nat): seq<nat> {
    if id in completed then completed[id] else []
  }

  function TaskFor(entry: ManifestEntry, index: nat): ChunkTask {
    ChunkTask(entry.id, ChunkOffset(index), ChunkLen(SizeOf(entry), index), index)
  }

  function EntryTasks(entry: ManifestEntry, done: seq<nat>, n: nat): seq<ChunkTask> {
    if n == 0 then []
    else if n - 1 in done then EntryTasks(entry, done, n - 1)
    else EntryTasks(entry, done, n - 1) + [TaskFor(entry, n - 1)]
  }

  /** The tasks of one entry of the manifest. */
  function TasksOf(entry: ManifestEntry, completed: map<nat, seq<nat>>): seq<ChunkTask> {
    if entry.kind.RegularFile? then EntryTasks(entry, CompletedOf(completed, entry.id), entry.chunkCount) else []
  }

  function Tasks(entries: seq<ManifestEntry>, completed: map<nat, seq<nat>>): seq<ChunkTask> {
    if |entries| == 0 then []
    else Tasks(entries[..|entries| - 1], completed) + TasksOf(entries[|entries| - 1], completed)
  }

  method BuildChunkTasks(entries: seq<ManifestEntry>, plan: seq<ResumeFilePlan>) returns (tasks: seq<ChunkTask>)
    ensures tasks == Tasks(entries, Completed(plan))
  {
    var completed := map[];
    for i := 0 to |plan|
      invariant completed == Completed(plan[..i])
    {
      assert plan[..i + 1][..i] == plan[..i];
      completed := completed[plan[i].entryId := plan[i].completedChunks];
    }
    assert plan[..|plan|] == plan;
    tasks := [];
    for i := 0 to |entries|
      invariant tasks == Tasks(entries[..i], completed)
    {
      var entry := entries[i];
      assert entries[..i + 1][..i] == entries[..i];
      if entry.kind.RegularFile? {
        var done := if entry.id in completed then completed[entry.id] else [];
        ghost var before := tasks;
        for index := 0 to entry.chunkCount
          invariant tasks == before + EntryTasks(entry, done, index)
        {
          if index !in done {
            tasks := tasks + [ChunkTask(entry.id, index * CHUNK_SIZE, ChunkLen(SizeOf(entry), index), index)];
          }
        }
      }
    }
    assert entries[..|entries|] == entries;
  }

  // ------------------------------------------------------------- what each task looks like

  datatype GeometryError = MissingSize | IndexOutOfRange | GeometryMismatch

  /** `validate_chunk_geometry`, the receiver's check of an announced chunk. */
  function ValidateChunkGeometry(entry: ManifestEntry, index: nat, offset: nat, len: nat): Result<(), GeometryError> {
    if entry.size.None? then Err(MissingSize)
    else if index >= entry.chunkCount then Err(IndexOutOfRange)
    else if offset != ChunkOffset(index) || len != ChunkLen(entry.size.value, index) then Err(GeometryMismatch)
    else Ok(())
  }

  /** A regular entry as the manifest check leaves it. */
  predicate SoundFile(entry: ManifestEntry) {
    entry.kind.RegularFile? ==> entry.size.Some? && entry.chunkCount == ChunkCountFor(entry.size.value)
  }

  predicate SoundFiles(entries: seq<ManifestEntry>) {
    forall k :: 0 <= k < |entries| ==> SoundFile(entries[k])
  }

  predicate Wanted(entries: seq<ManifestEntry>, completed: map<nat, seq<nat>>, k: nat, index: nat) {
    k < |entries| && entries[k].kind.RegularFile? && index < entries[k].chunkCount
    && index !in CompletedOf(completed, entries[k].id)
  }

  lemma OccursAppended<T>(s: seq<T>, x: T, t: T)
    ensures multiset(s + [x])[t] == multiset(s)[t] + if x == t then 1 else 0
  {
    assert multiset(s + [x]) == multiset(s) + multiset([x]);
  }

  lemma OccursJoined<T>(a: seq<T>, b: seq<T>, t: T)
    ensures multiset(a + b)[t] == multiset(a)[t] + multiset(b)[t]
  {
    assert multiset(a + b) == multiset(a) + multiset(b);
  }

  lemma {:induction false} EntryTasksOccurrences(entry: ManifestEntry, done: seq<nat>, n: nat, t: ChunkTask)
    ensures multiset(EntryTasks(entry, done, n))[t] ==
            if t.chunkIndex < n && t.chunkIndex !in done && t == TaskFor(entry, t.chunkIndex) then 1 else 0
  {
    if n > 0 {
      EntryTasksOccurrences(entry, done, n - 1, t);
      var x := TaskFor(entry, n - 1);
      assert x.chunkIndex == n - 1;
      if n - 1 !in done {
        OccursAppended(EntryTasks(entry, done, n - 1), x, t);
      }
    }
  }

  /** Every chunk that is not complete is queued exactly once; nothing else is queued. */
  lemma {:induction false} QueuedExactlyOnce(entries: seq<ManifestEntry>, completed: map<nat, seq<nat>>, k: nat, index: nat)
    requires UniqueIds(entries) && k < |entries|
    ensures multiset(Tasks(entries, completed))[TaskFor(entries[k], index)] ==
            if Wanted(entries, completed, k, index) then 1 else 0
  {
    var last := |entries| - 1;
    var front := entries[..last];
    var t := TaskFor(entries[k], index);
    OccursJoined(Tasks(front, completed), TasksOf(entries[last], completed), t);
    EntryTasksOccurrences(entries[last], CompletedOf(completed, entries[last].id), entries[last].chunkCount, t);
    if k == last {
      ForeignTasksAbsent(front, completed, t);
    } else {
      assert entries[last].id != t.entryId;
      QueuedExactlyOnce(front, completed, k, index);
    }
  }

  lemma {:induction false} ForeignTasksAbsent(entries: seq<ManifestEntry>, completed: map<nat, seq<nat>>, t: ChunkTask)
    requires forall k :: 0 <= k < |entries| ==> entries[k].id != t.entryId
    ensures multiset(Tasks(entries, completed))[t] == 0
  {
    if |entries| > 0 {
      var last := |entries| - 1;
      OccursJoined(Tasks(entries[..last], completed), TasksOf(entries[last], completed), t);
      EntryTasksOccurrences(entries[last], CompletedOf(completed, entries[last].id), entries[last].chunkCount, t);
      ForeignTasksAbsent(entries[..last], completed, t);
    }
  }

  /** Every queued task belongs to a regular entry, is wanted, and passes the receiver's check. */
  lemma {:induction false} QueuedTasksAreSound(entries: seq<ManifestEntry>, completed: map<nat, seq<nat>>, j: nat) returns (k: nat)
    requires SoundFiles(entries) && j < |Tasks(entries, completed)|
    ensures k < |entries|
    ensures var t := Tasks(entries, completed)[j];
            && t == TaskFor(entries[k], t.chunkIndex)
            && Wanted(entries, completed, k, t.chunkIndex)
            && ValidateChunkGeometry(entries[k], t.chunkIndex, t.offset, t.len).Ok?
  {
    var last := |entries| - 1;
    var before := Tasks(entries[..last], completed);
    if j < |before| {
      assert Tasks(entries, completed)[j] == before[j];
      k := QueuedTasksAreSound(entries[..last], completed, j);
      assert entries[..last][k] == entries[k];
    } else {
      k := last;
      var t := TasksOf(entries[last], completed)[j - |before|];
      assert Tasks(entries, completed)[j] == t;
      assert t in multiset(TasksOf(entries[last], completed));
      EntryTasksOccurrences(entries[last], CompletedOf(completed, entries[last].id), entries[last].chunkCount, t);
    }
  }

  // ------------------------------------------------------------------------- conservation

  function TaskBytes(tasks: seq<ChunkTask>): nat {
    if |tasks| == 0 then 0 else TaskBytes(tasks[..|tasks| - 1]) + tasks[|tasks| - 1].len
  }

  function TotalBytes(entries: seq<ManifestEntry>): nat {
    if |entries| == 0 then 0
    else
      var last := entries[|entries| - 1];
      TotalBytes(entries[..|entries| - 1]) + if last.kind.RegularFile? then SizeOf(last) else 0
  }

  lemma {:induction false} TaskBytesAppend(a: seq<ChunkTask>, b: seq<ChunkTask>)
    ensures TaskBytes(a + b) == TaskBytes(a) + TaskBytes(b)
  {
    if |b| == 0 {
      assert a + b == a;
    } else {
      var m := |b| - 1;
      assert (a + b)[..|a + b| - 1] == a + b[..m];
      TaskBytesAppend(a, b[..m]);
    }
  }

  lemma {:induction false} DoneIndicesMembers(completed: seq<bool>, n: nat, i: nat)
    requires n <= |completed|
    ensures i in DoneIndices(completed, n) <==> i < n && completed[i]
  {
    if n > 0 {
      DoneIndicesMembers(completed, n - 1, i);
    }
  }

  /** For one file, what is resumed and what is queued add up to its chunks. */
  lemma {:induction false} FileConservation(entry: ManifestEntry, completed: seq<bool>, n: nat)
    requires n <= |completed|
    ensures DoneBytes(SizeOf(entry), completed, n)
            + TaskBytes(EntryTasks(entry, DoneIndices(completed, |completed|), n)) == SumOfLens(SizeOf(entry), n)
  {
    var done := DoneIndices(completed, |completed|);
    if n > 0 {
      FileConservation(entry, completed, n - 1);
      DoneIndicesMembers(completed, |completed|, n - 1);
      TaskBytesAppend(EntryTasks(entry, done, n - 1), [TaskFor(entry, n - 1)]);
      assert TaskBytes([TaskFor(entry, n - 1)]) == TaskBytes([]) + ChunkLen(SizeOf(entry), n - 1) by {
        assert [TaskFor(entry, n - 1)][..0] == [];
      }
    }
  }

  /** The state file a run of the receiver keeps: one bitmap of the right length per regular file,
      in manifest order. */
  function StateFiles(entries: seq<ManifestEntry>, flags: map<nat, seq<bool>>): seq<FileResumeState> {
    if |entries| == 0 then []
    else
      var last := entries[|entries| - 1];
      var before := StateFiles(entries[..|entries| - 1], flags);
      if last.kind.RegularFile? && last.id in flags then before + [FileResumeState(last.id, flags[last.id])] else before
  }

  predicate FlagsFit(entries: seq<ManifestEntry>, flags: map<nat, seq<bool>>) {
    forall k :: 0 <= k < |entries| && entries[k].kind.RegularFile? ==>
      entries[k].id in flags && |flags[entries[k].id]| == entries[k].chunkCount
  }

  lemma {:induction false} ByIdFinds(entries: seq<ManifestEntry>, k: nat)
    requires UniqueIds(entries) && k < |entries|
    ensures entries[k].id in ById(entries) && ById(entries)[entries[k].id] == entries[k]
  {
    var last := |entries| - 1;
    if k < last {
      ByIdFinds(entries[..last], k);
    }
  }

  lemma {:induction false} StateFilesAreKnown(entries: seq<ManifestEntry>, prefix: nat, flags: map<nat, seq<bool>>)
    requires UniqueIds(entries) && FlagsFit(entries, flags) && prefix <= |entries|
    ensures forall j :: 0 <= j < |StateFiles(entries[..prefix], flags)| ==>
              !FileError(ById(entries), StateFiles(entries[..prefix], flags)[j])
  {
    if prefix > 0 {
      StateFilesAreKnown(entries, prefix - 1, flags);
      assert entries[..prefix][..prefix - 1] == entries[..prefix - 1];
      ByIdFinds(entries, prefix - 1);
    }
  }

  /** The plan that `BuildResumePlan` returns for a state file. */
  function PlanOf(entries: seq<ManifestEntry>, flags: map<nat, seq<bool>>): (r: (nat, seq<ResumeFilePlan>))
    requires UniqueIds(entries) && FlagsFit(entries, flags)
  {
    var files := StateFiles(entries, flags);
    assert entries[..|entries|] == entries;
    StateFilesAreKnown(entries, |entries|, flags);
    PlanPrefix(ById(entries), files, |files|)
  }

  predicate HasId(entries: seq<ManifestEntry>, id: nat) {
    exists k :: 0 <= k < |entries| && entries[k].id == id
  }

  predicate NoFileError(byId: map<nat, ManifestEntry>, files: seq<FileResumeState>) {
    forall k :: 0 <= k < |files| ==> !FileError(byId, files[k])
  }

  /** What the sender reads off the plan for these files. */
  function CompletedIn(byId: map<nat, ManifestEntry>, files: seq<FileResumeState>): map<nat, seq<nat>>
    requires NoFileError(byId, files)
  {
    Completed(PlanPrefix(byId, files, |files|).1)
  }

  /** One more file in the state adds its own chunks. */
  lemma CompletedOneMore(byId: map<nat, ManifestEntry>, before: seq<FileResumeState>, file: FileResumeState)
    requires NoFileError(byId, before) && !FileError(byId, file)
    ensures NoFileError(byId, before + [file])
    ensures CompletedIn(byId, before + [file]) ==
            CompletedIn(byId, before)[file.entryId := DoneIndices(file.completed, |file.completed|)]
  {
    PlanPrefixDependsOnPrefix(byId, before + [file], before, |before|);
    var plan := PlanPrefix(byId, before + [file], |before| + 1).1;
    assert plan[..|plan| - 1] == PlanPrefix(byId, before, |before|).1;
  }

  /** What is agreed on about the first `prefix` entries. */
  predicate Agrees(entries: seq<ManifestEntry>, prefix: nat, flags: map<nat, seq<bool>>, completed: map<nat, seq<nat>>)
    requires FlagsFit(entries, flags) && prefix <= |entries|
  {
    && (forall id :: id in completed ==> HasId(entries[..prefix], id))
    && (forall k :: 0 <= k < prefix && entries[k].kind.RegularFile? ==>
          CompletedOf(completed, entries[k].id) == DoneIndices(flags[entries[k].id], |flags[entries[k].id]|))
  }

  lemma AgreesOneMore(entries: seq<ManifestEntry>, prefix: nat, flags: map<nat, seq<bool>>, completed: map<nat, seq<nat>>)
    requires UniqueIds(entries) && FlagsFit(entries, flags) && prefix < |entries| && Agrees(entries, prefix, flags, completed)
    ensures var last := entries[prefix];
            Agrees(entries, prefix + 1, flags,
                   if last.kind.RegularFile? then completed[last.id := DoneIndices(flags[last.id], |flags[last.id]|)] else completed)
  {
    forall id | HasId(entries[..prefix], id) ensures HasId(entries[..prefix + 1], id) {
      var k :| 0 <= k < prefix && entries[..prefix][k].id == id;
      assert entries[..prefix + 1][k].id == id;
    }
    assert entries[..prefix + 1][prefix] == entries[prefix];
  }

  /** What the sender reads off the plan about each file is what the bitmap says. */
  lemma {:induction false} PlanAgreesWithFlags(entries: seq<ManifestEntry>, prefix: nat, flags: map<nat, seq<bool>>)
    requires UniqueIds(entries) && FlagsFit(entries, flags) && prefix <= |entries|
    requires NoFileError(ById(entries), StateFiles(entries[..prefix], flags))
    ensures Agrees(entries, prefix, flags, CompletedIn(ById(entries), StateFiles(entries[..prefix], flags)))
  {
    if prefix > 0 {
      var before := StateFiles(entries[..prefix - 1], flags);
      var files := StateFiles(entries[..prefix], flags);
      assert entries[..prefix][..prefix - 1] == entries[..prefix - 1];
      assert forall j :: 0 <= j < |before| ==> before[j] == files[j];
      PlanAgreesWithFlags(entries, prefix - 1, flags);
      AgreesOneMore(entries, prefix - 1, flags, CompletedIn(ById(entries), before));
      if entries[prefix - 1].kind.RegularFile? {
        CompletedOneMore(ById(entries), before, files[|before|]);
      }
    }
  }

  lemma {:induction false} PlanPrefixDependsOnPrefix(byId: map<nat, ManifestEntry>, a: seq<FileResumeState>, b: seq<FileResumeState>, n: nat)
    requires n <= |a| && n <= |b|
    requires forall k :: 0 <= k < n ==> a[k] == b[k] && !FileError(byId, a[k])
    ensures PlanPrefix(byId, a, n) == PlanPrefix(byId, b, n)
  {
    if n > 0 {
      PlanPrefixDependsOnPrefix(byId, a, b, n - 1);
    }
  }

  /** What the chunks of all regular files amount to. */
  function ChunkedBytes(entries: seq<ManifestEntry>): nat {
    if |entries| == 0 then 0
    else
      var last := entries[|entries| - 1];
      ChunkedBytes(entries[..|entries| - 1]) + if last.kind.RegularFile? then SumOfLens(SizeOf(last), last.chunkCount) else 0
  }

  /** The bytes of the flagged chunks of all regular files. */
  function FlaggedBytes(entries: seq<ManifestEntry>, flags: map<nat, seq<bool>>): nat
  {
    if |entries| == 0 then 0
    else
      var last := entries[|entries| - 1];
      FlaggedBytes(entries[..|entries| - 1], flags)
      + if last.kind.RegularFile? && last.id in flags
        then DoneBytes(SizeOf(last), flags[last.id], |flags[last.id]|) else 0
  }

  /** `resumed_bytes` is the bytes of the flagged chunks. */
  lemma {:induction false} ResumedBytesAreFlagged(entries: seq<ManifestEntry>, prefix: nat, flags: map<nat, seq<bool>>)
    requires UniqueIds(entries) && FlagsFit(entries, flags) && prefix <= |entries|
    requires forall j :: 0 <= j < |StateFiles(entries[..prefix], flags)| ==>
               !FileError(ById(entries), StateFiles(entries[..prefix], flags)[j])
    ensures var files := StateFiles(entries[..prefix], flags);
            PlanPrefix(ById(entries), files, |files|).0 == FlaggedBytes(entries[..prefix], flags)
  {
    if prefix > 0 {
      var last := entries[prefix - 1];
      var before := StateFiles(entries[..prefix - 1], flags);
      var files := StateFiles(entries[..prefix], flags);
      assert entries[..prefix][..prefix - 1] == entries[..prefix - 1];
      assert forall j :: 0 <= j < |before| ==> before[j] == files[j];
      ResumedBytesAreFlagged(entries, prefix - 1, flags);
      PlanPrefixDependsOnPrefix(ById(entries), files, before, |before|);
      ByIdFinds(entries, prefix - 1);
      if last.kind.RegularFile? {
        assert files == before + [FileResumeState(last.id, flags[last.id])];
      } else {
        assert files == before;
      }
    }
  }

  lemma {:induction false} FlaggedPlusQueued(entries: seq<ManifestEntry>, flags: map<nat, seq<bool>>, completed: map<nat, seq<nat>>)
    requires FlagsFit(entries, flags)
    requires forall k :: 0 <= k < |entries| && entries[k].kind.RegularFile? ==>
               CompletedOf(completed, entries[k].id) == DoneIndices(flags[entries[k].id], |flags[entries[k].id]|)
    ensures FlaggedBytes(entries, flags) + TaskBytes(Tasks(entries, completed)) == ChunkedBytes(entries)
  {
    if |entries| > 0 {
      var m := |entries| - 1;
      FlaggedPlusQueued(entries[..m], flags, completed);
      TaskBytesAppend(Tasks(entries[..m], completed), TasksOf(entries[m], completed));
      if entries[m].kind.RegularFile? {
        FileConservation(entries[m], flags[entries[m].id], entries[m].chunkCount);
      }
    }
  }

  predicate AllFit(entries: seq<ManifestEntry>) {
    forall k :: 0 <= k < |entries| && entries[k].kind.RegularFile? ==> Fits(SizeOf(entries[k]))
  }

  lemma {:induction false} ChunkedIsTotalIffAllFit(entries: seq<ManifestEntry>)
    requires SoundFiles(entries)
    ensures ChunkedBytes(entries) <= TotalBytes(entries)
    ensures ChunkedBytes(entries) == TotalBytes(entries) <==> AllFit(entries)
  {
    if |entries| > 0 {
      var m := |entries| - 1;
      var last := entries[m];
      ChunkedIsTotalIffAllFit(entries[..m]);
      assert SoundFile(last);
      SumOfLensIsPrefix(SizeOf(last), last.chunkCount);
      if last.kind.RegularFile? {
        ChunksSumToSize(SizeOf(last));
      }
      if AllFit(entries) {
        assert AllFit(entries[..m]);
      } else if AllFit(entries[..m]) {
        assert last.kind.RegularFile? && !Fits(SizeOf(last));
      }
    }
  }

  /** Conservation: the bytes the receiver reports as resumed and the bytes the sender queues are
      together the bytes of the transfer, exactly when every file's chunk count fits 32 bits. */
  lemma ResumeConservesBytes(entries: seq<ManifestEntry>, flags: map<nat, seq<bool>>)
    requires UniqueIds(entries) && SoundFiles(entries) && FlagsFit(entries, flags)
    ensures PlanOf(entries, flags).0 + TaskBytes(Tasks(entries, Completed(PlanOf(entries, flags).1)))
              == TotalBytes(entries)
            <==> AllFit(entries)
  {
    assert entries[..|entries|] == entries;
    StateFilesAreKnown(entries, |entries|, flags);
    PlanAgreesWithFlags(entries, |entries|, flags);
    ResumedBytesAreFlagged(entries, |entries|, flags);
    FlaggedPlusQueued(entries, flags, Completed(PlanOf(entries, flags).1));
    ChunkedIsTotalIffAllFit(entries);
  }

  /** The sender queues a chunk exactly once if the receiver's bitmap lacks it, and never if not. */
  lemma QueueIsComplementOfFlags(entries: seq<ManifestEntry>, flags: map<nat, seq<bool>>, k: nat, index: nat)
    requires UniqueIds(entries) && FlagsFit(entries, flags)
    requires k < |entries| && entries[k].kind.RegularFile? && index < entries[k].chunkCount
    ensures multiset(Tasks(entries, Completed(PlanOf(entries, flags).1)))[TaskFor(entries[k], index)]
            == if flags[entries[k].id][index] then 0 else 1
  {
    assert entries[..|entries|] == entries;
    StateFilesAreKnown(entries, |entries|, flags);
    PlanAgreesWithFlags(entries, |entries|, flags);
    QueuedExactlyOnce(entries, Completed(PlanOf(entries, flags).1), k, index);
    DoneIndicesMembers(flags[entries[k].id], entries[k].chunkCount, index);
  }

  // ---------------------------------------------------------------------- worker rendezvous

  function ClampParallel(parallel: nat): (n: nat)
    ensures 1 <= n <= MAX_PARALLEL
  {
    if parallel < 1 then 1 else if parallel > MAX_PARALLEL then MAX_PARALLEL else parallel
  }

  /** Chunks the receiver still waits for: per regular file, the count minus the length of the
      completed list, saturating at zero. */
  function PendingChunks(entries: seq<ManifestEntry>, completed: map<nat, seq<nat>>): nat {
    if |entries| == 0 then 0
    else
      var last := entries[|entries| - 1];
      var done := |CompletedOf(completed, last.id)|;
      PendingChunks(entries[..|entries| - 1], completed)
      + if last.kind.RegularFile? && last.chunkCount > done then last.chunkCount - done else 0
  }

  /** `expected_worker_connections`: the data streams the receiver waits for. */
  function ExpectedWorkerConnections(entries: seq<ManifestEntry>, plan: seq<ResumeFilePlan>, requestedParallel: nat): nat {
    if PendingChunks(entries, Completed(plan)) == 0 then 0 else ClampParallel(requestedParallel)
  }

  /** The data streams the sender opens: none without tasks, else the accepted number, clamped. */
  function SenderConnections(tasks: seq<ChunkTask>, acceptedParallel: nat): nat {
    if |tasks| == 0 then 0 else ClampParallel(acceptedParallel)
  }

  /** A resume plan as the receiver makes them: for each file of the manifest, either no list or a
      list of distinct chunk indices of that file. */
  predicate WellFormedPlan(entries: seq<ManifestEntry>, completed: map<nat, seq<nat>>) {
    forall k :: 0 <= k < |entries| && entries[k].kind.RegularFile? ==>
      DistinctBelow(CompletedOf(completed, entries[k].id), entries[k].chunkCount)
  }

  predicate DistinctBelow(s: seq<nat>, n: nat) {
    (forall i :: 0 <= i < |s| ==> s[i] < n) && (forall i, j :: 0 <= i < j < |s| ==> s[i] != s[j])
  }

  /** Pigeonhole: a list of distinct numbers below `n` is as long as the number of tasks missing
      from a full one. */
  lemma {:induction false} TasksPlusDone(entry: ManifestEntry, done: seq<nat>, n: nat)
    requires DistinctBelow(done, n)
    ensures |EntryTasks(entry, done, n)| + |done| == n
    decreases n
  {
    var first := if |done| > 0 then done[0] else 0;
    assert |done| > 0 ==> first < n;
    if n == 0 {
      assert |done| == 0;
    } else if n - 1 in done {
      var fewer := WithoutLargest(done, n);
      TasksPlusDone(entry, fewer, n - 1);
      SameTasks(entry, done, fewer, n - 1);
    } else {
      assert DistinctBelow(done, n - 1) by {
        forall i | 0 <= i < |done| ensures done[i] < n - 1 { assert done[i] in done; }
      }
      TasksPlusDone(entry, done, n - 1);
    }
  }

  lemma WithoutLargest(done: seq<nat>, n: nat) returns (fewer: seq<nat>)
    requires 0 < n && DistinctBelow(done, n) && n - 1 in done
    ensures DistinctBelow(fewer, n - 1) && |fewer| == |done| - 1
    ensures forall x: nat :: x < n - 1 ==> (x in done <==> x in fewer)
  {
    var i :| 0 <= i < |done| && done[i] == n - 1;
    fewer := done[..i] + done[i + 1..];
    forall j | 0 <= j < |fewer| ensures fewer[j] < n - 1 {
      assert fewer[j] == done[if j < i then j else j + 1];
    }
    assert done == done[..i] + [n - 1] + done[i + 1..];
  }

  lemma {:induction false} SameTasks(entry: ManifestEntry, a: seq<nat>, b: seq<nat>, n: nat)
    requires forall x: nat :: x < n ==> (x in a <==> x in b)
    ensures EntryTasks(entry, a, n) == EntryTasks(entry, b, n)
  {
    if n > 0 {
      SameTasks(entry, a, b, n - 1);
    }
  }

  lemma {:induction false} PendingIsNumberOfTasks(entries: seq<ManifestEntry>, completed: map<nat, seq<nat>>)
    requires WellFormedPlan(entries, completed)
    ensures PendingChunks(entries, completed) == |Tasks(entries, completed)|
  {
    if |entries| > 0 {
      var last := |entries| - 1;
      assert WellFormedPlan(entries[..last], completed);
      PendingIsNumberOfTasks(entries[..last], completed);
      if entries[last].kind.RegularFile? {
        TasksPlusDone(entries[last], CompletedOf(completed, entries[last].id), entries[last].chunkCount);
      }
    }
  }

  /** The number the receiver waits for is the number the sender opens, for every plan of the
      receiver's making. The receiver clamps once and the sender clamps again. */
  lemma Rendezvous(entries: seq<ManifestEntry>, plan: seq<ResumeFilePlan>, requestedParallel: nat)
    requires WellFormedPlan(entries, Completed(plan))
    ensures SenderConnections(Tasks(entries, Completed(plan)), ClampParallel(requestedParallel))
            == ExpectedWorkerConnections(entries, plan, requestedParallel)
  {
    PendingIsNumberOfTasks(entries, Completed(plan));
  }

  lemma {:induction false} DoneIndicesDistinct(completed: seq<bool>, n: nat)
    requires n <= |completed|
    ensures DistinctBelow(DoneIndices(completed, n), n)
  {
    if n > 0 {
      DoneIndicesDistinct(completed, n - 1);
    }
  }

  /** The plan built from a state file meets the rendezvous condition. */
  lemma ResumedPlanIsWellFormed(entries: seq<ManifestEntry>, flags: map<nat, seq<bool>>)
    requires UniqueIds(entries) && FlagsFit(entries, flags)
    ensures WellFormedPlan(entries, Completed(PlanOf(entries, flags).1))
  {
    assert entries[..|entries|] == entries;
    StateFilesAreKnown(entries, |entries|, flags);
    PlanAgreesWithFlags(entries, |entries|, flags);
    forall k | 0 <= k < |entries| && entries[k].kind.RegularFile?
      ensures DistinctBelow(CompletedOf(Completed(PlanOf(entries, flags).1), entries[k].id), entries[k].chunkCount)
    {
      DoneIndicesDistinct(flags[entries[k].id], entries[k].chunkCount);
    }
  }

  lemma {:induction false} CompletedOfAllComplete(entries: seq<ManifestEntry>, k: nat, plan: seq<ResumeFilePlan>)
    requires UniqueIds(entries) && k < |entries| && entries[k].kind.RegularFile?
    requires plan == AllChunksCompletePlan(entries)
    ensures exists j :: 0 <= j < |plan| && plan[j] == ResumeFilePlan(entries[k].id, Upto(entries[k].chunkCount))
    ensures forall j :: 0 <= j < |plan| && plan[j].entryId == entries[k].id ==>
              plan[j].completedChunks == Upto(entries[k].chunkCount)
  {
    var rest := AllChunksCompletePlan(entries[1..]);
    if k == 0 {
      PlanIdsFromEntries(entries[1..]);
      assert plan[0] == ResumeFilePlan(entries[0].id, Upto(entries[0].chunkCount));
      assert forall j :: 0 < j < |plan| ==> plan[j] == rest[j - 1];
      forall j | 0 < j < |plan| ensures plan[j].entryId != entries[0].id {
        assert HasId(entries[1..], rest[j - 1].entryId);
      }
    } else {
      CompletedOfAllComplete(entries[1..], k - 1, rest);
      assert entries[1..][k - 1] == entries[k];
      var off := |plan| - |rest|;
      assert forall j :: 0 <= j < |rest| ==> plan[off + j] == rest[j];
      var j :| 0 <= j < |rest| && rest[j] == ResumeFilePlan(entries[k].id, Upto(entries[k].chunkCount));
      assert plan[off + j] == rest[j];
      assert off > 0 ==> plan[0].entryId == entries[0].id;
    }
  }

  lemma {:induction false} PlanIdsFromEntries(entries: seq<ManifestEntry>)
    ensures forall j :: 0 <= j < |AllChunksCompletePlan(entries)| ==>
              HasId(entries, AllChunksCompletePlan(entries)[j].entryId)
  {
    if |entries| > 0 {
      PlanIdsFromEntries(entries[1..]);
      var plan := AllChunksCompletePlan(entries);
      var rest := AllChunksCompletePlan(entries[1..]);
      var off := |plan| - |rest|;
      forall j | 0 <= j < |plan| ensures HasId(entries, plan[j].entryId) {
        if j < off {
          assert entries[0].id == plan[j].entryId;
        } else {
          assert plan[j] == rest[j - off];
          assert HasId(entries[1..], plan[j].entryId);
          var i :| 0 <= i < |entries[1..]| && entries[1..][i].id == plan[j].entryId;
          assert entries[i + 1].id == plan[j].entryId;
        }
      }
    }
  }

  lemma {:induction false} CompletedLooksUp(plan: seq<ResumeFilePlan>, id: nat, value: seq<nat>)
    requires exists j :: 0 <= j < |plan| && plan[j].entryId == id
    requires forall j :: 0 <= j < |plan| && plan[j].entryId == id ==> plan[j].completedChunks == value
    ensures id in Completed(plan) && Completed(plan)[id] == value
  {
    var m := |plan| - 1;
    if plan[m].entryId != id {
      var j :| 0 <= j < |plan| && plan[j].entryId == id;
      assert plan[..m][j].entryId == id;
      CompletedLooksUp(plan[..m], id, value);
    }
  }

  /** Re-acknowledging a finished transfer: the plan that marks everything complete leaves nothing
      to send, so the sender opens no stream, and the receiver waits for none. */
  lemma AllCompletePlanNeedsNoWorkers(entries: seq<ManifestEntry>, parallel: nat)
    requires UniqueIds(entries)
    ensures Tasks(entries, Completed(AllChunksCompletePlan(entries))) == []
    ensures SenderConnections(Tasks(entries, Completed(AllChunksCompletePlan(entries))), parallel) == 0
    ensures ExpectedWorkerConnections(entries, AllChunksCompletePlan(entries), parallel) == 0
  {
    var plan := AllChunksCompletePlan(entries);
    var completed := Completed(plan);
    forall k | 0 <= k < |entries| && entries[k].kind.RegularFile?
      ensures CompletedOf(completed, entries[k].id) == Upto(entries[k].chunkCount)
    {
      CompletedOfAllComplete(entries, k, plan);
      var j :| 0 <= j < |plan| && plan[j] == ResumeFilePlan(entries[k].id, Upto(entries[k].chunkCount));
      assert plan[j].entryId == entries[k].id;
      CompletedLooksUp(plan, entries[k].id, Upto(entries[k].chunkCount));
    }
    assert WellFormedPlan(entries, completed);
    PendingIsNumberOfTasks(entries, completed);
    AllDoneMeansNonePending(entries, completed);
  }

  lemma {:induction false} AllDoneMeansNonePending(entries: seq<ManifestEntry>, completed: map<nat, seq<nat>>)
    requires forall k :: 0 <= k < |entries| && entries[k].kind.RegularFile? ==>
               CompletedOf(completed, entries[k].id) == Upto(entries[k].chunkCount)
    ensures PendingChunks(entries, completed) == 0
  {
    if |entries| > 0 {
      AllDoneMeansNonePending(entries[..|entries| - 1], completed);
    }
  }
}
