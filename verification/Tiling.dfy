/** Plan, queue and geometry together: what the receiver has and what the sender queues are a tiling of
    each file (vendored-from-bore/transfer.rs:1951-1982, 2717-2755, 3435-3446). */
module Tiling {
  import opened Chunking
  import opened ManifestTypes
  import opened ResumePlan
  import opened ResumeState

  predicate HoldsByte(t: ChunkTask, id: nat, x: nat) {
    t.entryId == id && t.offset <= x < t.offset + t.len
  }

  ghost predicate InResumedChunk(bits: seq<bool>, size: nat, x: nat) {
    exists i: nat :: i < |bits| && bits[i] && InChunk(size, i, x)
  }

  ghost predicate InQueuedTask(tasks: seq<ChunkTask>, id: nat, x: nat) {
    exists j :: 0 <= j < |tasks| && HoldsByte(tasks[j], id, x)
  }

  /** The tasks of the run that resumes with these bitmaps. */
  function TasksAfter(entries: seq<ManifestEntry>, flags: Flags): seq<ChunkTask>
    requires UniqueIds(entries) && FlagsFit(entries, flags)
  {
    Tasks(entries, Completed(PlanOf(entries, flags).1))
  }

  predicate Fitting(entries: seq<ManifestEntry>, flags: Flags, k: nat) {
    && UniqueIds(entries) && SoundFiles(entries) && FlagsFit(entries, flags)
    && k < |entries| && entries[k].kind.RegularFile?
  }

  /** A task that holds a byte of the file is the one task of the byte's chunk, which is not resumed. */
  lemma QueuedByte(entries: seq<ManifestEntry>, flags: Flags, k: nat, j: nat, x: nat)
    requires Fitting(entries, flags, k)
    requires j < |TasksAfter(entries, flags)| && HoldsByte(TasksAfter(entries, flags)[j], entries[k].id, x)
    ensures x < SizeOf(entries[k]) && x / CHUNK_SIZE < entries[k].chunkCount
    ensures TasksAfter(entries, flags)[j] == TaskFor(entries[k], x / CHUNK_SIZE)
    ensures !flags[entries[k].id][x / CHUNK_SIZE]
    ensures multiset(TasksAfter(entries, flags))[TasksAfter(entries, flags)[j]] == 1
  {
    var tasks := TasksAfter(entries, flags);
    var k' := QueuedTasksAreSound(entries, Completed(PlanOf(entries, flags).1), j);
    assert k' == k && SoundFile(entries[k]);
    ChunkInsideFile(SizeOf(entries[k]), tasks[j].chunkIndex);
    InChunkIsQuotient(SizeOf(entries[k]), tasks[j].chunkIndex, x);
    QueueIsComplementOfFlags(entries, flags, k, x / CHUNK_SIZE);
    assert tasks[j] in multiset(tasks);
  }

  lemma TwoPlacesCountTwice<T>(s: seq<T>, i: nat, j: nat)
    requires i < j < |s| && s[i] == s[j]
    ensures multiset(s)[s[i]] >= 2
  {
    OccursJoined(s[..j], s[j..], s[i]);
    assert s == s[..j] + s[j..];
    assert s[..j][i] == s[i] == s[j..][0];
    assert s[i] in multiset(s[..j]) && s[i] in multiset(s[j..]);
  }

  lemma OnceMeansOneIndex<T>(s: seq<T>, i: nat, j: nat)
    requires i < |s| && j < |s| && s[i] == s[j] && multiset(s)[s[i]] == 1
    ensures i == j
  {
    if i < j {
      TwoPlacesCountTwice(s, i, j);
    } else if j < i {
      TwoPlacesCountTwice(s, j, i);
    }
  }

  lemma UnflaggedIsQueued(entries: seq<ManifestEntry>, flags: Flags, k: nat, index: nat) returns (j: nat)
    requires Fitting(entries, flags, k) && index < entries[k].chunkCount && !flags[entries[k].id][index]
    ensures j < |TasksAfter(entries, flags)| && TasksAfter(entries, flags)[j] == TaskFor(entries[k], index)
  {
    var tasks := TasksAfter(entries, flags);
    QueueIsComplementOfFlags(entries, flags, k, index);
    assert TaskFor(entries[k], index) in multiset(tasks);
    j :| 0 <= j < |tasks| && tasks[j] == TaskFor(entries[k], index);
  }

  /** A byte of a regular file is in a resumed chunk or in a queued task, never in both, and never in two
      of either; and it is in one of them exactly when some chunk holds it. */
  lemma ByteIsTiled(entries: seq<ManifestEntry>, flags: Flags, k: nat, x: nat)
    requires Fitting(entries, flags, k)
    ensures var id, size, tasks := entries[k].id, SizeOf(entries[k]), TasksAfter(entries, flags);
            && !(InResumedChunk(flags[id], size, x) && InQueuedTask(tasks, id, x))
            && (InResumedChunk(flags[id], size, x) || InQueuedTask(tasks, id, x) <==> x < size && Covered(size, x))
            && (forall i, j :: 0 <= i < |tasks| && 0 <= j < |tasks| && HoldsByte(tasks[i], id, x) && HoldsByte(tasks[j], id, x) ==> i == j)
            && (forall i: nat, j: nat :: InChunk(size, i, x) && InChunk(size, j, x) ==> i == j)
  {
    var id, size, tasks := entries[k].id, SizeOf(entries[k]), TasksAfter(entries, flags);
    assert SoundFile(entries[k]);
    forall j | 0 <= j < |tasks| && HoldsByte(tasks[j], id, x)
      ensures x < size && Covered(size, x) && !InResumedChunk(flags[id], size, x)
    {
      QueuedByte(entries, flags, k, j, x);
      OneChunk(size, x);
    }
    forall i, j | 0 <= i < |tasks| && 0 <= j < |tasks| && HoldsByte(tasks[i], id, x) && HoldsByte(tasks[j], id, x)
      ensures i == j
    {
      QueuedByte(entries, flags, k, i, x);
      QueuedByte(entries, flags, k, j, x);
      OnceMeansOneIndex(tasks, i, j);
    }
    OneChunk(size, x);
    ResumedIsCovered(entries[k], flags[id], x);
    if x < size && Covered(size, x) && !InResumedChunk(flags[id], size, x) {
      var i: nat :| i < ChunkCountFor(size) && InChunk(size, i, x);
      var j := UnflaggedIsQueued(entries, flags, k, i);
      assert HoldsByte(tasks[j], id, x);
    }
  }

  lemma OneChunk(size: nat, x: nat)
    ensures forall i: nat, j: nat :: InChunk(size, i, x) && InChunk(size, j, x) ==> i == j
    ensures x < size ==> InChunk(size, x / CHUNK_SIZE, x)
  {
    forall i: nat, j: nat | InChunk(size, i, x) && InChunk(size, j, x) ensures i == j {
      if i != j {
        ChunksDisjoint(size, i, j, x);
      }
    }
    if x < size {
      InChunkIsQuotient(size, x / CHUNK_SIZE, x);
    }
  }

  lemma ResumedIsCovered(entry: ManifestEntry, bits: seq<bool>, x: nat)
    requires SoundFile(entry) && entry.kind.RegularFile? && |bits| == entry.chunkCount
    ensures InResumedChunk(bits, SizeOf(entry), x) ==> x < SizeOf(entry) && Covered(SizeOf(entry), x)
  {
    if i: nat :| i < |bits| && bits[i] && InChunk(SizeOf(entry), i, x) {
      ChunkInsideFile(SizeOf(entry), i);
    }
  }

  /** Resumed chunks and queued tasks together are all of a file exactly when its chunk count fits. */
  lemma FileIsTiledIffFits(entries: seq<ManifestEntry>, flags: Flags, k: nat)
    requires Fitting(entries, flags, k)
    ensures var id, size, tasks := entries[k].id, SizeOf(entries[k]), TasksAfter(entries, flags);
            (forall x: nat :: x < size ==> InResumedChunk(flags[id], size, x) || InQueuedTask(tasks, id, x)) <==> Fits(size)
  {
    var id, size, tasks := entries[k].id, SizeOf(entries[k]), TasksAfter(entries, flags);
    CoversIffFits(size);
    forall x: nat | x < size
      ensures InResumedChunk(flags[id], size, x) || InQueuedTask(tasks, id, x) <==> Covered(size, x)
    {
      ByteIsTiled(entries, flags, k, x);
    }
  }
}
