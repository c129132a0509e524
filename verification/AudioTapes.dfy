/** AudioTape: the queue between the capture threads and the disk thread (AudioTape.cpp). */
module AudioTapes {
  import opened AudioChunks

  /** The configuration values AudioTape reads. */
  datatype Config = Config(batchSizeKByte: nat, fileSizeLimitKb: nat, partyFilterActive: bool)

  datatype TapeState = Created | Active | Stopped | Error

  /** m_chunkQueue and its counters. `log` is history: every chunk ever accepted. */
  datatype ChunkQueue = ChunkQueue(
    chunks: seq<AudioChunk>,
    dataSize: int,
    pushCount: nat,
    popCount: nat,
    highMark: nat,
    rejectedCount: nat,
    log: seq<AudioChunk>)

  /** The media file seen from the tape: whether m_audioFileRef is set, what it was handed, and how
      many chunks threw. `faults` counts the chunks the original writes through a null reference. */
  datatype Media = Media(hasFile: bool, file: seq<AudioChunk>, bytesWritten: nat, numErrors: nat, faults: nat)

  /** The value of an AudioTape. `batched` counts the positive answers of IsReadyForBatchProcessing. */
  datatype Tape = Tape(
    state: TapeState,
    queue: ChunkQueue,
    media: Media,
    shouldStop: bool,
    passedFilter: bool,
    isQueued: bool,
    ready: bool,
    batched: nat)

  const NEW_TAPE := Tape(Created, ChunkQueue([], 0, 0, 0, 0, 0, []), Media(false, [], 0, 0, 0),
                         false, false, false, false, 0)

  predicate Accepting(t: Tape) {
    t.state == Created || t.state == Active
  }

  /** The filter is on and neither party has matched it yet. */
  predicate Rejected(cfg: Config, t: Tape) {
    !t.passedFilter && cfg.partyFilterActive
  }

  function MaxQueued(cfg: Config): nat {
    cfg.batchSizeKByte * 3 * 1024
  }

  /** The part of AddAudioChunk done under the tape's mutex. */
  function Append(cfg: Config, q: ChunkQueue, c: AudioChunk): ChunkQueue {
    if q.dataSize >= MaxQueued(cfg) then
      q.(rejectedCount := q.rejectedCount + 1)
    else
      ChunkQueue(q.chunks + [c], q.dataSize + c.details.numBytes, q.pushCount + 1, q.popCount,
                 if |q.chunks| + 1 > q.highMark then |q.chunks| + 1 else q.highMark, q.rejectedCount, q.log + [c])
  }

  /** Taking the oldest chunk off the queue, under the tape's mutex. */
  function Take(q: ChunkQueue): ChunkQueue
    requires q.chunks != []
  {
    q.(chunks := q.chunks[1..], dataSize := q.dataSize - q.chunks[0].details.numBytes, popCount := q.popCount + 1)
  }

  /** Handing chunk c to the media file; `ok` says whether the file took it or threw. */
  function Store(cfg: Config, m: Media, c: AudioChunk, ok: bool): Media {
    if m.bytesWritten / 1024 > cfg.fileSizeLimitKb then m
    else if !m.hasFile then m.(faults := m.faults + 1)
    else if ok then m.(file := m.file + [c], bytesWritten := m.bytesWritten + c.details.numBytes)
    else m.(numErrors := m.numErrors + 1)
  }

  /** One round of Write's main loop on a non-empty queue. The first chunk opens the file. */
  function WriteOne(cfg: Config, t: Tape, ok: bool): Tape
    requires t.queue.chunks != [] && LoopGoesOn(t)
  {
    var m := if t.state == Created then t.media.(hasFile := true) else t.media;
    t.(state := Active, queue := Take(t.queue), media := Store(cfg, m, t.queue.chunks[0], ok))
  }

  predicate LoopGoesOn(t: Tape) {
    t.state != Stopped && t.state != Error
  }

  /** The end of Write: stop once asked to. */
  function Finish(t: Tape): Tape {
    if (t.shouldStop && t.state != Stopped) || t.state == Error then
      t.(state := Stopped, ready := t.ready || (t.media.hasFile && t.media.bytesWritten > 0))
    else t
  }

  /** IsReadyForBatchProcessing: the new tape; the answer is the old `ready`. */
  function CheckReady(t: Tape): Tape {
    if t.ready then t.(ready := false, batched := t.batched + 1) else t
  }

  /** The queue emptied by the rejecting branch of Write. */
  function DiscardAll(q: ChunkQueue): ChunkQueue
    decreases |q.chunks|
  {
    if q.chunks == [] then q else DiscardAll(Take(q))
  }

  /** The main loop of Write; outcome(k) tells whether the media file takes the chunk popped as
      number k. */
  function WriteAll(cfg: Config, t: Tape, outcome: nat -> bool): Tape
    decreases |t.queue.chunks|
  {
    if LoopGoesOn(t) && t.queue.chunks != [] then WriteAll(cfg, WriteOne(cfg, t, outcome(t.queue.popCount)), outcome)
    else t
  }

  /** AddAudioChunk without interruption. */
  function AddResult(cfg: Config, t: Tape, c: AudioChunk): Tape {
    if Accepting(t) then t.(queue := Append(cfg, t.queue, c)) else t
  }

  /** Write without interruption. */
  function WriteResult(cfg: Config, t: Tape, outcome: nat -> bool): Tape {
    if Rejected(cfg, t) then
      t.(state := if t.state == Created then Active else t.state, queue := DiscardAll(t.queue))
    else Finish(WriteAll(cfg, t, outcome))
  }

  // ---------- What every operation keeps ----------

  /** The counters describe the queue, and the queue is the accepted chunks not yet popped. */
  ghost predicate Counted(q: ChunkQueue) {
    && q.pushCount == |q.log|
    && q.popCount <= |q.log|
    && q.chunks == q.log[q.popCount..]
    && q.dataSize == SumBytes(q.chunks)
    && |q.chunks| <= q.highMark <= q.pushCount
  }

  /** Announced for batch processing, or about to be, exactly once if stopped with bytes written, and
      otherwise not at all; a file exists once a chunk was written, and its absence from an active tape
      is the party filter's doing. */
  ghost predicate Staged(cfg: Config, t: Tape) {
    && t.state != Error
    && t.batched + (if t.ready then 1 else 0) == (if t.state == Stopped && t.media.bytesWritten > 0 then 1 else 0)
    && (t.media.bytesWritten > 0 ==> t.media.hasFile)
    && (t.state == Created ==> !t.media.hasFile)
    && ((t.state == Active && !t.media.hasFile) || t.media.faults > 0 ==> cfg.partyFilterActive)
  }

  /** The chunks taken off the queue so far. */
  function Popped(q: ChunkQueue): seq<AudioChunk>
    requires q.popCount <= |q.log|
  {
    q.log[..q.popCount]
  }

  /** The file holds popped chunks, in order. */
  ghost predicate Inv(cfg: Config, t: Tape) {
    && Counted(t.queue) && Staged(cfg, t) && t.media.bytesWritten == SumBytes(t.media.file)
    && IsSubsequence(t.media.file, Popped(t.queue))
  }

  /** s is t with some elements left out. */
  ghost predicate IsSubsequence<T(!new)>(s: seq<T>, t: seq<T>)
    decreases |t|
  {
    if t == [] then s == []
    else if s != [] && s[|s| - 1] == t[|t| - 1] && IsSubsequence(s[..|s| - 1], t[..|t| - 1]) then true
    else IsSubsequence(s, t[..|t| - 1])
  }

  lemma {:induction false} SubsequenceSnoc<T(!new)>(s: seq<T>, t: seq<T>, x: T)
    requires IsSubsequence(s, t)
    ensures IsSubsequence(s, t + [x])
    ensures IsSubsequence(s + [x], t + [x])
  {
    assert (t + [x])[..|t|] == t;
    assert (s + [x])[..|s|] == s;
  }

  lemma {:induction false} AppendKeeps(cfg: Config, q: ChunkQueue, c: AudioChunk)
    requires Counted(q)
    ensures var q' := Append(cfg, q, c);
            && Counted(q') && Popped(q') == Popped(q)
            && (q'.dataSize <= q.dataSize || q'.dataSize < MaxQueued(cfg) + c.details.numBytes)
  {
    SumBytesSnoc(q.chunks, c);
  }

  lemma {:induction false} TakeKeeps(q: ChunkQueue)
    requires Counted(q) && q.chunks != []
    ensures Counted(Take(q)) && Popped(Take(q)) == Popped(q) + [q.chunks[0]]
    ensures Take(q).dataSize <= q.dataSize
  {
  }

  lemma {:induction false} WriteOneKeeps(cfg: Config, t: Tape, ok: bool)
    requires Inv(cfg, t) && t.queue.chunks != [] && LoopGoesOn(t)
    ensures Inv(cfg, WriteOne(cfg, t, ok))
  {
    TakeKeeps(t.queue);
    SubsequenceSnoc(t.media.file, Popped(t.queue), t.queue.chunks[0]);
    SumBytesSnoc(t.media.file, t.queue.chunks[0]);
  }

  lemma {:induction false} DiscardOneKeeps(cfg: Config, t: Tape)
    requires Inv(cfg, t) && t.queue.chunks != []
    ensures Inv(cfg, t.(queue := Take(t.queue)))
  {
    TakeKeeps(t.queue);
    SubsequenceSnoc(t.media.file, Popped(t.queue), t.queue.chunks[0]);
  }

  lemma {:induction false} DiscardAllKeeps(q: ChunkQueue)
    requires Counted(q)
    ensures var q' := DiscardAll(q);
            && Counted(q') && q'.chunks == [] && q'.log == q.log && q'.dataSize <= q.dataSize
            && Popped(q) <= Popped(q')
    decreases |q.chunks|
  {
    if q.chunks != [] {
      TakeKeeps(q);
      DiscardAllKeeps(Take(q));
    }
  }

  lemma {:induction false} SubsequenceExtends<T(!new)>(s: seq<T>, t: seq<T>, u: seq<T>)
    requires IsSubsequence(s, t) && t <= u
    ensures IsSubsequence(s, u)
    decreases |u|
  {
    if |t| < |u| {
      assert u == u[..|u| - 1] + [u[|u| - 1]];
      SubsequenceExtends(s, t, u[..|u| - 1]);
      SubsequenceSnoc(s, u[..|u| - 1], u[|u| - 1]);
    } else {
      assert t == u;
    }
  }

  /** What a Write leaves alone. */
  ghost predicate WriteFrame(t: Tape, t': Tape) {
    && t'.queue.log == t.queue.log && t'.queue.dataSize <= t.queue.dataSize
    && t'.shouldStop == t.shouldStop && t'.batched == t.batched
    && (t.state == Stopped ==> t'.state == Stopped && t'.media == t.media)
  }

  lemma {:induction false} WriteAllKeeps(cfg: Config, t: Tape, outcome: nat -> bool)
    requires Inv(cfg, t)
    ensures Inv(cfg, WriteAll(cfg, t, outcome)) && WriteFrame(t, WriteAll(cfg, t, outcome))
    ensures if LoopGoesOn(t) then WriteAll(cfg, t, outcome).queue.chunks == [] else WriteAll(cfg, t, outcome) == t
    decreases |t.queue.chunks|
  {
    if LoopGoesOn(t) && t.queue.chunks != [] {
      var ok := outcome(t.queue.popCount);
      WriteOneKeeps(cfg, t, ok);
      WriteAllKeeps(cfg, WriteOne(cfg, t, ok), outcome);
    }
  }

  /** A Write on a tape told to stop stops it, unless the party filter rejects the tape. */
  lemma {:induction false} WriteKeeps(cfg: Config, t: Tape, outcome: nat -> bool)
    requires Inv(cfg, t)
    ensures Inv(cfg, WriteResult(cfg, t, outcome)) && WriteFrame(t, WriteResult(cfg, t, outcome))
    ensures t.shouldStop && !Rejected(cfg, t) ==> WriteResult(cfg, t, outcome).state == Stopped
    ensures t.state != Stopped ==> WriteResult(cfg, t, outcome).queue.chunks == []
  {
    if Rejected(cfg, t) {
      DiscardAllKeeps(t.queue);
      SubsequenceExtends(t.media.file, Popped(t.queue), Popped(DiscardAll(t.queue)));
    } else {
      WriteAllKeeps(cfg, t, outcome);
    }
  }

  // ---------- Runs of uninterrupted calls ----------

  datatype Call =
    | AddAudioChunk(chunk: AudioChunk)
    | Write(outcome: nat -> bool)
    | SetShouldStop
    | PassPartyFilter
    | IsReadyForBatchProcessing

  function Perform(cfg: Config, t: Tape, call: Call): Tape {
    match call
    case AddAudioChunk(c) => AddResult(cfg, t, c)
    case Write(outcome) => WriteResult(cfg, t, outcome)
    case SetShouldStop => t.(shouldStop := true)
    case PassPartyFilter => t.(passedFilter := true)
    case IsReadyForBatchProcessing => CheckReady(t)
  }

  function PerformAll(cfg: Config, t: Tape, calls: seq<Call>): Tape
    decreases |calls|
  {
    if calls == [] then t else PerformAll(cfg, Perform(cfg, t, calls[0]), calls[1..])
  }

  /** Positive answers of IsReadyForBatchProcessing along a run of calls. */
  function Announcements(cfg: Config, t: Tape, calls: seq<Call>): nat
    decreases |calls|
  {
    if calls == [] then 0 else
      (if calls[0].IsReadyForBatchProcessing? && t.ready then 1 else 0)
      + Announcements(cfg, Perform(cfg, t, calls[0]), calls[1..])
  }

  /** The bound on the bytes queued when no chunk is larger than `limit`: less than three batches and
      one chunk. */
  predicate Within(cfg: Config, size: int, limit: nat) {
    size == 0 || size < MaxQueued(cfg) + limit
  }

  ghost predicate ChunksAtMost(calls: seq<Call>, limit: nat) {
    forall i :: 0 <= i < |calls| && calls[i].AddAudioChunk? ==> calls[i].chunk.details.numBytes <= limit
  }

  lemma {:induction false} PerformKeeps(cfg: Config, t: Tape, call: Call)
    requires Inv(cfg, t)
    ensures Inv(cfg, Perform(cfg, t, call))
    ensures var t' := Perform(cfg, t, call);
            && t.queue.log <= t'.queue.log
            && (t.state == Stopped ==> t'.state == Stopped && t'.media.file == t.media.file)
            && (t'.queue.dataSize <= t.queue.dataSize
                || (call.AddAudioChunk? && t'.queue.dataSize < MaxQueued(cfg) + call.chunk.details.numBytes))
            && t'.batched == t.batched + (if call.IsReadyForBatchProcessing? && t.ready then 1 else 0)
  {
    match call
    case AddAudioChunk(c) => AppendKeeps(cfg, t.queue, c);
    case Write(outcome) => WriteKeeps(cfg, t, outcome);
    case _ =>
  }

  /** Over every run of calls on a tape: the counters, the queue below three batches plus one
      chunk, Stopped is final (nothing more reaches the file), and at most one announcement (AnnouncedIff
      says when there is one). */
  lemma {:induction false} EveryRun(cfg: Config, t: Tape, calls: seq<Call>, limit: nat)
    requires Inv(cfg, t) && ChunksAtMost(calls, limit) && Within(cfg, t.queue.dataSize, limit)
    ensures var t' := PerformAll(cfg, t, calls);
            && Inv(cfg, t')
            && t'.queue.pushCount - t'.queue.popCount == |t'.queue.chunks|
            && t'.queue.dataSize == SumBytes(t'.queue.chunks) && Within(cfg, t'.queue.dataSize, limit)
            && (t.state == Stopped ==> t'.state == Stopped && t'.media.file == t.media.file)
    ensures t.batched + Announcements(cfg, t, calls) <= 1
    decreases |calls|
  {
    if calls != [] {
      PerformKeeps(cfg, t, calls[0]);
      assert forall i :: 0 <= i < |calls| - 1 ==> calls[1..][i] == calls[i + 1];
      EveryRun(cfg, Perform(cfg, t, calls[0]), calls[1..], limit);
    }
  }

  /** The same from a fresh tape, where nothing is assumed. */
  lemma {:induction false} EveryRunFromNew(cfg: Config, calls: seq<Call>, limit: nat)
    requires ChunksAtMost(calls, limit)
    ensures var t' := PerformAll(cfg, NEW_TAPE, calls);
            && Inv(cfg, t')
            && Within(cfg, t'.queue.dataSize, limit)
    ensures Announcements(cfg, NEW_TAPE, calls) <= 1
  {
    EveryRun(cfg, NEW_TAPE, calls, limit);
  }

  // ---------- Announced once ----------

  lemma {:induction false} BatchedCounts(cfg: Config, t: Tape, calls: seq<Call>)
    requires Inv(cfg, t)
    ensures PerformAll(cfg, t, calls).batched == t.batched + Announcements(cfg, t, calls)
    ensures Inv(cfg, PerformAll(cfg, t, calls))
    decreases |calls|
  {
    if calls != [] {
      PerformKeeps(cfg, t, calls[0]);
      BatchedCounts(cfg, Perform(cfg, t, calls[0]), calls[1..]);
    }
  }

  lemma {:induction false} PerformAllSnoc(cfg: Config, t: Tape, calls: seq<Call>, call: Call)
    ensures PerformAll(cfg, t, calls + [call]) == Perform(cfg, PerformAll(cfg, t, calls), call)
    decreases |calls|
  {
    if calls == [] {
      assert [] + [call] == [call] && [call][1..] == [];
    } else {
      assert (calls + [call])[1..] == calls[1..] + [call];
      PerformAllSnoc(cfg, Perform(cfg, t, calls[0]), calls[1..], call);
    }
  }

  /** After every run a tape is ready or has been announced exactly if it is stopped with bytes in its
      file; asked once more, it has then been announced exactly once. */
  lemma {:induction false} AnnouncedIff(cfg: Config, calls: seq<Call>)
    ensures var t := PerformAll(cfg, NEW_TAPE, calls);
            var recorded := t.state == Stopped && SumBytes(t.media.file) > 0;
            && (t.ready || Announcements(cfg, NEW_TAPE, calls) > 0 <==> recorded)
            && Announcements(cfg, NEW_TAPE, calls + [IsReadyForBatchProcessing]) == (if recorded then 1 else 0)
  {
    var more := calls + [IsReadyForBatchProcessing];
    BatchedCounts(cfg, NEW_TAPE, calls);
    BatchedCounts(cfg, NEW_TAPE, more);
    PerformAllSnoc(cfg, NEW_TAPE, calls, IsReadyForBatchProcessing);
  }

  // ---------- Which chunks are accepted ----------

  /** Over every run: a chunk is accepted if and only if the tape is new or active and less than three
      batches of bytes are queued; if not, only a full queue counts it as rejected. */
  lemma {:induction false} AcceptedIff(cfg: Config, calls: seq<Call>, c: AudioChunk)
    ensures var t := PerformAll(cfg, NEW_TAPE, calls);
            var t' := PerformAll(cfg, NEW_TAPE, calls + [AddAudioChunk(c)]);
            var open, room := t.state == Created || t.state == Active,
                              SumBytes(t.queue.chunks) < 3072 * cfg.batchSizeKByte;
            && t'.queue.log == (if open && room then t.queue.log + [c] else t.queue.log)
            && t'.queue.chunks == (if open && room then t.queue.chunks + [c] else t.queue.chunks)
            && t'.queue.rejectedCount == t.queue.rejectedCount + (if open && !room then 1 else 0)
            && t'.state == t.state && t'.media == t.media
  {
    PerformAllSnoc(cfg, NEW_TAPE, calls, AddAudioChunk(c));
    BatchedCounts(cfg, NEW_TAPE, calls);
  }

  // ---------- The high mark ----------

  /** The longest the queue has been along a run. */
  function Longest(cfg: Config, t: Tape, calls: seq<Call>): nat
    decreases |calls|
  {
    var later := if calls == [] then 0 else Longest(cfg, Perform(cfg, t, calls[0]), calls[1..]);
    if |t.queue.chunks| > later then |t.queue.chunks| else later
  }

  lemma {:induction false} HighMarkIs(cfg: Config, t: Tape, calls: seq<Call>)
    requires Inv(cfg, t)
    ensures var high, longest := t.queue.highMark, Longest(cfg, t, calls);
            PerformAll(cfg, t, calls).queue.highMark == if high > longest then high else longest
    decreases |calls|
  {
    if calls != [] {
      PerformKeeps(cfg, t, calls[0]);
      HighMarkOnce(cfg, t, calls[0]);
      HighMarkIs(cfg, Perform(cfg, t, calls[0]), calls[1..]);
    }
  }

  lemma {:induction false} HighMarkOnce(cfg: Config, t: Tape, call: Call)
    requires Inv(cfg, t)
    ensures var q, q' := t.queue, Perform(cfg, t, call).queue;
            q'.highMark == if |q'.chunks| > q.highMark then |q'.chunks| else q.highMark
  {
    match call
    case Write(outcome) =>
      if Rejected(cfg, t) { DiscardKeepsMark(t.queue); } else { WriteAllKeepsMark(cfg, t, outcome); }
    case _ =>
  }

  lemma {:induction false} DiscardKeepsMark(q: ChunkQueue)
    ensures DiscardAll(q).highMark == q.highMark && DiscardAll(q).chunks == []
    decreases |q.chunks|
  {
    if q.chunks != [] { DiscardKeepsMark(Take(q)); }
  }

  lemma {:induction false} WriteAllKeepsMark(cfg: Config, t: Tape, outcome: nat -> bool)
    ensures var q := WriteAll(cfg, t, outcome).queue; q.highMark == t.queue.highMark && |q.chunks| <= |t.queue.chunks|
    decreases |t.queue.chunks|
  {
    if LoopGoesOn(t) && t.queue.chunks != [] {
      WriteAllKeepsMark(cfg, WriteOne(cfg, t, outcome(t.queue.popCount)), outcome);
    }
  }

  // ---------- Which chunks reach the file ----------

  /** Of the chunks popped, those that the file takes while it is not over the size limit. */
  function Recorded(popped: seq<AudioChunk>, limitKb: nat, outcome: nat -> bool): seq<AudioChunk> {
    if popped == [] then []
    else
      var n := |popped| - 1;
      var before := Recorded(popped[..n], limitKb, outcome);
      if SumBytes(before) < (limitKb + 1) * 1024 && outcome(n) then before + [popped[n]] else before
  }

  /** How many of them the file refuses. */
  function Refused(popped: seq<AudioChunk>, limitKb: nat, outcome: nat -> bool): nat {
    if popped == [] then 0
    else
      var n := |popped| - 1;
      var full := SumBytes(Recorded(popped[..n], limitKb, outcome)) >= (limitKb + 1) * 1024;
      Refused(popped[..n], limitKb, outcome) + if !full && !outcome(n) then 1 else 0
  }

  ghost predicate FileExact(cfg: Config, t: Tape, outcome: nat -> bool) {
    && Inv(cfg, t) && !cfg.partyFilterActive
    && t.media.file == Recorded(Popped(t.queue), cfg.fileSizeLimitKb, outcome)
    && t.media.numErrors == Refused(Popped(t.queue), cfg.fileSizeLimitKb, outcome)
  }

  lemma {:induction false} WriteOneExact(cfg: Config, t: Tape, outcome: nat -> bool)
    requires FileExact(cfg, t, outcome) && t.queue.chunks != [] && LoopGoesOn(t)
    ensures FileExact(cfg, WriteOne(cfg, t, outcome(t.queue.popCount)), outcome)
  {
    WriteOneKeeps(cfg, t, outcome(t.queue.popCount));
    TakeKeeps(t.queue);
    var popped := Popped(t.queue) + [t.queue.chunks[0]];
    assert popped[..|popped| - 1] == Popped(t.queue);
  }

  lemma {:induction false} WriteAllExact(cfg: Config, t: Tape, outcome: nat -> bool)
    requires FileExact(cfg, t, outcome)
    ensures FileExact(cfg, WriteAll(cfg, t, outcome), outcome)
    decreases |t.queue.chunks|
  {
    if LoopGoesOn(t) && t.queue.chunks != [] {
      WriteOneExact(cfg, t, outcome);
      WriteAllExact(cfg, WriteOne(cfg, t, outcome(t.queue.popCount)), outcome);
    }
  }

  ghost predicate AllWritesUse(calls: seq<Call>, outcome: nat -> bool) {
    forall i :: 0 <= i < |calls| && calls[i].Write? ==> calls[i].outcome == outcome
  }

  lemma {:induction false} PerformExact(cfg: Config, t: Tape, call: Call, outcome: nat -> bool)
    requires FileExact(cfg, t, outcome) && (call.Write? ==> call.outcome == outcome)
    ensures FileExact(cfg, Perform(cfg, t, call), outcome)
  {
    PerformKeeps(cfg, t, call);
    match call
    case Write(_) => WriteAllExact(cfg, t, outcome);
    case AddAudioChunk(c) => AppendKeeps(cfg, t.queue, c);
    case _ =>
  }

  /** Without a party filter: after any run, with any writes failing, the file and the error count are
      exactly what Recorded and Refused say of the chunks popped. */
  lemma {:induction false} FileIsExactly(cfg: Config, t: Tape, calls: seq<Call>, outcome: nat -> bool)
    requires FileExact(cfg, t, outcome) && AllWritesUse(calls, outcome)
    ensures FileExact(cfg, PerformAll(cfg, t, calls), outcome)
    decreases |calls|
  {
    if calls != [] {
      PerformExact(cfg, t, calls[0], outcome);
      assert forall i :: 0 <= i < |calls| - 1 ==> calls[1..][i] == calls[i + 1];
      FileIsExactly(cfg, Perform(cfg, t, calls[0]), calls[1..], outcome);
    }
  }

  // ---------- The null file reference ----------

  /** Active without a file, which the party filter brings about. */
  predicate Fileless(t: Tape) {
    t.state == Active && !t.media.hasFile
  }

  lemma {:induction false} WriteOneFaults(cfg: Config, t: Tape, ok: bool)
    requires Inv(cfg, t) && t.queue.chunks != [] && LoopGoesOn(t)
    ensures WriteOne(cfg, t, ok).media.faults == t.media.faults + if Fileless(t) then 1 else 0
    ensures Fileless(WriteOne(cfg, t, ok)) == Fileless(t)
  {
  }

  lemma {:induction false} WriteAllFaults(cfg: Config, t: Tape, outcome: nat -> bool)
    requires Inv(cfg, t)
    ensures var t' := WriteAll(cfg, t, outcome);
            && t'.media.faults == t.media.faults + (if Fileless(t) then |t.queue.chunks| else 0)
            && Fileless(t') == Fileless(t)
    decreases |t.queue.chunks|
  {
    if LoopGoesOn(t) && t.queue.chunks != [] {
      var ok := outcome(t.queue.popCount);
      WriteOneFaults(cfg, t, ok);
      WriteOneKeeps(cfg, t, ok);
      WriteAllFaults(cfg, WriteOne(cfg, t, ok), outcome);
    }
  }

  /** A Write puts chunks through the null file reference if and only if the filter lets the tape through
      and it is active without a file: then the first chunk of its queue, and every further one if the
      first were survived. */
  lemma {:induction false} FaultExactly(cfg: Config, t: Tape, outcome: nat -> bool)
    requires Inv(cfg, t)
    ensures WriteResult(cfg, t, outcome).media.faults
         == t.media.faults + if !Rejected(cfg, t) && Fileless(t) then |t.queue.chunks| else 0
  {
    WriteAllFaults(cfg, t, outcome);
  }

  /** A file is opened only once the party filter lets the tape through. */
  predicate FileMeansPassed(cfg: Config, t: Tape) {
    t.media.hasFile ==> !Rejected(cfg, t)
  }

  /** Some Write of the run comes while the party filter rejects the tape. */
  predicate SomeWriteRejected(cfg: Config, t: Tape, calls: seq<Call>)
    decreases |calls|
  {
    calls != [] &&
    ((calls[0].Write? && Rejected(cfg, t)) || SomeWriteRejected(cfg, Perform(cfg, t, calls[0]), calls[1..]))
  }

  lemma {:induction false} PerformFileless(cfg: Config, t: Tape, call: Call)
    requires Inv(cfg, t) && FileMeansPassed(cfg, t)
    ensures var t' := Perform(cfg, t, call);
            && FileMeansPassed(cfg, t')
            && (t'.state != Stopped ==> (Fileless(t') <==> Fileless(t) || (call.Write? && Rejected(cfg, t))))
  {
    if call.Write? && !Rejected(cfg, t) {
      WriteAllFaults(cfg, t, call.outcome);
      WriteAllKeeps(cfg, t, call.outcome);
      WriteAllKeepsPassed(cfg, t, call.outcome);
    }
  }

  lemma {:induction false} WriteAllKeepsPassed(cfg: Config, t: Tape, outcome: nat -> bool)
    ensures WriteAll(cfg, t, outcome).passedFilter == t.passedFilter
    decreases |t.queue.chunks|
  {
    if LoopGoesOn(t) && t.queue.chunks != [] {
      WriteAllKeepsPassed(cfg, WriteOne(cfg, t, outcome(t.queue.popCount)), outcome);
    }
  }

  /** After any run of calls a tape not stopped is active without a file if and only if it was before
      or some Write came while the filter rejected it. */
  lemma {:induction false} FilelessIff(cfg: Config, t: Tape, calls: seq<Call>)
    requires Inv(cfg, t) && FileMeansPassed(cfg, t)
    ensures var t' := PerformAll(cfg, t, calls);
            Inv(cfg, t') && (t.state == Stopped ==> t'.state == Stopped)
            && (t'.state != Stopped ==> (Fileless(t') <==> Fileless(t) || SomeWriteRejected(cfg, t, calls)))
    decreases |calls|
  {
    if calls != [] {
      PerformKeeps(cfg, t, calls[0]);
      PerformFileless(cfg, t, calls[0]);
      FilelessIff(cfg, Perform(cfg, t, calls[0]), calls[1..]);
    }
  }

  /** Over every run from a new tape: one more Write puts chunks through the null reference if and only if
      the tape has chunks queued, is not stopped and is let through by the filter, which rejected it at
      some earlier Write. */
  lemma {:induction false} FaultIff(cfg: Config, calls: seq<Call>, outcome: nat -> bool)
    ensures var t := PerformAll(cfg, NEW_TAPE, calls);
            WriteResult(cfg, t, outcome).media.faults > t.media.faults <==>
            && t.queue.chunks != [] && t.state != Stopped && !Rejected(cfg, t)
            && SomeWriteRejected(cfg, NEW_TAPE, calls)
  {
    FilelessIff(cfg, NEW_TAPE, calls);
    FaultExactly(cfg, PerformAll(cfg, NEW_TAPE, calls), outcome);
  }

  lemma {:induction false} FilteredThenPassedFaults(c: AudioChunk, outcome: nat -> bool)
    ensures PerformAll(Config(1, 0, true), NEW_TAPE,
                       [Write(outcome), PassPartyFilter, AddAudioChunk(c), Write(outcome)]).media.faults == 1
  {
    var cfg := Config(1, 0, true);
    var t1 := Perform(cfg, NEW_TAPE, Write(outcome));
    var t2 := Perform(cfg, t1, PassPartyFilter);
    var t3 := Perform(cfg, t2, AddAudioChunk(c));
    assert t3.queue.chunks == [c] && t3.state == Active;
    var t4 := WriteOne(cfg, t3, outcome(t3.queue.popCount));
    assert WriteAll(cfg, t3, outcome) == WriteAll(cfg, t4, outcome) == t4;
    var calls := [Write(outcome), PassPartyFilter, AddAudioChunk(c), Write(outcome)];
    assert calls[1..] == [PassPartyFilter, AddAudioChunk(c), Write(outcome)];
    assert calls[1..][1..] == [AddAudioChunk(c), Write(outcome)];
    assert calls[1..][1..][1..] == [Write(outcome)];
    assert [Write(outcome)][1..] == [];
    assert PerformAll(cfg, NEW_TAPE, calls) == PerformAll(cfg, t1, calls[1..])
        == PerformAll(cfg, t2, calls[1..][1..]) == PerformAll(cfg, t3, [Write(outcome)]);
    assert PerformAll(cfg, t3, [Write(outcome)]) == Perform(cfg, t3, Write(outcome));
  }

  // ---------- Nothing is lost ----------

  /** Everything accepted is either in the file or still queued, in order. */
  ghost predicate Lossless(t: Tape) {
    && t.media.file + t.queue.chunks == t.queue.log
    && t.media.bytesWritten == SumBytes(t.media.file)
    && (t.state == Active ==> t.media.hasFile)
  }

  lemma {:induction false} SumBytesPrefix(a: seq<AudioChunk>, b: seq<AudioChunk>)
    ensures SumBytes(a) <= SumBytes(a + b)
  {
    if a != [] {
      assert (a + b)[1..] == a[1..] + b;
      SumBytesPrefix(a[1..], b);
    } else {
      assert a + b == b;
    }
  }

  lemma {:induction false} WriteOneLossless(cfg: Config, t: Tape)
    requires Lossless(t) && t.queue.chunks != [] && LoopGoesOn(t)
    requires SumBytes(t.queue.log) / 1024 <= cfg.fileSizeLimitKb
    ensures Lossless(WriteOne(cfg, t, true)) && WriteOne(cfg, t, true).queue.log == t.queue.log
  {
    var c, rest := t.queue.chunks[0], t.queue.chunks[1..];
    SumBytesPrefix(t.media.file, t.queue.chunks);
    SumBytesSnoc(t.media.file, c);
    assert (t.media.file + [c]) + rest == t.media.file + t.queue.chunks;
  }

  lemma {:induction false} WriteAllLossless(cfg: Config, t: Tape, outcome: nat -> bool)
    requires Lossless(t) && SumBytes(t.queue.log) / 1024 <= cfg.fileSizeLimitKb
    requires forall k: nat :: outcome(k)
    ensures Lossless(WriteAll(cfg, t, outcome))
    decreases |t.queue.chunks|
  {
    if LoopGoesOn(t) && t.queue.chunks != [] {
      WriteOneLossless(cfg, t);
      WriteAllLossless(cfg, WriteOne(cfg, t, true), outcome);
    }
  }

  ghost predicate AllWritesSucceed(calls: seq<Call>) {
    forall i, k: nat :: 0 <= i < |calls| && calls[i].Write? ==> calls[i].outcome(k)
  }

  lemma {:induction false} AddLossless(cfg: Config, t: Tape, c: AudioChunk)
    requires Lossless(t)
    ensures Lossless(AddResult(cfg, t, c))
  {
    assert t.media.file + (t.queue.chunks + [c]) == t.media.file + t.queue.chunks + [c];
  }

  lemma {:induction false} WriteLossless(cfg: Config, t: Tape, outcome: nat -> bool)
    requires Lossless(t) && !cfg.partyFilterActive
    requires SumBytes(t.queue.log) / 1024 <= cfg.fileSizeLimitKb
    requires forall k: nat :: outcome(k)
    ensures Lossless(WriteResult(cfg, t, outcome))
  {
    WriteAllLossless(cfg, t, outcome);
  }

  lemma {:induction false} PerformLossless(cfg: Config, t: Tape, call: Call)
    requires Lossless(t) && !cfg.partyFilterActive
    requires SumBytes(t.queue.log) / 1024 <= cfg.fileSizeLimitKb
    requires call.Write? ==> forall k: nat :: call.outcome(k)
    ensures Lossless(Perform(cfg, t, call))
  {
    match call
    case AddAudioChunk(c) => AddLossless(cfg, t, c);
    case Write(outcome) => WriteLossless(cfg, t, outcome);
    case _ =>
  }

  lemma {:induction false} LogGrows(cfg: Config, t: Tape, calls: seq<Call>)
    requires Inv(cfg, t)
    ensures t.queue.log <= PerformAll(cfg, t, calls).queue.log
    ensures SumBytes(t.queue.log) <= SumBytes(PerformAll(cfg, t, calls).queue.log)
    decreases |calls|
  {
    if calls != [] {
      PerformKeeps(cfg, t, calls[0]);
      LogGrows(cfg, Perform(cfg, t, calls[0]), calls[1..]);
    }
    var before, after := t.queue.log, PerformAll(cfg, t, calls).queue.log;
    assert after == before + after[|before|..];
    SumBytesPrefix(before, after[|before|..]);
  }

  /** With no party filter, no failing write and the size limit not reached, the file followed by
      the queue is every accepted chunk in order, after any run of calls. */
  lemma {:induction false} NothingLost(cfg: Config, t: Tape, calls: seq<Call>)
    requires Inv(cfg, t) && Lossless(t) && !cfg.partyFilterActive && AllWritesSucceed(calls)
    requires SumBytes(PerformAll(cfg, t, calls).queue.log) / 1024 <= cfg.fileSizeLimitKb
    ensures Lossless(PerformAll(cfg, t, calls))
    decreases |calls|
  {
    if calls != [] {
      LogGrows(cfg, t, calls);
      PerformKeeps(cfg, t, calls[0]);
      PerformLossless(cfg, t, calls[0]);
      assert forall i :: 0 <= i < |calls| - 1 ==> calls[1..][i] == calls[i + 1];
      NothingLost(cfg, Perform(cfg, t, calls[0]), calls[1..]);
    }
  }

  // ---------- The object ----------

  /** Its methods are the uninterrupted calls above. */
  class AudioTape {
    const cfg: Config
    var state: TapeState
    var chunkQueue: ChunkQueue
    var media: Media
    var shouldStop: bool
    var passedPartyFilterTest: bool
    var isQueued: bool
    var readyForBatchProcessing: bool
    ghost var batched: nat

    ghost function View(): Tape
      reads this
    {
      Tape(state, chunkQueue, media, shouldStop, passedPartyFilterTest, isQueued, readyForBatchProcessing, batched)
    }

    constructor (cfg: Config)
      ensures View() == NEW_TAPE && this.cfg == cfg
    {
      this.cfg := cfg;
      state := Created;
      chunkQueue := ChunkQueue([], 0, 0, 0, 0, 0, []);
      media := Media(false, [], 0, 0, 0);
      shouldStop, passedPartyFilterTest, isQueued := false, false, false;
      readyForBatchProcessing, batched := false, 0;
    }

    method AddAudioChunk(chunk: AudioChunk)
      modifies this
      ensures View() == AddResult(cfg, old(View()), chunk)
    {
      if state == Created || state == Active {
        var q := chunkQueue;
        if q.dataSize >= cfg.batchSizeKByte * 3 * 1024 {
          chunkQueue := q.(rejectedCount := q.rejectedCount + 1);
          return;
        }
        q := q.(chunks := q.chunks + [chunk], log := q.log + [chunk]);
        q := q.(dataSize := q.dataSize + chunk.details.numBytes, pushCount := q.pushCount + 1);
        if |q.chunks| > q.highMark {
          q := q.(highMark := |q.chunks|);
        }
        chunkQueue := q;
      }
    }

    method PopChunk() returns (chunk: Option<AudioChunk>)
      modifies this`chunkQueue
      ensures chunk == if old(chunkQueue).chunks == [] then None else Some(old(chunkQueue).chunks[0])
      ensures chunkQueue == if old(chunkQueue).chunks == [] then old(chunkQueue) else Take(old(chunkQueue))
    {
      var q := chunkQueue;
      if |q.chunks| > 0 {
        chunk := Some(q.chunks[0]);
        chunkQueue := q.(chunks := q.chunks[1..], popCount := q.popCount + 1,
                         dataSize := q.dataSize - chunk.value.details.numBytes);
      } else {
        chunk := None;
      }
    }

    method StoreChunk(chunk: AudioChunk, ok: bool)
      modifies this`media
      ensures media == Store(cfg, old(media), chunk, ok)
    {
      if media.bytesWritten / 1024 > cfg.fileSizeLimitKb {
        return;
      }
      if !media.hasFile {
        media := media.(faults := media.faults + 1);
      } else if ok {
        media := media.(file := media.file + [chunk], bytesWritten := media.bytesWritten + chunk.details.numBytes);
      } else {
        media := media.(numErrors := media.numErrors + 1);
      }
    }

    method Write(outcome: nat -> bool)
      modifies this
      ensures View() == WriteResult(cfg, old(View()), outcome)
    {
      if !passedPartyFilterTest && cfg.partyFilterActive {
        if state == Created {
          state := Active;
        }
        DiscardChunks();
        return;
      }
      WriteChunks(outcome);
      if (shouldStop && state != Stopped) || state == Error {
        state := Stopped;
        if media.hasFile && media.bytesWritten > 0 {
          readyForBatchProcessing := true;
        }
      }
    }

    method DiscardChunks()
      modifies this`chunkQueue
      ensures chunkQueue == DiscardAll(old(chunkQueue))
    {
      var done := false;
      while !done
        invariant DiscardAll(chunkQueue) == DiscardAll(old(chunkQueue))
        invariant done ==> chunkQueue.chunks == []
        decreases !done, |chunkQueue.chunks|
      {
        var chunk := PopChunk();
        done := chunk.None?;
      }
    }

    method WriteChunks(outcome: nat -> bool)
      modifies this
      ensures View() == WriteAll(cfg, old(View()), outcome)
    {
      var done := false;
      while !done && state != Stopped && state != Error
        invariant WriteAll(cfg, View(), outcome) == WriteAll(cfg, old(View()), outcome)
        invariant done ==> chunkQueue.chunks == []
        decreases !done, |chunkQueue.chunks|
      {
        ghost var before := View();
        var ok := outcome(chunkQueue.popCount);
        var chunk := PopChunk();
        if chunk.None? {
          done := true;
        } else {
          if state == Created {
            state := Active;
            media := media.(hasFile := true);
          }
          StoreChunk(chunk.value, ok);
          assert View() == WriteOne(cfg, before, ok);
        }
      }
    }

    method SetShouldStop()
      modifies this
      ensures View() == old(View()).(shouldStop := true)
    {
      shouldStop := true;
    }

    method IsReadyForBatchProcessing() returns (answer: bool)
      modifies this
      ensures answer == old(readyForBatchProcessing)
      ensures View() == CheckReady(old(View()))
    {
      if readyForBatchProcessing {
        readyForBatchProcessing := false;
        batched := batched + 1;
        return true;
      }
      return false;
    }
  }
}
