/** MediaChunkFile: chunks saved as they are, in batches (MediaChunkFile.cpp). The file is a byte
    sequence on which no write fails. */
module MediaChunkFiles {
  import opened AudioChunks
  import opened ByteOrder
  import opened Sequences

  const MAX_CHUNK_SIZE := 100000
  const DETAILS_SIZE := 32

  // ---------- The bytes of one chunk ----------

  /** The memory image of AudioChunkDetails: seven 32-bit fields, two bytes and two bytes of padding. */
  function EncodeDetails(d: ChunkDetails): (b: seq<byte>)
    ensures |b| == DETAILS_SIZE
  {
    U32(d.marker) + U32(d.encoding) + U32(d.numBytes) + U32(d.timestamp) + U32(d.arrivalTimestamp)
    + U32(d.sequenceNumber) + U32(d.sampleRate) + [d.rtpPayloadType, d.channel, 0, 0]
  }

  function DecodeDetails(b: seq<byte>): ChunkDetails
    requires |b| == DETAILS_SIZE
  {
    ChunkDetails(FromU32(b[0..4]), FromU32(b[4..8]), FromU32(b[8..12]), FromU32(b[12..16]), FromU32(b[16..20]),
                 FromU32(b[20..24]), FromU32(b[24..28]), b[28], b[29])
  }

  lemma {:induction false} DetailsRoundTrip(d: ChunkDetails)
    ensures DecodeDetails(EncodeDetails(d)) == d
  {
    var b := EncodeDetails(d);
    var z := [0, 0, 0, 0];
    U32RoundTrip(d.marker, z);
    U32RoundTrip(d.encoding, z);
    U32RoundTrip(d.numBytes, z);
    U32RoundTrip(d.timestamp, z);
    U32RoundTrip(d.arrivalTimestamp, z);
    U32RoundTrip(d.sequenceNumber, z);
    U32RoundTrip(d.sampleRate, z);
    DetailsSlices(d);
  }

  /** Four bytes of b from `at` on spell v, the least significant first. */
  predicate Spells(b: seq<byte>, at: nat, v: int)
    requires at + 4 <= |b|
  {
    v == b[at] as int + b[at + 1] as int * 0x100 + b[at + 2] as int * 0x1_0000 + b[at + 3] as int * 0x100_0000
  }

  /** Where the fields are in the 32 bytes. */
  lemma {:induction false} DetailsLayout(d: ChunkDetails)
    ensures var b := EncodeDetails(d);
            && |b| == 32
            && Spells(b, 0, d.marker) && Spells(b, 4, d.encoding) && Spells(b, 8, d.numBytes)
            && Spells(b, 12, d.timestamp) && Spells(b, 16, d.arrivalTimestamp) && Spells(b, 20, d.sequenceNumber)
            && Spells(b, 24, d.sampleRate)
            && b[28] == d.rtpPayloadType && b[29] == d.channel && b[30] == b[31] == 0
  {
    var b := EncodeDetails(d);
    DetailsSlices(d);
    FieldAt(b, 0, d.marker);
    FieldAt(b, 4, d.encoding);
    FieldAt(b, 8, d.numBytes);
    FieldAt(b, 12, d.timestamp);
    FieldAt(b, 16, d.arrivalTimestamp);
    FieldAt(b, 20, d.sequenceNumber);
    FieldAt(b, 24, d.sampleRate);
  }

  lemma {:induction false} DetailsSlices(d: ChunkDetails)
    ensures var b := EncodeDetails(d);
            && b[0..4] == U32(d.marker) && b[4..8] == U32(d.encoding) && b[8..12] == U32(d.numBytes)
            && b[12..16] == U32(d.timestamp) && b[16..20] == U32(d.arrivalTimestamp)
            && b[20..24] == U32(d.sequenceNumber) && b[24..28] == U32(d.sampleRate)
            && b[28..] == [d.rtpPayloadType, d.channel, 0, 0]
  {
  }

  lemma {:induction false} FieldAt(b: seq<byte>, at: nat, v: u32)
    requires at + 4 <= |b| && b[at..at + 4] == U32(v)
    ensures Spells(b, at, v)
  {
    LittleEndian32(v, b[at..at + 4]);
    assert b[at..at + 4][0] == b[at] && b[at..at + 4][1] == b[at + 1];
    assert b[at..at + 4][2] == b[at + 2] && b[at..at + 4][3] == b[at + 3];
  }

  /** What FlushToDisk writes for a chunk: nothing if its buffer is null. */
  function Encode(c: AudioChunk): seq<byte> {
    if c.buffer.Some? then EncodeDetails(c.details) + c.buffer.value else []
  }

  function EncodeAll(chunks: seq<AudioChunk>): seq<byte> {
    if chunks == [] then [] else Encode(chunks[0]) + EncodeAll(chunks[1..])
  }

  lemma {:induction false} EncodeAllConcat(a: seq<AudioChunk>, b: seq<AudioChunk>)
    ensures EncodeAll(a + b) == EncodeAll(a) + EncodeAll(b)
  {
    if a == [] {
      assert [] + b == b;
    } else {
      assert (a + b)[1..] == a[1..] + b;
      EncodeAllConcat(a[1..], b);
    }
  }

  lemma {:induction false} EncodeAllSnoc(chunks: seq<AudioChunk>, c: AudioChunk)
    ensures EncodeAll(chunks + [c]) == EncodeAll(chunks) + Encode(c)
  {
    EncodeAllConcat(chunks, [c]);
    assert [c][1..] == [] && Encode(c) + [] == Encode(c);
  }

  // ---------- Writing ----------

  /** `disk` is what has reached the file. */
  datatype Writer = Writer(queue: seq<AudioChunk>, dataSize: nat, disk: seq<byte>, open: bool)

  const OPENED := Writer([], 0, [], true)

  function Flush(w: Writer): Writer {
    w.(queue := [], dataSize := 0, disk := w.disk + EncodeAll(w.queue))
  }

  /** WriteChunk ignores null and empty chunks. */
  predicate Ignored(c: Option<AudioChunk>) {
    c.None? || c.value.details.numBytes == 0
  }

  /** WriteChunk: the writer afterwards, and whether no exception was thrown. */
  function Write(w: Writer, c: Option<AudioChunk>, batchSizeKByte: nat): (Writer, bool) {
    if Ignored(c) then (w, true)
    else
      var w1 := w.(dataSize := w.dataSize + c.value.details.numBytes, queue := w.queue + [c.value]);
      if w1.dataSize <= batchSizeKByte * 1024 then (w1, true)
      else if w.open then (Flush(w1), true)
      else (w1, false)
  }

  function Closed(w: Writer): Writer {
    if w.open then Flush(w).(open := false) else w
  }

  // ---------- Reading ----------

  /** The ways a reading ends: the end of the file, or one of the three exceptions. */
  datatype Ending = EndOfFile | InvalidMarker | ChunkTooBig | IncompleteChunk

  datatype ReadResult = Read(chunk: AudioChunk, size: nat) | Ended(why: Ending)

  const CLEARED := ChunkDetails(MEDIA_CHUNK_MARKER, 0, 0, 0, 0, 0, 8000, 0xFF, 0)

  /** ReadChunkMono on what is left of the file. SetBuffer leaves a fresh chunk untouched when the
      stored size is zero. */
  function ReadChunk(rest: seq<byte>): (r: ReadResult)
    ensures r.Read? ==> DETAILS_SIZE <= r.size <= |rest|
  {
    if |rest| < DETAILS_SIZE then Ended(EndOfFile)
    else
      var details := DecodeDetails(rest[..DETAILS_SIZE]);
      var n := details.numBytes;
      if details.marker != MEDIA_CHUNK_MARKER then Ended(InvalidMarker)
      else if n >= MAX_CHUNK_SIZE then Ended(ChunkTooBig)
      else if |rest| < DETAILS_SIZE + n then Ended(IncompleteChunk)
      else if n == 0 then Read(AudioChunk(CLEARED, None), DETAILS_SIZE)
      else Read(AudioChunk(details, Some(rest[DETAILS_SIZE..DETAILS_SIZE + n])), DETAILS_SIZE + n)
  }

  /** Reading chunk after chunk until the file ends or an exception is thrown. */
  function ReadAll(rest: seq<byte>): (seq<AudioChunk>, Ending)
    decreases |rest|
  {
    match ReadChunk(rest)
    case Ended(why) => ([], why)
    case Read(c, size) =>
      var (cs, why) := ReadAll(rest[size..]);
      ([c] + cs, why)
  }

  /** Writing the first chunk of the queue: details, then buffer, or nothing. */
  lemma {:induction false} EncodeFirst(disk: seq<byte>, queue: seq<AudioChunk>)
    requires queue != []
    ensures var c, rest := queue[0], EncodeAll(queue[1..]);
            disk + EncodeAll(queue) ==
            if c.buffer.Some? then ((disk + EncodeDetails(c.details)) + c.buffer.value) + rest else disk + rest
  {
    var c, rest := queue[0], EncodeAll(queue[1..]);
    if c.buffer.Some? {
      Regroup(disk, EncodeDetails(c.details), c.buffer.value);
      Regroup(disk, Encode(c), rest);
    } else {
      assert [] + rest == rest;
    }
  }

  // ---------- The object ----------

  class MediaChunkFile {
    var stream: seq<byte>
    var isOpen: bool
    var position: nat
    var chunkQueue: seq<AudioChunk>
    var chunkQueueDataSize: nat

    ghost function View(): Writer
      reads this
    {
      Writer(chunkQueue, chunkQueueDataSize, stream, isOpen)
    }

    constructor OpenForWriting()
      ensures View() == OPENED
    {
      stream, isOpen, position := [], true, 0;
      chunkQueue, chunkQueueDataSize := [], 0;
    }

    constructor OpenForReading(contents: seq<byte>)
      ensures stream == contents && isOpen && position == 0 && chunkQueue == []
    {
      stream, isOpen, position := contents, true, 0;
      chunkQueue, chunkQueueDataSize := [], 0;
    }

    method FlushToDisk()
      modifies this
      ensures View() == Flush(old(View())) && position == old(position)
    {
      ghost var target := stream + EncodeAll(chunkQueue);
      while |chunkQueue| > 0
        invariant stream + EncodeAll(chunkQueue) == target
        invariant isOpen == old(isOpen) && position == old(position)
        decreases |chunkQueue|
      {
        var tmpChunk := chunkQueue[0];
        EncodeFirst(stream, chunkQueue);
        chunkQueue := chunkQueue[1..];
        if tmpChunk.buffer == None {
          continue;
        }
        stream := stream + EncodeDetails(tmpChunk.details);
        stream := stream + tmpChunk.buffer.value;
      }
      assert stream + [] == stream;
      chunkQueueDataSize := 0;
    }

    method WriteChunk(chunk: Option<AudioChunk>, batchSizeKByte: nat) returns (ok: bool)
      modifies this
      ensures (View(), ok) == Write(old(View()), chunk, batchSizeKByte)
    {
      if chunk == None {
        return true;
      }
      if chunk.value.details.numBytes == 0 {
        return true;
      }
      chunkQueueDataSize := chunkQueueDataSize + chunk.value.details.numBytes;
      chunkQueue := chunkQueue + [chunk.value];
      if chunkQueueDataSize > batchSizeKByte * 1024 {
        if isOpen {
          FlushToDisk();
        } else {
          return false;
        }
      }
      return true;
    }

    method Close()
      modifies this
      ensures View() == Closed(old(View()))
    {
      if isOpen {
        FlushToDisk();
        isOpen := false;
      }
    }

    method ReadChunkMono() returns (r: ReadResult)
      requires isOpen && position <= |stream|
      modifies this`position
      ensures r == ReadChunk(stream[old(position)..])
      ensures position <= |stream| && (r.Read? ==> position == old(position) + r.size)
    {
      var rest := stream[position..];
      if |rest| < DETAILS_SIZE {
        position := |stream|;
        return Ended(EndOfFile);
      }
      var details := DecodeDetails(rest[..DETAILS_SIZE]);
      if details.marker != MEDIA_CHUNK_MARKER {
        return Ended(InvalidMarker);
      }
      if details.numBytes >= MAX_CHUNK_SIZE {
        return Ended(ChunkTooBig);
      }
      var n := details.numBytes;
      if |rest| < DETAILS_SIZE + n {
        return Ended(IncompleteChunk);
      }
      position := position + DETAILS_SIZE + n;
      if n == 0 {
        return Read(AudioChunk(CLEARED, None), DETAILS_SIZE);
      }
      return Read(AudioChunk(details, Some(rest[DETAILS_SIZE..DETAILS_SIZE + n])), DETAILS_SIZE + n);
    }

    /** while(ReadChunkMono(chunk)) { ... } */
    method ReadChunks() returns (chunks: seq<AudioChunk>, why: Ending)
      requires isOpen && position <= |stream|
      modifies this`position
      ensures (chunks, why) == ReadAll(stream[old(position)..])
    {
      chunks := [];
      var r := ReadChunkMono();
      ghost var from := old(position);
      NothingRead(stream, from);
      while r.Read?
        invariant from <= |stream| && r == ReadChunk(stream[from..])
        invariant r.Read? ==> position == from + r.size
        invariant ReadSoFar(stream, old(position), from, chunks)
        decreases |stream| - from
      {
        ReadOne(stream, old(position), from, chunks, position);
        chunks := chunks + [r.chunk];
        from := position;
        r := ReadChunkMono();
      }
      why := r.why;
      AllRead(stream, old(position), from, chunks);
    }
  }

  function After(chunks: seq<AudioChunk>, rest: (seq<AudioChunk>, Ending)): (seq<AudioChunk>, Ending) {
    (chunks + rest.0, rest.1)
  }

  /** Reading from start on has given `chunks` when it comes to from. */
  ghost predicate ReadSoFar(s: seq<byte>, start: nat, from: nat, chunks: seq<AudioChunk>) {
    start <= from <= |s| && ReadAll(s[start..]) == After(chunks, ReadAll(s[from..]))
  }

  lemma {:induction false} NothingRead(s: seq<byte>, start: nat)
    requires start <= |s|
    ensures ReadSoFar(s, start, start, [])
  {
    assert [] + ReadAll(s[start..]).0 == ReadAll(s[start..]).0;
  }

  lemma {:induction false} ReadOne(s: seq<byte>, start: nat, from: nat, chunks: seq<AudioChunk>, next: nat)
    requires ReadSoFar(s, start, from, chunks)
    requires ReadChunk(s[from..]).Read? && next == from + ReadChunk(s[from..]).size
    ensures ReadSoFar(s, start, next, chunks + [ReadChunk(s[from..]).chunk])
  {
    var r := ReadChunk(s[from..]);
    assert s[from..][r.size..] == s[next..];
    Regroup(chunks, [r.chunk], ReadAll(s[next..]).0);
  }

  lemma {:induction false} AllRead(s: seq<byte>, start: nat, from: nat, chunks: seq<AudioChunk>)
    requires ReadSoFar(s, start, from, chunks) && ReadChunk(s[from..]).Ended?
    ensures ReadAll(s[start..]) == (chunks, ReadChunk(s[from..]).why)
  {
    assert chunks + [] == chunks;
  }

  // ---------- What is written ----------

  datatype WriteCall = WriteCall(chunk: Option<AudioChunk>, batchSizeKByte: nat)

  function WriteAll(w: Writer, calls: seq<WriteCall>): Writer
    decreases |calls|
  {
    if calls == [] then w else WriteAll(Write(w, calls[0].chunk, calls[0].batchSizeKByte).0, calls[1..])
  }

  /** The chunks that are not ignored, in order. */
  function Accepted(calls: seq<WriteCall>): seq<AudioChunk> {
    if calls == [] then []
    else (if Ignored(calls[0].chunk) then [] else [calls[0].chunk.value]) + Accepted(calls[1..])
  }

  /** The bytes that will have been written once everything queued is. */
  function Bytes(w: Writer): seq<byte> {
    w.disk + EncodeAll(w.queue)
  }

  lemma {:induction false} WriteKeepsBytes(w: Writer, c: AudioChunk, batchSizeKByte: nat)
    requires c.details.numBytes != 0
    ensures Bytes(Write(w, Some(c), batchSizeKByte).0) == Bytes(w) + Encode(c)
  {
    EncodeAllSnoc(w.queue, c);
    Regroup(w.disk, EncodeAll(w.queue), Encode(c));
    assert Bytes(w) + Encode(c) + EncodeAll([]) == Bytes(w) + Encode(c);
  }

  /** The file after Close is the accepted chunks' bytes in order, however they were batched. */
  lemma {:induction false} WrittenBytes(w: Writer, calls: seq<WriteCall>)
    requires w.open
    ensures Closed(WriteAll(w, calls)).disk == Bytes(w) + EncodeAll(Accepted(calls))
    decreases |calls|
  {
    if calls == [] {
      assert Bytes(w) + [] == Bytes(w);
    } else {
      var w1 := Write(w, calls[0].chunk, calls[0].batchSizeKByte).0;
      WrittenBytes(w1, calls[1..]);
      var more := Accepted(calls[1..]);
      if Ignored(calls[0].chunk) {
        assert [] + more == more;
      } else {
        var c := calls[0].chunk.value;
        WriteKeepsBytes(w, c, calls[0].batchSizeKByte);
        Regroup(Bytes(w), Encode(c), EncodeAll(more));
        assert ([c] + more)[1..] == more;
      }
    }
  }

  /** The queued bytes are counted, and never more than the batch after a call on an open file. */
  predicate Buffers(w: Writer, batchSizeKByte: nat) {
    w.open && w.dataSize == SumBytes(w.queue) && SumBytes(w.queue) <= 1024 * batchSizeKByte
  }

  /** A chunk that brings the queue over the batch size has it written out, all in order; any other is
      only queued. On a file not open such a chunk makes the call throw. */
  lemma {:induction false} FlushedIff(w: Writer, c: AudioChunk, batchSizeKByte: nat)
    requires w.dataSize == SumBytes(w.queue) && c.details.numBytes > 0
    ensures var over := SumBytes(w.queue) + c.details.numBytes > 1024 * batchSizeKByte;
            var (w', ok) := Write(w, Some(c), batchSizeKByte);
            && ok == (w.open || !over)
            && w'.queue == (if over && w.open then [] else w.queue + [c])
            && w'.disk == (if over && w.open then w.disk + EncodeAll(w.queue + [c]) else w.disk)
            && (w.open ==> Buffers(w', batchSizeKByte))
  {
    SumBytesSnoc(w.queue, c);
  }

  /** So it is along any run with one batch size. */
  lemma {:induction false} AlwaysBuffers(w: Writer, calls: seq<WriteCall>, batchSizeKByte: nat)
    requires Buffers(w, batchSizeKByte)
    requires forall i :: 0 <= i < |calls| ==> calls[i].batchSizeKByte == batchSizeKByte
    ensures Buffers(WriteAll(w, calls), batchSizeKByte)
    decreases |calls|
  {
    if calls != [] {
      if !Ignored(calls[0].chunk) { FlushedIff(w, calls[0].chunk.value, batchSizeKByte); }
      assert forall i :: 0 <= i < |calls| - 1 ==> calls[1..][i] == calls[i + 1];
      AlwaysBuffers(Write(w, calls[0].chunk, batchSizeKByte).0, calls[1..], batchSizeKByte);
    }
  }

  // ---------- Reading back ----------

  /** A chunk the writer stores and the reader accepts. */
  predicate Storable(c: AudioChunk) {
    && c.buffer.Some? && c.Valid()
    && 0 < c.details.numBytes < MAX_CHUNK_SIZE
    && c.details.marker == MEDIA_CHUNK_MARKER
  }

  predicate AllStorable(chunks: seq<AudioChunk>) {
    forall i :: 0 <= i < |chunks| ==> Storable(chunks[i])
  }

  lemma {:induction false} ReadEncoded(c: AudioChunk, rest: seq<byte>)
    requires c.buffer.Some? && c.Valid() && c.details.numBytes > 0
    ensures ReadChunk(Encode(c) + rest)
         == if c.details.marker != MEDIA_CHUNK_MARKER then Ended(InvalidMarker)
            else if c.details.numBytes >= MAX_CHUNK_SIZE then Ended(ChunkTooBig)
            else Read(c, |Encode(c)|)
    ensures (Encode(c) + rest)[|Encode(c)|..] == rest
  {
    var s := Encode(c) + rest;
    assert s[..DETAILS_SIZE] == EncodeDetails(c.details);
    DetailsRoundTrip(c.details);
    var n := c.details.numBytes;
    assert s[DETAILS_SIZE..DETAILS_SIZE + n] == c.buffer.value;
  }

  /** A record of no bytes reads as a chunk without a buffer, its details those of a fresh chunk. */
  lemma {:induction false} EmptyRecordReads(d: ChunkDetails, rest: seq<byte>)
    requires d.marker == 0x2A2A_2A2A && d.numBytes == 0
    ensures ReadChunk(EncodeDetails(d) + rest)
         == Read(AudioChunk(ChunkDetails(0x2A2A_2A2A, 0, 0, 0, 0, 0, 8000, 255, 0), None), 32)
  {
    assert (EncodeDetails(d) + rest)[..DETAILS_SIZE] == EncodeDetails(d);
    DetailsRoundTrip(d);
  }

  /** Reading what was written gives the chunks with all their details. */
  lemma {:induction false} ReadBack(chunks: seq<AudioChunk>)
    requires AllStorable(chunks)
    ensures ReadAll(EncodeAll(chunks)) == (chunks, EndOfFile)
  {
    if chunks != [] {
      ReadEncoded(chunks[0], EncodeAll(chunks[1..]));
      ReadBack(chunks[1..]);
      assert [chunks[0]] + chunks[1..] == chunks;
    }
  }

  /** Any run of WriteChunk calls on an open file, with any batch sizes, closed and read back, gives
      exactly the non-empty chunks in order. */
  lemma {:induction false} WriteCloseRead(calls: seq<WriteCall>)
    requires AllStorable(Accepted(calls))
    ensures ReadAll(Closed(WriteAll(OPENED, calls)).disk) == (Accepted(calls), EndOfFile)
  {
    WrittenBytes(OPENED, calls);
    ReadBack(Accepted(calls));
    assert Bytes(OPENED) + EncodeAll(Accepted(calls)) == EncodeAll(Accepted(calls));
  }

  /** Chunks with buffers of the declared size come back if and only if each carries the marker and
      is below the size limit. */
  lemma {:induction false} ReadBackIff(chunks: seq<AudioChunk>)
    requires forall i :: 0 <= i < |chunks| ==>
               chunks[i].buffer.Some? && chunks[i].Valid() && chunks[i].details.numBytes > 0
    ensures ReadAll(EncodeAll(chunks)) == (chunks, EndOfFile) <==>
            forall i :: 0 <= i < |chunks| ==>
              chunks[i].details.marker == 0x2A2A_2A2A && chunks[i].details.numBytes < 100000
  {
    if AllStorable(chunks) {
      ReadBack(chunks);
    } else {
      UnstorableEndsEarly(chunks);
    }
  }

  lemma {:induction false} UnstorableEndsEarly(chunks: seq<AudioChunk>)
    requires forall i :: 0 <= i < |chunks| ==>
               chunks[i].buffer.Some? && chunks[i].Valid() && chunks[i].details.numBytes > 0
    requires !AllStorable(chunks)
    ensures ReadAll(EncodeAll(chunks)).1 != EndOfFile
  {
    var c, rest := chunks[0], chunks[1..];
    if Storable(c) {
      assert forall i :: 0 <= i < |rest| ==> rest[i] == chunks[i + 1];
      UnstorableEndsEarly(rest);
      ReadAllEncoded(c, EncodeAll(rest));
    } else {
      UnstorableFirst(c, EncodeAll(rest));
    }
  }

  lemma {:induction false} ReadAllEncoded(c: AudioChunk, rest: seq<byte>)
    requires Storable(c)
    ensures ReadAll(Encode(c) + rest) == After([c], ReadAll(rest))
  {
    ReadEncoded(c, rest);
  }

  lemma {:induction false} UnstorableFirst(c: AudioChunk, rest: seq<byte>)
    requires c.buffer.Some? && c.Valid() && c.details.numBytes > 0 && !Storable(c)
    ensures ReadAll(Encode(c) + rest).1 != EndOfFile
  {
    ReadEncoded(c, rest);
  }

  /** A chunk cut short is not delivered. */
  lemma {:induction false} CutChunkEnds(c: AudioChunk, cut: nat)
    requires Storable(c) && cut < |Encode(c)|
    ensures ReadChunk(Encode(c)[..cut]) == Ended(if cut < 32 then EndOfFile else IncompleteChunk)
  {
    if cut >= DETAILS_SIZE {
      assert Encode(c)[..cut][..DETAILS_SIZE] == EncodeDetails(c.details);
      DetailsRoundTrip(c.details);
    }
  }

  lemma {:induction false} CutConcat<T>(a: seq<T>, b: seq<T>, cut: nat)
    requires cut <= |a| + |b|
    ensures (a + b)[..cut] == if cut < |a| then a[..cut] else a + b[..cut - |a|]
  {
  }

  /** How many chunks lie completely before the cut. */
  function Complete(chunks: seq<AudioChunk>, cut: nat): (k: nat)
    ensures k <= |chunks|
  {
    if chunks == [] || cut < |Encode(chunks[0])| then 0 else 1 + Complete(chunks[1..], cut - |Encode(chunks[0])|)
  }

  /** Read up to the cut, the file gives the chunks that lie completely before it, in order and unchanged,
      and no other. The reading ends with an exception only if the next chunk's details are there and
      its samples are not. */
  predicate CutReads(chunks: seq<AudioChunk>, cut: nat)
    requires cut <= |EncodeAll(chunks)|
  {
    var (read, why) := ReadAll(EncodeAll(chunks)[..cut]);
    var whole := chunks[..Complete(chunks, cut)];
    && read == whole && |EncodeAll(whole)| <= cut
    && why == if cut - |EncodeAll(whole)| < 32 then EndOfFile else IncompleteChunk
  }

  /** That is so wherever a file is cut off, as by a crash. */
  lemma {:induction false} TruncatedFile(chunks: seq<AudioChunk>, cut: nat)
    requires AllStorable(chunks) && cut <= |EncodeAll(chunks)|
    ensures CutReads(chunks, cut)
    decreases |chunks|
  {
    if chunks != [] {
      var c, rest := chunks[0], chunks[1..];
      if cut < |Encode(c)| {
        CutInFirst(c, EncodeAll(rest), cut);
      } else {
        var left := cut - |Encode(c)|;
        TruncatedFile(rest, left);
        CutReadsOn(chunks, c, rest, left, cut);
      }
    }
  }

  lemma {:induction false} CutReadsOn(chunks: seq<AudioChunk>, c: AudioChunk, rest: seq<AudioChunk>, left: nat,
                                      cut: nat)
    requires chunks != [] && c == chunks[0] && rest == chunks[1..] && Storable(c) && cut == |Encode(c)| + left
    requires left <= |EncodeAll(rest)| && CutReads(rest, left)
    ensures CutReads(chunks, cut)
  {
    CutBehindFirst(c, EncodeAll(rest), left, cut);
    WholesOn(chunks, c, rest, left, cut);
  }

  lemma {:induction false} WholesOn(chunks: seq<AudioChunk>, c: AudioChunk, rest: seq<AudioChunk>, left: nat, cut: nat)
    requires chunks != [] && c == chunks[0] && rest == chunks[1..] && cut == |Encode(c)| + left
    ensures var whole, before := chunks[..Complete(chunks, cut)], rest[..Complete(rest, left)];
            whole == [c] + before && |EncodeAll(whole)| == |Encode(c)| + |EncodeAll(before)|
  {
    var k := Complete(rest, left);
    var j := k + 1;
    assert chunks[..j] == [c] + rest[..k];
    FrontLength(chunks, j, k);
  }

  lemma {:induction false} CutInFirst(c: AudioChunk, more: seq<byte>, cut: nat)
    requires Storable(c) && cut < |Encode(c)|
    ensures var (read, why) := ReadAll((Encode(c) + more)[..cut]);
            read == [] && why == if cut < 32 then EndOfFile else IncompleteChunk
  {
    CutConcat(Encode(c), more, cut);
    CutChunkEnds(c, cut);
  }

  lemma {:induction false} CutBehindFirst(c: AudioChunk, more: seq<byte>, left: nat, cut: nat)
    requires Storable(c) && left <= |more| && cut == |Encode(c)| + left
    ensures ReadAll((Encode(c) + more)[..cut]) == After([c], ReadAll(more[..left]))
  {
    CutConcat(Encode(c), more, cut);
    ReadAllEncoded(c, more[..left]);
  }

  /** Complete counts exactly the chunks whose last byte is before the cut. */
  lemma {:induction false} CompleteMeans(chunks: seq<AudioChunk>, cut: nat)
    ensures var k := Complete(chunks, cut);
            |EncodeAll(chunks[..k])| <= cut && (k < |chunks| ==> cut < |EncodeAll(chunks[..k + 1])|)
    decreases |chunks|
  {
    if chunks != [] {
      var k := Complete(chunks, cut);
      if k > 0 {
        CompleteMeans(chunks[1..], cut - |Encode(chunks[0])|);
        FrontLength(chunks, k, k - 1);
      }
      if k < |chunks| {
        FrontLength(chunks, k + 1, k);
      }
    }
  }

  lemma {:induction false} FrontLength(chunks: seq<AudioChunk>, k: nat, j: nat)
    requires k == j + 1 && k <= |chunks|
    ensures |EncodeAll(chunks[..k])| == |Encode(chunks[0])| + |EncodeAll(chunks[1..][..j])|
  {
    assert chunks[..k][1..] == chunks[1..][..j];
  }
}
