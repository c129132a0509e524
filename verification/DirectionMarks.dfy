/** Keep-direction marks: recorded by AudioTape::AddCaptureEvent, applied to the recorded chunks by
    DirectionSelector::ThreadHandler. */
module DirectionMarks {
  import opened AudioChunks
  import opened ByteOrder
  import opened MediaChunkFiles

  datatype KeepDirection = KeepBoth | KeepLocal | KeepRemote | KeepNone | KeepInvalid
  datatype LocalSide = SideUnknown | Side1 | Side2 | SideBoth | SideInvalid

  /** next == 0 stands for an interval without end. */
  datatype Mark = Mark(timestamp: nat, next: nat, keep: KeepDirection)

  /** The keep-direction event. The original reads the clock once for the new mark (`stamp`) and once
      more to close the previous one (`closing`). */
  function AddMark(marks: seq<Mark>, keep: KeepDirection, stamp: nat, closing: nat): seq<Mark> {
    (if marks == [] then [] else marks[..|marks| - 1] + [marks[|marks| - 1].(next := closing)]) + [Mark(stamp, 0, keep)]
  }

  /** The area-code default goes in front, from time 1 to the first mark. */
  function InsertDefault(marks: seq<Mark>, keep: KeepDirection): seq<Mark> {
    [Mark(1, if marks == [] then 0 else marks[0].timestamp, keep)] + marks
  }

  predicate Applies(mark: Mark, time: nat) {
    mark.timestamp != 0 && time >= mark.timestamp && (time < mark.next || mark.next == 0)
  }

  /** Whether an applying mark silences a channel. */
  predicate Silences(keep: KeepDirection, side: LocalSide, channel: byte) {
    (side == Side1 && ((keep == KeepLocal && channel == 2) || (keep == KeepRemote && channel == 1)))
    || (side == Side2 && ((keep == KeepLocal && channel == 1) || (keep == KeepRemote && channel == 2)))
  }

  /** The loop over the marks silences the chunk at some mark. */
  predicate Silenced(marks: seq<Mark>, side: LocalSide, d: ChunkDetails) {
    exists i :: 0 <= i < |marks| && Applies(marks[i], d.arrivalTimestamp) && Silences(marks[i].keep, side, d.channel)
  }

  function Processed(marks: seq<Mark>, side: LocalSide, c: AudioChunk): AudioChunk {
    if c.buffer.Some? && Silenced(marks, side, c.details) then c.(buffer := Some(Zeros(|c.buffer.value|))) else c
  }

  // ---------- The objects ----------

  class TapeMarks {
    var audioDirectionMarks: seq<Mark>

    constructor ()
      ensures audioDirectionMarks == []
    {
      audioDirectionMarks := [];
    }

    method KeepDirectionEvent(keep: KeepDirection, stamp: nat, closing: nat)
      modifies this
      ensures audioDirectionMarks == AddMark(old(audioDirectionMarks), keep, stamp, closing)
    {
      var mark := Mark(stamp, 0, keep);
      if |audioDirectionMarks| > 0 {
        var last := |audioDirectionMarks| - 1;
        audioDirectionMarks := audioDirectionMarks[last := audioDirectionMarks[last].(next := closing)];
      }
      audioDirectionMarks := audioDirectionMarks + [mark];
    }

    method InsertDefaultMark(keep: KeepDirection)
      modifies this
      ensures audioDirectionMarks == InsertDefault(old(audioDirectionMarks), keep)
    {
      var defaultKeptSide := Mark(1, 0, keep);
      if |audioDirectionMarks| > 0 {
        defaultKeptSide := defaultKeptSide.(next := audioDirectionMarks[0].timestamp);
      }
      audioDirectionMarks := [defaultKeptSide] + audioDirectionMarks;
    }
  }

  /** memset(buffer, 0, size) */
  method Blank(buffer: array<byte>)
    modifies buffer
    ensures buffer[..] == Zeros(buffer.Length)
  {
    for i := 0 to buffer.Length
      invariant forall j :: 0 <= j < i ==> buffer[j] == 0
    {
      buffer[i] := 0;
    }
  }

  /** The loop over the marks for one chunk, whose samples are blanked in place. */
  method ApplyMarks(marks: seq<Mark>, side: LocalSide, details: ChunkDetails, buffer: array<byte>)
    modifies buffer
    ensures buffer[..] == if Silenced(marks, side, details) then Zeros(buffer.Length) else old(buffer[..])
  {
    for i := 0 to |marks|
      invariant buffer[..] == if Silenced(marks[..i], side, details) then Zeros(buffer.Length) else old(buffer[..])
    {
      var it := marks[i];
      assert marks[..i + 1] == marks[..i] + [it];
      SilencedSnoc(marks[..i], it, side, details);
      if it.timestamp == 0 {
        continue;
      }
      if details.arrivalTimestamp >= it.timestamp && (details.arrivalTimestamp < it.next || it.next == 0) {
        if side == Side1 {
          if it.keep == KeepLocal && details.channel == 2 {
            Blank(buffer);
          } else if it.keep == KeepRemote && details.channel == 1 {
            Blank(buffer);
          }
        } else if side == Side2 {
          if it.keep == KeepLocal && details.channel == 1 {
            Blank(buffer);
          } else if it.keep == KeepRemote && details.channel == 2 {
            Blank(buffer);
          }
        }
      }
    }
    assert marks[..|marks|] == marks;
  }

  lemma {:induction false} SilencedSnoc(marks: seq<Mark>, mark: Mark, side: LocalSide, d: ChunkDetails)
    ensures Silenced(marks + [mark], side, d) <==>
            Silenced(marks, side, d) || (Applies(mark, d.arrivalTimestamp) && Silences(mark.keep, side, d.channel))
  {
    var more := marks + [mark];
    assert more[|marks|] == mark;
    if Silenced(marks, side, d) {
      var i :| 0 <= i < |marks| && Applies(marks[i], d.arrivalTimestamp) && Silences(marks[i].keep, side, d.channel);
      assert more[i] == marks[i];
    }
  }

  // ---------- The chain of marks ----------

  /** Positive, non-decreasing timestamps; every mark lasts until the next one, the last for ever. */
  predicate Chain(marks: seq<Mark>) {
    && Ordered(marks)
    && (forall i :: 0 <= i < |marks| - 1 ==> marks[i].next == marks[i + 1].timestamp)
    && (marks != [] ==> marks[|marks| - 1].next == 0)
  }

  predicate Ordered(marks: seq<Mark>) {
    && (forall i :: 0 <= i < |marks| ==> marks[i].timestamp > 0)
    && (forall i, j :: 0 <= i < j < |marks| ==> marks[i].timestamp <= marks[j].timestamp)
  }

  /** A keep-direction event with its two clock readings. */
  datatype Event = Event(keep: KeepDirection, stamp: nat, closing: nat)

  function Marks(events: seq<Event>): seq<Mark> {
    if events == [] then [] else
      var e := events[|events| - 1];
      AddMark(Marks(events[..|events| - 1]), e.keep, e.stamp, e.closing)
  }

  /** A positive clock that never goes back. */
  predicate ClockRuns(events: seq<Event>) {
    && (forall i :: 0 <= i < |events| ==> 0 < events[i].stamp <= events[i].closing)
    && (forall i, j :: 0 <= i < j < |events| ==> events[i].closing <= events[j].stamp)
  }

  /** Each event sees one and the same time at both its readings. */
  predicate OneReading(events: seq<Event>) {
    forall i :: 0 <= i < |events| ==> events[i].closing == events[i].stamp
  }

  /** The mark of event i lasts until the next event's second reading. */
  lemma {:induction false} MarkOfEvent(events: seq<Event>, i: nat)
    requires i < |events|
    ensures |Marks(events)| == |events|
    ensures Marks(events)[i]
            == Mark(events[i].stamp, if i + 1 < |events| then events[i + 1].closing else 0, events[i].keep)
    decreases |events|
  {
    var n := |events| - 1;
    if n > 0 {
      MarkOfEvent(events[..n], if i < n then i else n - 1);
    }
  }

  lemma {:induction false} MarksAreOrdered(events: seq<Event>)
    requires ClockRuns(events)
    ensures Ordered(Marks(events)) && |Marks(events)| == |events|
  {
    var marks := Marks(events);
    if events != [] { MarkOfEvent(events, 0); }
    forall i | 0 <= i < |marks| ensures marks[i].timestamp == events[i].stamp > 0 {
      MarkOfEvent(events, i);
    }
    forall i, j | 0 <= i < j < |marks| ensures marks[i].timestamp <= marks[j].timestamp {
      assert events[i].stamp <= events[i].closing <= events[j].stamp;
      assert marks[i].timestamp == events[i].stamp && marks[j].timestamp == events[j].stamp;
    }
  }

  /** If every event but the first reads the clock to one value, the marks form a chain. */
  lemma {:induction false} MarksChain(events: seq<Event>)
    requires ClockRuns(events) && forall i :: 0 < i < |events| ==> events[i].closing == events[i].stamp
    ensures Chain(Marks(events))
  {
    var marks := Marks(events);
    MarksAreOrdered(events);
    forall i | 0 <= i < |marks| - 1 ensures marks[i].next == marks[i + 1].timestamp {
      MarkOfEvent(events, i);
      MarkOfEvent(events, i + 1);
    }
    if marks != [] { MarkOfEvent(events, |marks| - 1); }
  }

  lemma {:induction false} DefaultKeepsChain(marks: seq<Mark>, keep: KeepDirection)
    requires Chain(marks)
    ensures Chain(InsertDefault(marks, keep))
  {
    var more := InsertDefault(marks, keep);
    assert forall i :: 0 < i < |more| ==> more[i] == marks[i - 1];
  }

  /** With one reading per event the marks form a chain, and inserting the default keeps it one. */
  lemma {:induction false} MarksFormChain(events: seq<Event>, keep: KeepDirection)
    requires ClockRuns(events) && OneReading(events)
    ensures Chain(Marks(events)) && Chain(InsertDefault(Marks(events), keep))
  {
    MarksChain(events);
    DefaultKeepsChain(Marks(events), keep);
  }

  /** The index of the latest mark at or before the time, or -1. */
  function Latest(marks: seq<Mark>, time: nat): (i: int)
    ensures -1 <= i < |marks|
    ensures i >= 0 ==> marks[i].timestamp <= time
    ensures forall j :: i < j < |marks| ==> marks[j].timestamp > time
  {
    if marks == [] then -1
    else if marks[|marks| - 1].timestamp <= time then |marks| - 1
    else Latest(marks[..|marks| - 1], time)
  }

  /** In a chain a mark applies exactly when it is the latest one. */
  lemma {:induction false} OnlyLatestApplies(marks: seq<Mark>, time: nat, i: nat)
    requires Chain(marks) && i < |marks|
    ensures Applies(marks[i], time) <==> i == Latest(marks, time)
  {
    var k := Latest(marks, time);
    assert i + 1 < |marks| ==> marks[i].next == marks[i + 1].timestamp > 0;
    if i < k {
      assert marks[i].next == marks[i + 1].timestamp <= marks[k].timestamp <= time;
    }
  }

  /** So the blanking loop does to every chunk what the latest mark alone would do. */
  lemma {:induction false} BlankingFollowsLatest(marks: seq<Mark>, side: LocalSide, d: ChunkDetails)
    requires Chain(marks)
    ensures var k := Latest(marks, d.arrivalTimestamp);
            Silenced(marks, side, d) <==> k >= 0 && Silences(marks[k].keep, side, d.channel)
  {
    forall i | 0 <= i < |marks|
      ensures Applies(marks[i], d.arrivalTimestamp) <==> i == Latest(marks, d.arrivalTimestamp)
    {
      OnlyLatestApplies(marks, d.arrivalTimestamp, i);
    }
  }

  // ---------- Whom the marks silence ----------

  /** The local party is recorded on channel 1 or 2; on none of them if its side is not known. */
  function LocalChannel(side: LocalSide): Option<byte> {
    match side
    case Side1 => Some(1)
    case Side2 => Some(2)
    case _ => None
  }

  /** The remote party is on the other one. */
  function RemoteChannel(side: LocalSide): Option<byte> {
    if LocalChannel(side).Some? then Some(3 - LocalChannel(side).value) else None
  }

  /** What the latest mark says is to be kept; before the first one, both. */
  function InEffect(marks: seq<Mark>, time: nat): KeepDirection {
    var k := Latest(marks, time);
    if k >= 0 then marks[k].keep else KeepBoth
  }

  /** Chunk c comes back with every sample zero. */
  predicate Blanked(c: AudioChunk, c': AudioChunk) {
    && c'.details == c.details && c'.buffer.Some? == c.buffer.Some?
    && (c.buffer.Some? ==>
          |c'.buffer.value| == |c.buffer.value| && forall i :: 0 <= i < |c'.buffer.value| ==> c'.buffer.value[i] == 0)
  }

  /** To keep one party is to blank the channel of the other, and nothing else; with any other
      instruction, or the local side not known, nothing is blanked. */
  predicate KeepsParty(keep: KeepDirection, side: LocalSide, c: AudioChunk, c': AudioChunk) {
    var other := match keep
                 case KeepLocal => RemoteChannel(side)
                 case KeepRemote => LocalChannel(side)
                 case _ => None;
    if other == Some(c.details.channel) then Blanked(c, c') else c' == c
  }

  lemma {:induction false} KeptPartyIsHeard(marks: seq<Mark>, side: LocalSide, c: AudioChunk)
    requires Chain(marks)
    ensures KeepsParty(InEffect(marks, c.details.arrivalTimestamp), side, c, Processed(marks, side, c))
  {
    BlankingFollowsLatest(marks, side, c.details);
  }

  /** What is in effect is what the latest event up to that time said. */
  lemma {:induction false} InEffectIs(events: seq<Event>, time: nat)
    requires ClockRuns(events) && OneReading(events)
    ensures var k := Latest(Marks(events), time);
            && k < |events| && (forall j :: k < j < |events| ==> events[j].stamp > time)
            && (k >= 0 ==> events[k].stamp <= time)
            && InEffect(Marks(events), time) == if k >= 0 then events[k].keep else KeepBoth
  {
    MarksAreOrdered(events);
    forall i | 0 <= i < |events|
      ensures Marks(events)[i].timestamp == events[i].stamp && Marks(events)[i].keep == events[i].keep
    {
      MarkOfEvent(events, i);
    }
  }

  /** The default is in effect from time 1 until the first mark, and changes nothing from then on. */
  lemma {:induction false} DefaultInEffect(marks: seq<Mark>, keep: KeepDirection, time: nat)
    requires Chain(marks) && time >= 1
    ensures InEffect(InsertDefault(marks, keep), time)
         == if marks != [] && marks[0].timestamp <= time then InEffect(marks, time) else keep
  {
    LatestBehind(InsertDefault(marks, keep)[0], marks, time);
  }

  lemma {:induction false} LatestBehind(first: Mark, marks: seq<Mark>, time: nat)
    requires Ordered(marks) && first.timestamp <= time
    ensures Latest([first] + marks, time) == Latest(marks, time) + 1
    ensures Latest(marks, time) >= 0 <==> marks != [] && marks[0].timestamp <= time
  {
    var more, k := [first] + marks, Latest(marks, time);
    forall j | k + 1 < j < |more| ensures more[j].timestamp > time {
      assert more[j] == marks[j - 1];
    }
    assert k >= 0 ==> more[k + 1] == marks[k];
    LatestIs(more, time, k + 1);
    assert k > 0 ==> marks[0].timestamp <= marks[k].timestamp;
  }

  lemma {:induction false} LatestIs(marks: seq<Mark>, time: nat, k: nat)
    requires k < |marks| && marks[k].timestamp <= time && forall j :: k < j < |marks| ==> marks[j].timestamp > time
    ensures Latest(marks, time) == k
  {
    assert marks[k].timestamp <= time;
  }

  /** At every time at most the latest mark applies. */
  ghost predicate LatestGoverns(marks: seq<Mark>) {
    forall time: nat, i: nat :: i < |marks| && Applies(marks[i], time) ==> i == Latest(marks, time)
  }

  /** Without the assumption: the latest mark governs alone at all times if and only if no event saw
      the clock advance between its two readings (the first event has nothing to close). */
  lemma {:induction false} LatestGovernsIff(events: seq<Event>)
    requires ClockRuns(events)
    ensures LatestGoverns(Marks(events)) <==> forall i :: 0 < i < |events| ==> events[i].closing == events[i].stamp
  {
    var marks := Marks(events);
    MarksAreOrdered(events);
    if forall i :: 0 < i < |events| ==> events[i].closing == events[i].stamp {
      MarksChain(events);
      forall time: nat, i: nat | i < |marks| && Applies(marks[i], time) ensures i == Latest(marks, time) {
        OnlyLatestApplies(marks, time, i);
      }
    } else {
      var i :| 0 < i < |events| && events[i].closing != events[i].stamp;
      var time := events[i].stamp;
      MarkOfEvent(events, i - 1);
      MarkOfEvent(events, i);
      assert events[i - 1].closing <= events[i].stamp;
      assert Applies(marks[i - 1], time);
      assert Latest(marks, time) >= i;
    }
  }

  // ---------- The rewritten file ----------

  function ProcessedAll(marks: seq<Mark>, side: LocalSide, chunks: seq<AudioChunk>): (r: seq<AudioChunk>)
    ensures |r| == |chunks| && forall i :: 0 <= i < |r| ==> r[i] == Processed(marks, side, chunks[i])
  {
    seq(|chunks|, i requires 0 <= i < |chunks| => Processed(marks, side, chunks[i]))
  }

  function Calls(chunks: seq<AudioChunk>, batchSizeKByte: nat): seq<WriteCall> {
    if chunks == [] then [] else [WriteCall(Some(chunks[0]), batchSizeKByte)] + Calls(chunks[1..], batchSizeKByte)
  }

  lemma {:induction false} CallsAccepted(chunks: seq<AudioChunk>, batchSizeKByte: nat)
    requires AllStorable(chunks)
    ensures Accepted(Calls(chunks, batchSizeKByte)) == chunks
  {
    if chunks != [] {
      CallsAccepted(chunks[1..], batchSizeKByte);
      assert Calls(chunks, batchSizeKByte)[1..] == Calls(chunks[1..], batchSizeKByte);
    }
  }

  /** The file the selector writes, read again: the same chunks with the same details in the same
      order, each silenced if some mark that applies to it says so and otherwise unchanged. */
  lemma {:induction false} RewrittenFile(marks: seq<Mark>, side: LocalSide, chunks: seq<AudioChunk>,
                                         batchSizeKByte: nat)
    requires AllStorable(chunks)
    ensures var read := ReadAll(EncodeAll(chunks)).0;
            ReadAll(Closed(WriteAll(OPENED, Calls(ProcessedAll(marks, side, read), batchSizeKByte))).disk)
            == (ProcessedAll(marks, side, chunks), EndOfFile)
  {
    ReadBack(chunks);
    var processed := ProcessedAll(marks, side, chunks);
    assert AllStorable(processed);
    CallsAccepted(processed, batchSizeKByte);
    WriteCloseRead(Calls(processed, batchSizeKByte));
  }

  /** In that file every chunk is heard or blanked as the instruction in effect at its arrival says. */
  lemma {:induction false} RewrittenParties(marks: seq<Mark>, side: LocalSide, chunks: seq<AudioChunk>,
                                            batchSizeKByte: nat, i: nat)
    requires AllStorable(chunks) && Chain(marks) && i < |chunks|
    ensures var read := ReadAll(EncodeAll(chunks)).0;
            var written := Closed(WriteAll(OPENED, Calls(ProcessedAll(marks, side, read), batchSizeKByte))).disk;
            && |ReadAll(written).0| == |chunks|
            && KeepsParty(InEffect(marks, chunks[i].details.arrivalTimestamp), side, chunks[i], ReadAll(written).0[i])
  {
    RewrittenFile(marks, side, chunks, batchSizeKByte);
    KeptPartyIsHeard(marks, side, chunks[i]);
  }
}
