/** The table of stored TCP streams (TrySipTcp in SipTcp.cpp), for any framing rule f and any test
    `opens` of whether a payload opens a message of its own. */
module StreamTable {
  import opened AudioChunks
  import opened StreamCutting

  datatype Connection = Connection(senderIp: u32, receiverIp: u32, senderPort: u16, receiverPort: u16)

  datatype Packet = Packet(conn: Connection, seqNo: u32, payload: string)

  /** The value of a SipTcpStream. The sequence numbers are unsigned long and do not wrap at 32 bits. */
  datatype Stream = Stream(conn: Connection, lastSeqNo: nat, expectingSeqNo: nat, entryTime: int, feed: Feed)

  predicate Duplicates(s: Stream, p: Packet) {
    s.conn == p.conn && s.lastSeqNo >= p.seqNo
  }

  function Opened(f: Framer, p: Packet, now: int): Stream {
    Stream(p.conn, p.seqNo, p.seqNo + |p.payload|, now, Receive(f, NEW_FEED, p.payload))
  }

  lemma {:induction false} OpenedIs(f: Framer, p: Packet, now: int)
    ensures var r := Parse(f, p.payload, 0);
            Opened(f, p, now) == Stream(p.conn, p.seqNo, p.seqNo + |p.payload|, now, Feed(p.payload, r.end, r.messages))
  {
    assert "" + p.payload == p.payload;
  }

  predicate Continues(s: Stream, p: Packet) {
    s.conn == p.conn && s.expectingSeqNo == p.seqNo
  }

  function Continued(f: Framer, s: Stream, p: Packet): Stream
    requires s.feed.Valid()
  {
    if Continues(s, p) then
      s.(feed := Receive(f, s.feed, p.payload), expectingSeqNo := s.expectingSeqNo + |p.payload|)
    else s
  }

  predicate AnyContinues(ss: seq<Stream>, p: Packet) {
    ss != [] && (AnyContinues(ss[..|ss| - 1], p) || Continues(ss[|ss| - 1], p))
  }

  /** A stream is dropped once all of it is consumed or a minute has passed. */
  predicate Kept(s: Stream, now: int) {
    s.feed.offset != |s.feed.buffer| && now - s.entryTime < 60
  }

  predicate AllValid(ss: seq<Stream>) {
    forall i :: 0 <= i < |ss| ==> ss[i].feed.Valid()
  }

  /** One pass over the stored streams. */
  function Sweep(f: Framer, ss: seq<Stream>, p: Packet, now: int): (r: seq<Stream>)
    requires AllValid(ss)
    ensures AllValid(r)
    decreases |ss|
  {
    if ss == [] then []
    else
      var last := Continued(f, ss[|ss| - 1], p);
      Sweep(f, ss[..|ss| - 1], p, now) + (if Kept(last, now) then [last] else [])
  }

  /** What a pass over the first i streams leaves and answers. */
  predicate SweptTo(f: Framer, ss: seq<Stream>, i: nat, p: Packet, now: int, kept: seq<Stream>, result: bool)
    requires i <= |ss| && AllValid(ss)
  {
    kept == Sweep(f, ss[..i], p, now) && result == AnyContinues(ss[..i], p)
  }

  lemma {:induction false} SweptNext(f: Framer, ss: seq<Stream>, i: nat, p: Packet, now: int, kept: seq<Stream>,
                                     result: bool, j: nat)
    requires i < |ss| && j == i + 1 && AllValid(ss) && SweptTo(f, ss, i, p, now, kept, result)
    ensures var s := Continued(f, ss[i], p);
            SweptTo(f, ss, j, p, now, if Kept(s, now) then kept + [s] else kept, result || Continues(ss[i], p))
  {
    assert ss[..j][..i] == ss[..i];
    assert kept + [] == kept;
  }

  lemma {:induction false} SweptAll(f: Framer, ss: seq<Stream>, p: Packet, now: int, kept: seq<Stream>, result: bool)
    requires AllValid(ss) && SweptTo(f, ss, |ss|, p, now, kept, result)
    ensures kept == Sweep(f, ss, p, now) && result == AnyContinues(ss, p)
  {
    assert ss[..|ss|] == ss;
  }

  lemma {:induction false} SweptNone(f: Framer, ss: seq<Stream>, p: Packet, now: int)
    requires AllValid(ss)
    ensures SweptTo(f, ss, 0, p, now, [], false)
  {
    assert ss[..0] == [];
  }

  predicate IsDuplicate(ss: seq<Stream>, p: Packet) {
    exists i :: 0 <= i < |ss| && Duplicates(ss[i], p)
  }

  /** TrySipTcp: the stored streams afterwards, and its answer. */
  function TableAfter(f: Framer, opens: string -> bool, ss: seq<Stream>, p: Packet, now: int): (r: (seq<Stream>, bool))
    requires AllValid(ss)
    ensures AllValid(r.0)
  {
    if IsDuplicate(ss, p) then (ss, true)
    else if opens(p.payload) then
      var s := Opened(f, p, now);
      (if s.feed.offset != |p.payload| then ss + [s] else ss, true)
    else (Sweep(f, ss, p, now), AnyContinues(ss, p))
  }

  /** The streams a pass erases, as it leaves them. */
  function Erased(f: Framer, ss: seq<Stream>, p: Packet, now: int): (r: seq<Stream>)
    requires AllValid(ss)
    ensures AllValid(r)
    decreases |ss|
  {
    if ss == [] then []
    else
      var last := Continued(f, ss[|ss| - 1], p);
      Erased(f, ss[..|ss| - 1], p, now) + (if Kept(last, now) then [] else [last])
  }

  /** The streams a call is done with: those it erases, or one that its first packet consumes entirely
      and that is never stored. */
  function Retired(f: Framer, opens: string -> bool, ss: seq<Stream>, p: Packet, now: int): (r: seq<Stream>)
    requires AllValid(ss)
    ensures AllValid(r)
  {
    if IsDuplicate(ss, p) then []
    else if opens(p.payload) then
      if Opened(f, p, now).feed.offset == |p.payload| then [Opened(f, p, now)] else []
    else Erased(f, ss, p, now)
  }

  /** Stored or done with, no stream is forgotten: a call adds the stream it opens or offers the packet
      to every one there is. */
  lemma {:induction false} NoneForgotten(f: Framer, opens: string -> bool, ss: seq<Stream>, p: Packet, now: int)
    requires AllValid(ss)
    ensures multiset(TableAfter(f, opens, ss, p, now).0) + multiset(Retired(f, opens, ss, p, now)) ==
            if IsDuplicate(ss, p) then multiset(ss)
            else if opens(p.payload) then multiset(ss) + multiset{Opened(f, p, now)}
            else multiset(AllContinued(f, ss, p))
  {
    if !IsDuplicate(ss, p) && !opens(p.payload) {
      SweepSplits(f, ss, p, now);
    }
  }

  function AllContinued(f: Framer, ss: seq<Stream>, p: Packet): seq<Stream>
    requires AllValid(ss)
    decreases |ss|
  {
    if ss == [] then [] else AllContinued(f, ss[..|ss| - 1], p) + [Continued(f, ss[|ss| - 1], p)]
  }

  lemma {:induction false} SweepSplits(f: Framer, ss: seq<Stream>, p: Packet, now: int)
    requires AllValid(ss)
    ensures multiset(Sweep(f, ss, p, now)) + multiset(Erased(f, ss, p, now)) == multiset(AllContinued(f, ss, p))
    decreases |ss|
  {
    if ss != [] {
      SweepSplits(f, ss[..|ss| - 1], p, now);
    }
  }

  // ---------- Which streams stay ----------

  /** A stream not consumed entirely and less than a minute old is still stored after every packet,
      continued if the packet is taken for a continuation. */
  lemma {:induction false} StillStored(f: Framer, opens: string -> bool, ss: seq<Stream>, p: Packet, now: int, i: nat)
    requires AllValid(ss) && i < |ss|
    ensures var s := if IsDuplicate(ss, p) || opens(p.payload) then ss[i] else Continued(f, ss[i], p);
            s.feed.offset != |s.feed.buffer| && now - s.entryTime < 60 ==> s in TableAfter(f, opens, ss, p, now).0
  {
    SweepHolds(f, ss, p, now, i);
  }

  lemma {:induction false} SweepHolds(f: Framer, ss: seq<Stream>, p: Packet, now: int, i: nat)
    requires AllValid(ss) && i < |ss|
    ensures var s := Continued(f, ss[i], p);
            s.feed.offset != |s.feed.buffer| && now - s.entryTime < 60 ==> s in Sweep(f, ss, p, now)
    decreases |ss|
  {
    if i < |ss| - 1 {
      SweepHolds(f, ss[..|ss| - 1], p, now, i);
    }
  }

  /** After a pass over the list no stored stream is consumed entirely or a minute old. */
  lemma {:induction false} NoneStale(f: Framer, opens: string -> bool, ss: seq<Stream>, p: Packet, now: int, s: Stream)
    requires AllValid(ss) && !IsDuplicate(ss, p) && !opens(p.payload)
    requires s in TableAfter(f, opens, ss, p, now).0
    ensures s.feed.offset != |s.feed.buffer| && now - s.entryTime < 60
  {
    SweepFresh(f, ss, p, now, s);
  }

  lemma {:induction false} SweepFresh(f: Framer, ss: seq<Stream>, p: Packet, now: int, s: Stream)
    requires AllValid(ss) && s in Sweep(f, ss, p, now)
    ensures s.feed.offset != |s.feed.buffer| && now - s.entryTime < 60
    decreases |ss|
  {
    if s in Sweep(f, ss[..|ss| - 1], p, now) {
      SweepFresh(f, ss[..|ss| - 1], p, now, s);
    }
  }

  /** A packet from at or before the start of a stored stream of its connection changes nothing. */
  lemma {:induction false} Retransmitted(f: Framer, opens: string -> bool, ss: seq<Stream>, p: Packet, now: int, i: nat)
    requires AllValid(ss) && i < |ss| && ss[i].conn == p.conn && p.seqNo <= ss[i].lastSeqNo
    ensures TableAfter(f, opens, ss, p, now) == (ss, true) && Retired(f, opens, ss, p, now) == []
  {
    assert Duplicates(ss[i], p);
  }

  /** A packet that opens a message behind the starts of all stored streams of its connection opens a
      stream, which is stored unless that packet is all of it. */
  lemma {:induction false} OpensBehind(f: Framer, opens: string -> bool, ss: seq<Stream>, p: Packet, now: int)
    requires AllValid(ss) && opens(p.payload)
    requires forall i :: 0 <= i < |ss| && ss[i].conn == p.conn ==> ss[i].lastSeqNo < p.seqNo
    ensures var r := Parse(f, p.payload, 0);
            var s := Stream(p.conn, p.seqNo, p.seqNo + |p.payload|, now, Feed(p.payload, r.end, r.messages));
            && TableAfter(f, opens, ss, p, now) == (if r.end == |p.payload| then ss else ss + [s], true)
            && Retired(f, opens, ss, p, now) == if r.end == |p.payload| then [s] else []
  {
    OpenedIs(f, p, now);
  }

  /** Stored streams of one connection stand in the order of their starts, which all differ. */
  predicate StartsRise(ss: seq<Stream>) {
    forall i, j :: 0 <= i < j < |ss| && ss[i].conn == ss[j].conn ==> ss[i].lastSeqNo < ss[j].lastSeqNo
  }

  /** Some stream of the list has the connection and start of s. */
  predicate StartsAs(ss: seq<Stream>, s: Stream) {
    exists i :: 0 <= i < |ss| && ss[i].conn == s.conn && ss[i].lastSeqNo == s.lastSeqNo
  }

  lemma {:induction false} SweepStarts(f: Framer, ss: seq<Stream>, p: Packet, now: int, s: Stream)
    requires AllValid(ss) && s in Sweep(f, ss, p, now)
    ensures StartsAs(ss, s)
    decreases |ss|
  {
    var front, last := ss[..|ss| - 1], ss[|ss| - 1];
    if s in Sweep(f, front, p, now) {
      SweepStarts(f, front, p, now, s);
      var i :| 0 <= i < |front| && front[i].conn == s.conn && front[i].lastSeqNo == s.lastSeqNo;
      assert ss[i] == front[i];
    } else {
      assert last.conn == s.conn && last.lastSeqNo == s.lastSeqNo;
    }
  }

  lemma {:induction false} SweepRises(f: Framer, ss: seq<Stream>, p: Packet, now: int)
    requires AllValid(ss) && StartsRise(ss)
    ensures StartsRise(Sweep(f, ss, p, now))
    decreases |ss|
  {
    if ss != [] {
      var front, last := ss[..|ss| - 1], ss[|ss| - 1];
      var kept := Sweep(f, front, p, now);
      SweepRises(f, front, p, now);
      forall i | 0 <= i < |kept| && kept[i].conn == last.conn ensures kept[i].lastSeqNo < last.lastSeqNo {
        SweepStarts(f, front, p, now, kept[i]);
        var j :| 0 <= j < |front| && front[j].conn == kept[i].conn && front[j].lastSeqNo == kept[i].lastSeqNo;
        assert ss[j] == front[j];
      }
    }
  }

  lemma {:induction false} TableRises(f: Framer, opens: string -> bool, ss: seq<Stream>, p: Packet, now: int)
    requires AllValid(ss) && StartsRise(ss)
    ensures StartsRise(TableAfter(f, opens, ss, p, now).0)
  {
    SweepRises(f, ss, p, now);
    forall i | 0 <= i < |ss| && ss[i].conn == p.conn && ss[i].lastSeqNo >= p.seqNo ensures IsDuplicate(ss, p) {
      assert Duplicates(ss[i], p);
    }
  }

  // ---------- The objects ----------

  /** m_tcpBuffer, m_offset and the messages handed on so far are held together in `feed`. */
  class TcpStream {
    const conn: Connection
    const lastSeqNo: nat
    const entryTime: int
    var expectingSeqNo: nat
    var feed: Feed

    ghost function View(): Stream
      reads this
    {
      Stream(conn, lastSeqNo, expectingSeqNo, entryTime, feed)
    }

    /** A stream that starts with p, of whose payload `offset` bytes are consumed already. */
    constructor (p: Packet, now: int, offset: nat, delivered: seq<string>)
      ensures View() == Stream(p.conn, p.seqNo, p.seqNo + |p.payload|, now, Feed(p.payload, offset, delivered))
    {
      conn, lastSeqNo, entryTime := p.conn, p.seqNo, now;
      expectingSeqNo := p.seqNo + |p.payload|;
      feed := Feed(p.payload, offset, delivered);
    }

    /** A continuation: the payload is appended and parsing goes on at m_offset. */
    method Continue(f: Framer, p: Packet)
      requires feed.Valid() && Continues(View(), p)
      modifies this
      ensures View() == Continued(f, old(View()), p)
    {
      feed := feed.(buffer := feed.buffer + p.payload);
      var r := Parse(f, feed.buffer, feed.offset);
      feed := feed.(offset := r.end, delivered := feed.delivered + r.messages);
      expectingSeqNo := expectingSeqNo + |p.payload|;
    }
  }

  ghost function Views(ss: seq<TcpStream>): (r: seq<Stream>)
    reads ss
    ensures |r| == |ss| && forall i :: 0 <= i < |ss| ==> r[i] == ss[i].View()
  {
    seq(|ss|, i requires 0 <= i < |ss| reads ss => ss[i].View())
  }

  ghost predicate AllDifferent(ss: seq<TcpStream>) {
    forall i, j :: 0 <= i < j < |ss| ==> ss[i] != ss[j]
  }

  /** One stream of the list is offered the packet; `kept` are the streams not erased so far. */
  method SweepOne(f: Framer, s: TcpStream, p: Packet, now: int, kept: seq<TcpStream>)
    returns (matched: bool, kept': seq<TcpStream>)
    requires s.feed.Valid() && forall k :: 0 <= k < |kept| ==> kept[k] != s
    modifies s
    ensures s.View() == Continued(f, old(s.View()), p) && matched == Continues(old(s.View()), p)
    ensures kept' == if Kept(s.View(), now) then kept + [s] else kept
    ensures Views(kept') == if Kept(s.View(), now) then old(Views(kept)) + [s.View()] else old(Views(kept))
  {
    matched, kept' := s.conn == p.conn && s.expectingSeqNo == p.seqNo, kept;
    if matched {
      s.Continue(f, p);
    }
    if s.feed.offset != |s.feed.buffer| && now - s.entryTime < 60 {
      kept' := kept + [s];
    }
  }

  /** The streams kept differ from each other and from those from i on. */
  ghost predicate Apart(kept: seq<TcpStream>, streams: seq<TcpStream>, i: nat) {
    AllDifferent(kept) && forall k, j :: 0 <= k < |kept| && i <= j < |streams| ==> kept[k] != streams[j]
  }

  lemma {:induction false} StaysApart(kept: seq<TcpStream>, streams: seq<TcpStream>, i: nat, j: nat)
    requires i < |streams| && j == i + 1 && Apart(kept, streams, i) && AllDifferent(streams)
    ensures Apart(kept, streams, j) && Apart(kept + [streams[i]], streams, j)
    ensures forall k :: 0 <= k < |kept| ==> kept[k] != streams[i]
  {
  }

  /** The pass over the list. */
  method SweepKept(f: Framer, streams: seq<TcpStream>, p: Packet, now: int) returns (result: bool, kept: seq<TcpStream>)
    requires AllDifferent(streams) && AllValid(Views(streams))
    modifies streams
    ensures AllDifferent(kept)
    ensures Views(kept) == Sweep(f, old(Views(streams)), p, now)
    ensures result == AnyContinues(old(Views(streams)), p)
  {
    result, kept := false, [];
    ghost var before := Views(streams);
    assert Views([]) == [];
    SweptNone(f, before, p, now);
    for i := 0 to |streams|
      invariant forall j :: i <= j < |streams| ==> streams[j].View() == before[j]
      invariant Apart(kept, streams, i)
      invariant SweptTo(f, before, i, p, now, Views(kept), result)
    {
      SweptNext(f, before, i, p, now, Views(kept), result, i + 1);
      StaysApart(kept, streams, i, i + 1);
      var matched;
      matched, kept := SweepOne(f, streams[i], p, now, kept);
      result := result || matched;
    }
    SweptAll(f, before, p, now, Views(kept), result);
  }

  class TcpStreams {
    const f: Framer
    const opens: string -> bool
    var streams: seq<TcpStream>

    ghost predicate Valid()
      reads this, streams
    {
      && AllDifferent(streams)
      && AllValid(Views(streams))
    }

    constructor (f: Framer, opens: string -> bool)
      ensures Valid() && streams == [] && this.f == f && this.opens == opens
    {
      this.f, this.opens := f, opens;
      streams := [];
    }

    method FindDuplicate(p: Packet) returns (found: bool)
      requires Valid()
      ensures found == IsDuplicate(Views(streams), p)
    {
      var i := 0;
      while i < |streams|
        invariant 0 <= i <= |streams|
        invariant forall j :: 0 <= j < i ==> !Duplicates(Views(streams)[j], p)
      {
        var s := streams[i];
        if s.conn == p.conn && s.lastSeqNo >= p.seqNo {
          assert Duplicates(Views(streams)[i], p);
          return true;
        }
        i := i + 1;
      }
      return false;
    }

    method SweepStreams(p: Packet, now: int) returns (result: bool)
      requires Valid()
      modifies this, streams
      ensures Valid()
      ensures Views(streams) == Sweep(f, old(Views(streams)), p, now)
      ensures result == AnyContinues(old(Views(streams)), p)
    {
      var kept;
      result, kept := SweepKept(f, streams, p, now);
      streams := kept;
    }

    method OpenStream(p: Packet, now: int)
      requires Valid()
      modifies this
      ensures Valid()
      ensures Views(streams) == old(Views(streams))
                                + if Opened(f, p, now).feed.offset != |p.payload| then [Opened(f, p, now)] else []
    {
      ghost var fresher := Opened(f, p, now);
      var r := Parse(f, p.payload, 0);
      OpenedIs(f, p, now);
      if r.end != |p.payload| {
        var s := new TcpStream(p, now, r.end, r.messages);
        streams := streams + [s];
        assert s.View() == fresher;
        assert Views(streams) == old(Views(streams)) + [fresher];
      }
    }

    method TryTcp(p: Packet, now: int) returns (result: bool)
      requires Valid()
      modifies this, streams
      ensures Valid()
      ensures (Views(streams), result) == TableAfter(f, opens, old(Views(streams)), p, now)
    {
      ghost var before := Views(streams);
      var duplicate := FindDuplicate(p);
      if duplicate {
        return true;
      }
      if opens(p.payload) {
        OpenStream(p, now);
        assert before + [] == before;
        return true;
      }
      result := SweepStreams(p, now);
    }
  }

  // ---------- What is in the stored streams ----------

  /** The packet carries bytes of the connection's true byte stream at the position its sequence
      number names; so the numbers do not wrap. */
  ghost predicate Carries(bytes: (Connection, nat) -> char, p: Packet) {
    forall i :: 0 <= i < |p.payload| ==> p.payload[i] == bytes(p.conn, p.seqNo + i)
  }

  /** A stored stream: its sequence numbers frame its buffer, the buffer is that very stretch of the
      connection's byte stream, every byte once and in order, and as long as it is well framed the
      messages handed on are those of one parse of it. */
  ghost predicate StreamOk(f: Framer, good: string -> bool, bytes: (Connection, nat) -> char, s: Stream) {
    && s.expectingSeqNo == s.lastSeqNo + |s.feed.buffer|
    && s.feed.Valid()
    && (forall i :: 0 <= i < |s.feed.buffer| ==> s.feed.buffer[i] == bytes(s.conn, s.lastSeqNo + i))
    && (WellFramed(f, good, s.feed.buffer, 0) ==> UpToDate(f, s.feed))
  }

  lemma {:induction false} FeedStaysUpToDate(f: Framer, good: string -> bool, x: Feed, piece: string)
    requires PrefixStable(f, good) && x.Valid() && (WellFramed(f, good, x.buffer, 0) ==> UpToDate(f, x))
    ensures WellFramed(f, good, x.buffer + piece, 0) ==> UpToDate(f, Receive(f, x, piece))
  {
    if WellFramed(f, good, x.buffer + piece, 0) {
      WellFramedPrefix(f, good, x.buffer, piece, 0);
      ReceiveKeepsUpToDate(f, good, x, piece);
    }
  }

  lemma {:induction false} OpenedOk(f: Framer, good: string -> bool, bytes: (Connection, nat) -> char, p: Packet,
                                    now: int)
    requires Carries(bytes, p)
    ensures StreamOk(f, good, bytes, Opened(f, p, now))
  {
    OpenedIs(f, p, now);
    OpenedUpToDate(f, p, now);
    OkFromPacket(f, good, bytes, p, Opened(f, p, now));
  }

  lemma {:induction false} OkFromPacket(f: Framer, good: string -> bool, bytes: (Connection, nat) -> char, p: Packet,
                                        s: Stream)
    requires Carries(bytes, p) && s.conn == p.conn && s.lastSeqNo == p.seqNo
    requires s.expectingSeqNo == p.seqNo + |p.payload| && s.feed.buffer == p.payload
    requires s.feed.Valid() && UpToDate(f, s.feed)
    ensures StreamOk(f, good, bytes, s)
  {
  }

  lemma {:induction false} OpenedUpToDate(f: Framer, p: Packet, now: int)
    ensures UpToDate(f, Opened(f, p, now).feed)
  {
    OpenedIs(f, p, now);
  }

  lemma {:induction false} ContinuedOk(f: Framer, good: string -> bool, bytes: (Connection, nat) -> char, s: Stream,
                                       p: Packet)
    requires PrefixStable(f, good) && StreamOk(f, good, bytes, s) && Carries(bytes, p)
    ensures StreamOk(f, good, bytes, Continued(f, s, p))
  {
    if Continues(s, p) {
      FeedStaysUpToDate(f, good, s.feed, p.payload);
      var t := Continued(f, s, p);
      forall i | 0 <= i < |t.feed.buffer| ensures t.feed.buffer[i] == bytes(t.conn, t.lastSeqNo + i) {
        if i >= |s.feed.buffer| {
          assert t.feed.buffer[i] == p.payload[i - |s.feed.buffer|];
        }
      }
    }
  }

  ghost predicate AllOk(f: Framer, good: string -> bool, bytes: (Connection, nat) -> char, ss: seq<Stream>) {
    forall i :: 0 <= i < |ss| ==> StreamOk(f, good, bytes, ss[i])
  }

  lemma {:induction false} SweepOk(f: Framer, good: string -> bool, bytes: (Connection, nat) -> char, ss: seq<Stream>,
                                   p: Packet, now: int)
    requires PrefixStable(f, good) && AllOk(f, good, bytes, ss) && AllValid(ss) && Carries(bytes, p)
    ensures AllOk(f, good, bytes, Sweep(f, ss, p, now)) && AllOk(f, good, bytes, Erased(f, ss, p, now))
    decreases |ss|
  {
    if ss != [] {
      SweepOk(f, good, bytes, ss[..|ss| - 1], p, now);
      ContinuedOk(f, good, bytes, ss[|ss| - 1], p);
    }
  }

  datatype Arrival = Arrival(packet: Packet, now: int)

  /** The streams in the list and those done with. */
  datatype Table = Table(stored: seq<Stream>, retired: seq<Stream>)

  function TableAfterOne(f: Framer, opens: string -> bool, t: Table, a: Arrival): (r: Table)
    requires AllValid(t.stored)
    ensures AllValid(r.stored)
  {
    Table(TableAfter(f, opens, t.stored, a.packet, a.now).0, t.retired + Retired(f, opens, t.stored, a.packet, a.now))
  }

  function TableAfterAll(f: Framer, opens: string -> bool, t: Table, arrivals: seq<Arrival>): Table
    requires AllValid(t.stored)
    decreases |arrivals|
  {
    if arrivals == [] then t else TableAfterAll(f, opens, TableAfterOne(f, opens, t, arrivals[0]), arrivals[1..])
  }

  lemma {:induction false} TableAfterOk(f: Framer, good: string -> bool, opens: string -> bool,
                                        bytes: (Connection, nat) -> char, ss: seq<Stream>, p: Packet, now: int)
    requires PrefixStable(f, good) && AllOk(f, good, bytes, ss) && AllValid(ss) && Carries(bytes, p)
    ensures AllOk(f, good, bytes, TableAfter(f, opens, ss, p, now).0)
    ensures AllOk(f, good, bytes, Retired(f, opens, ss, p, now))
  {
    OpenedOk(f, good, bytes, p, now);
    SweepOk(f, good, bytes, ss, p, now);
  }

  /** Over every sequence of packets no two stored streams of a connection start at the same byte, and
      they stand in the order of their starts. */
  lemma {:induction false} StartsAlwaysRise(f: Framer, opens: string -> bool, t: Table, arrivals: seq<Arrival>)
    requires AllValid(t.stored) && StartsRise(t.stored)
    ensures StartsRise(TableAfterAll(f, opens, t, arrivals).stored)
    decreases |arrivals|
  {
    if arrivals != [] {
      TableRises(f, opens, t.stored, arrivals[0].packet, arrivals[0].now);
      StartsAlwaysRise(f, opens, TableAfterOne(f, opens, t, arrivals[0]), arrivals[1..]);
    }
  }

  /** Over every sequence of packets, retransmitted, overlapping or out of order as they may be,
      every stream, stored or done with, is in order. */
  lemma {:induction false} EveryArrivalOrder(f: Framer, good: string -> bool, opens: string -> bool,
                                             bytes: (Connection, nat) -> char, t: Table, arrivals: seq<Arrival>)
    requires PrefixStable(f, good)
    requires AllOk(f, good, bytes, t.stored) && AllOk(f, good, bytes, t.retired) && AllValid(t.stored)
    requires forall i :: 0 <= i < |arrivals| ==> Carries(bytes, arrivals[i].packet)
    ensures var t' := TableAfterAll(f, opens, t, arrivals);
            AllOk(f, good, bytes, t'.stored) && AllOk(f, good, bytes, t'.retired)
    decreases |arrivals|
  {
    if arrivals != [] {
      var a := arrivals[0];
      TableAfterOk(f, good, opens, bytes, t.stored, a.packet, a.now);
      assert forall i :: 0 <= i < |arrivals| - 1 ==> arrivals[1..][i] == arrivals[i + 1];
      EveryArrivalOrder(f, good, opens, bytes, TableAfterOne(f, opens, t, a), arrivals[1..]);
    }
  }

  // ---------- Packets in order ----------

  function Payloads(arrivals: seq<Arrival>): seq<string> {
    if arrivals == [] then [] else [arrivals[0].packet.payload] + Payloads(arrivals[1..])
  }

  /** The packets continue the stream one after the other, none opens a message of its own, and until
      the last one the stream is neither consumed entirely nor a minute old. */
  ghost predicate Follow(f: Framer, opens: string -> bool, s: Stream, arrivals: seq<Arrival>)
    requires s.feed.Valid()
    decreases |arrivals|
  {
    arrivals != [] ==>
      var a := arrivals[0];
      var s' := Continued(f, s, a.packet);
      && a.packet.conn == s.conn && a.packet.seqNo == s.expectingSeqNo && !opens(a.packet.payload)
      && (arrivals[1..] != [] ==> s'.feed.offset != |s'.feed.buffer| && a.now - s.entryTime < 60)
      && Follow(f, opens, s', arrivals[1..])
  }

  /** One stream there is in all, of this connection and with this feed; `stays` tells if it is stored. */
  predicate OneStream(t: Table, conn: Connection, feed: Feed, stays: bool) {
    var all := t.stored + t.retired;
    |all| == 1 && all[0].conn == conn && all[0].feed == feed && (t.stored != [] <==> stays)
  }

  /** The stream has received exactly the packets' payloads in order, and at the end it is stored if and
      only if it is neither consumed entirely nor a minute old. */
  predicate Received(f: Framer, opens: string -> bool, s: Stream, arrivals: seq<Arrival>)
    requires s.feed.Valid() && arrivals != []
  {
    var feed := ReceiveAll(f, s.feed, Payloads(arrivals));
    OneStream(TableAfterAll(f, opens, Table([s], []), arrivals), s.conn, feed,
              feed.offset != |feed.buffer| && arrivals[|arrivals| - 1].now - s.entryTime < 60)
  }

  lemma {:induction false} InOrder(f: Framer, opens: string -> bool, s: Stream, arrivals: seq<Arrival>)
    requires s.feed.Valid() && s.lastSeqNo < s.expectingSeqNo && arrivals != [] && Follow(f, opens, s, arrivals)
    ensures Received(f, opens, s, arrivals)
    decreases |arrivals|
  {
    var a, rest := arrivals[0], arrivals[1..];
    if rest == [] {
      LastInOrder(f, opens, s, a);
      assert arrivals == [a];
    } else {
      var s' := Continued(f, s, a.packet);
      InOrder(f, opens, s', rest);
      OneMoreInOrder(f, opens, s, a, s', rest);
      assert arrivals == [a] + rest;
    }
  }

  lemma {:induction false} OneMoreInOrder(f: Framer, opens: string -> bool, s: Stream, a: Arrival, s': Stream,
                                          rest: seq<Arrival>)
    requires s.feed.Valid() && s.lastSeqNo < s.expectingSeqNo && Continues(s, a.packet) && !opens(a.packet.payload)
    requires s' == Continued(f, s, a.packet) && Kept(s', a.now) && rest != [] && Received(f, opens, s', rest)
    ensures Received(f, opens, s, [a] + rest)
  {
    var arrivals := [a] + rest;
    assert arrivals[1..] == rest;
    AloneContinues(f, opens, s, a);
    PayloadsOnward(f, s.feed, arrivals);
  }

  lemma {:induction false} LastInOrder(f: Framer, opens: string -> bool, s: Stream, a: Arrival)
    requires s.feed.Valid() && s.lastSeqNo < s.expectingSeqNo && Continues(s, a.packet) && !opens(a.packet.payload)
    ensures Received(f, opens, s, [a])
  {
    assert [a][1..] == [];
    AloneContinues(f, opens, s, a);
    PayloadsOnward(f, s.feed, [a]);
    assert TableAfterAll(f, opens, Table([s], []), [a]) == TableAfterOne(f, opens, Table([s], []), a);
  }

  lemma {:induction false} PayloadsOnward(f: Framer, x: Feed, arrivals: seq<Arrival>)
    requires x.Valid() && arrivals != []
    ensures ReceiveAll(f, x, Payloads(arrivals))
         == ReceiveAll(f, Receive(f, x, arrivals[0].packet.payload), Payloads(arrivals[1..]))
    ensures arrivals[1..] == [] ==>
              ReceiveAll(f, x, Payloads(arrivals)) == Receive(f, x, arrivals[0].packet.payload)
  {
    assert Payloads(arrivals)[1..] == Payloads(arrivals[1..]);
  }

  lemma {:induction false} AloneContinues(f: Framer, opens: string -> bool, s: Stream, a: Arrival)
    requires s.feed.Valid() && s.lastSeqNo < s.expectingSeqNo && Continues(s, a.packet) && !opens(a.packet.payload)
    ensures var s' := Continued(f, s, a.packet);
            TableAfterOne(f, opens, Table([s], []), a) == if Kept(s', a.now) then Table([s'], []) else Table([], [s'])
  {
    assert [s][..0] == [];
    assert Sweep(f, [s][..0], a.packet, a.now) == [] && Erased(f, [s][..0], a.packet, a.now) == [];
  }
}
