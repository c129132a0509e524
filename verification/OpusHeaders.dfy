/** The OpusHead packet (opus_header.cpp; section 5.1 of RFC 7845). */
module OpusHeaders {
  import opened AudioChunks
  import opened ByteOrder

  const MAGIC: seq<byte> := [79, 112, 117, 115, 72, 101, 97, 100] // "OpusHead"

  /** OpusHeader. Of stream_map the entries in use: one per channel, or the two entries 0 and 1 that a
      channel mapping of 0 implies. */
  datatype OpusHeader = OpusHeader(
    version: int,
    channels: int,
    preskip: int,
    inputSampleRate: u32,
    gain: int,
    channelMapping: int,
    nbStreams: int,
    nbCoupled: int,
    streamMap: seq<byte>)

  /** (short)value */
  function Signed16(v: u16): int {
    if v < 0x8000 then v else v - 0x1_0000
  }

  /** The test on each stream_map entry. */
  predicate MapEntryOk(b: byte, streams: int, coupled: int) {
    b <= streams + coupled || b == 255
  }

  /** What opus_header_parse lets through. */
  predicate Acceptable(h: OpusHeader) {
    && 0 <= h.version < 16 && 0 < h.channels < 0x100 && 0 <= h.preskip < 0x1_0000
    && -0x8000 <= h.gain < 0x8000 && 0 <= h.channelMapping < 0x100
    && if h.channelMapping == 0 then
         && h.channels <= 2 && h.nbStreams == 1 && h.nbCoupled == (if h.channels > 1 then 1 else 0)
         && h.streamMap == [0, 1]
       else
         && 1 <= h.nbStreams && 0 <= h.nbCoupled <= h.nbStreams && h.nbCoupled + h.nbStreams <= 255
         && |h.streamMap| == h.channels
         && forall i :: 0 <= i < |h.streamMap| ==> MapEntryOk(h.streamMap[i], h.nbStreams, h.nbCoupled)
  }

  // ---------- Reading ----------

  class ROPacket {
    const data: seq<byte>
    var pos: nat

    constructor (data: seq<byte>)
      ensures this.data == data && pos == 0
    {
      this.data, pos := data, 0;
    }

    method ReadChars(n: nat) returns (r: Option<seq<byte>>)
      requires pos <= |data|
      modifies this
      ensures pos <= |data| && pos == if r.Some? then old(pos) + n else old(pos)
      ensures r == if old(pos) + n <= |data| then Some(data[old(pos)..old(pos) + n]) else None
    {
      if pos > |data| - n {
        return None;
      }
      var str: seq<byte> := [];
      var start := pos;
      for i := 0 to n
        invariant pos == start + i && str == data[start..pos]
      {
        str := str + [data[pos]];
        pos := pos + 1;
      }
      return Some(str);
    }

    method ReadU8() returns (r: Option<byte>)
      requires pos <= |data|
      modifies this
      ensures pos <= |data| && pos == if r.Some? then old(pos) + 1 else old(pos)
      ensures r == if old(pos) < |data| then Some(data[old(pos)]) else None
    {
      var c := ReadChars(1);
      return if c == None then None else Some(c.value[0]);
    }
  }

  /** The channel mapping table: stream count, coupled count and one byte per channel. */
  function ParseTable(t: seq<byte>, channels: nat): Option<(int, int, seq<byte>)> {
    if |t| < 2 + channels then None
    else
      var streams, coupled, entries := t[0], t[1], t[2..2 + channels];
      if streams < 1 || coupled > streams || coupled as int + streams as int > 255
         || exists i :: 0 <= i < |entries| && !MapEntryOk(entries[i], streams, coupled) then None
      else Some((streams, coupled, entries))
  }

  /** opus_header_parse; None stands for the answer 0. */
  function Parse(p: seq<byte>): Option<OpusHeader> {
    if |p| < 19 || p[..8] != MAGIC || p[8] >= 16 || p[9] == 0 then None
    else
      var channels: int := p[9];
      var h := OpusHeader(p[8], channels, FromU16(p[10..12]), FromU32(p[12..16]), Signed16(FromU16(p[16..18])), p[18],
                          1, if channels > 1 then 1 else 0, [0, 1]);
      if p[18] == 0 then
        if channels > 2 || (p[8] <= 1 && |p| != 19) then None else Some(h)
      else
        match ParseTable(p[19..], channels)
        case None => None
        case Some((streams, coupled, entries)) =>
          if p[8] <= 1 && |p| != 21 + channels then None
          else Some(h.(nbStreams := streams, nbCoupled := coupled, streamMap := entries))
  }

  method ReadTable(p: ROPacket, channels: nat) returns (r: Option<(int, int, seq<byte>)>)
    requires p.pos <= |p.data|
    modifies p
    ensures p.pos <= |p.data|
    ensures r == ParseTable(p.data[old(p.pos)..], channels)
    ensures r.Some? ==> p.pos == old(p.pos) + 2 + channels
  {
    ghost var t := p.data[p.pos..];
    var start := p.pos;
    var streams := p.ReadU8();
    if streams == None || streams.value < 1 {
      return None;
    }
    var coupled := p.ReadU8();
    if coupled == None || coupled.value > streams.value || coupled.value as int + streams.value as int > 255 {
      return None;
    }
    var entries: seq<byte> := [];
    for i := 0 to channels
      invariant start + 2 + i == p.pos <= |p.data| && entries == t[2..2 + i]
      invariant forall k :: 0 <= k < i ==> MapEntryOk(entries[k], streams.value, coupled.value)
    {
      var ch := p.ReadU8();
      if ch == None {
        return None;
      }
      assert ch.value == t[2 + i];
      if ch.value as int > streams.value as int + coupled.value as int && ch.value != 255 {
        assert |t| >= 2 + channels ==> t[2..2 + channels][i] == ch.value;
        return None;
      }
      entries := entries + [ch.value];
    }
    return Some((streams.value, coupled.value, entries));
  }

  method OpusHeaderParse(packet: seq<byte>) returns (r: Option<OpusHeader>)
    ensures r == Parse(packet)
  {
    if |packet| < 19 {
      return None;
    }
    var p := new ROPacket(packet);
    var str := p.ReadChars(8);
    if str.value != MAGIC {
      return None;
    }
    var version := p.ReadU8();
    if version.value >= 16 {
      return None;
    }
    var ch := p.ReadU8();
    if ch.value == 0 {
      return None;
    }
    var channels: int := ch.value;
    var preskip := p.ReadChars(2);
    var rate := p.ReadChars(4);
    var gain := p.ReadChars(2);
    var mapping := p.ReadU8();
    var h := OpusHeader(version.value, channels, FromU16(preskip.value), FromU32(rate.value),
                        Signed16(FromU16(gain.value)), mapping.value, 1, if channels > 1 then 1 else 0, [0, 1]);
    if mapping.value != 0 {
      var table := ReadTable(p, channels);
      if table == None {
        return None;
      }
      h := h.(nbStreams := table.value.0, nbCoupled := table.value.1, streamMap := table.value.2);
    } else if channels > 2 {
      return None;
    }
    if (version.value == 0 || version.value == 1) && p.pos != |packet| {
      return None;
    }
    return Some(h);
  }

  // ---------- Writing ----------

  function Low8(v: int): byte { v % 0x100 }
  function Low16(v: int): u16 { v % 0x1_0000 }

  predicate Printable(h: OpusHeader) {
    0 <= h.channels <= 255 && (h.channelMapping != 0 ==> |h.streamMap| >= h.channels)
  }

  function PrintTable(h: OpusHeader): seq<byte>
    requires Printable(h)
  {
    if h.channelMapping == 0 then [] else [Low8(h.nbStreams), Low8(h.nbCoupled)] + h.streamMap[..h.channels]
  }

  /** The first 19 bytes; the version is always 1. */
  function PrintFixed(h: OpusHeader): (p: seq<byte>)
    ensures |p| == 19
  {
    MAGIC + [1] + [Low8(h.channels)] + U16(Low16(h.preskip)) + U32(h.inputSampleRate) + U16(Low16(h.gain))
    + [Low8(h.channelMapping)]
  }

  /** The packet opus_header_to_packet writes. */
  function Print(h: OpusHeader): (p: seq<byte>)
    requires Printable(h)
    ensures |p| >= 19
  {
    PrintFixed(h) + PrintTable(h)
  }

  class Packet {
    const data: array<byte>
    var pos: nat
    ghost var written: seq<byte>

    ghost predicate Valid()
      reads this, data
    {
      pos == |written| <= data.Length && data[..pos] == written
    }

    constructor (data: array<byte>)
      ensures Valid() && this.data == data && written == []
    {
      this.data, pos, written := data, 0, [];
    }

    /** write_chars, write_uint16 and write_uint32 all have this form. */
    method WriteChars(str: seq<byte>) returns (ok: bool)
      requires Valid()
      modifies this, data
      ensures Valid() && ok == (old(pos) + |str| <= data.Length)
      ensures written == if ok then old(written) + str else old(written)
      ensures forall k :: pos <= k < data.Length ==> data[k] == old(data[k])
    {
      if pos > data.Length - |str| {
        return false;
      }
      for i := 0 to |str|
        invariant Valid() && written == old(written) + str[..i]
        invariant forall k :: pos <= k < data.Length ==> data[k] == old(data[k])
      {
        data[pos] := str[i];
        pos := pos + 1;
        written := written + [str[i]];
      }
      return true;
    }
  }

  /** Answers the packet's length, or 0 if the buffer is too small; the bytes behind it stay. */
  method OpusHeaderToPacket(h: OpusHeader, packet: array<byte>) returns (size: nat)
    requires Printable(h)
    modifies packet
    ensures size == if packet.Length >= |Print(h)| then |Print(h)| else 0
    ensures size > 0 ==> packet[..size] == Print(h) && packet[size..] == old(packet[size..])
  {
    if packet.Length < 19 {
      return 0;
    }
    var p := new Packet(packet);
    var ok := WriteFixedPart(p, h);
    if h.channelMapping != 0 {
      ok := WriteTable(p, h);
      if !ok {
        return 0;
      }
    }
    assert p.written == Print(h);
    return p.pos;
  }

  method WriteFixedPart(p: Packet, h: OpusHeader) returns (ok: bool)
    requires p.Valid() && p.written == [] && p.data.Length >= 19
    modifies p, p.data
    ensures p.Valid() && ok
    ensures p.written == PrintFixed(h)
    ensures forall k :: p.pos <= k < p.data.Length ==> p.data[k] == old(p.data[k])
  {
    ok := p.WriteChars(MAGIC);
    assert p.written == MAGIC;
    ok := p.WriteChars([1]);
    ok := p.WriteChars([Low8(h.channels)]);
    ok := p.WriteChars(U16(Low16(h.preskip)));
    ok := p.WriteChars(U32(h.inputSampleRate));
    ok := p.WriteChars(U16(Low16(h.gain)));
    ok := p.WriteChars([Low8(h.channelMapping)]);
  }

  method WriteTable(p: Packet, h: OpusHeader) returns (ok: bool)
    requires p.Valid() && Printable(h) && h.channelMapping != 0
    modifies p, p.data
    ensures p.Valid() && ok == (old(p.pos) + |PrintTable(h)| <= p.data.Length)
    ensures ok ==> p.written == old(p.written) + PrintTable(h)
    ensures forall k :: p.pos <= k < p.data.Length ==> p.data[k] == old(p.data[k])
  {
    ok := p.WriteChars([Low8(h.nbStreams)]);
    if !ok {
      return;
    }
    ok := p.WriteChars([Low8(h.nbCoupled)]);
    if !ok {
      return;
    }
    ghost var head := p.written;
    assert head == old(p.written) + [Low8(h.nbStreams), Low8(h.nbCoupled)];
    for i := 0 to h.channels
      invariant p.Valid() && p.written == head + h.streamMap[..i]
      invariant forall k :: p.pos <= k < p.data.Length ==> p.data[k] == old(p.data[k])
    {
      ok := p.WriteChars([h.streamMap[i]]);
      if !ok {
        return;
      }
    }
    ok := true;
  }

  // ---------- Round trips ----------

  lemma {:induction false} ParseIsAcceptable(p: seq<byte>)
    requires Parse(p).Some?
    ensures Acceptable(Parse(p).value) && Printable(Parse(p).value)
  {
  }

  /** What is accepted, by the bytes: the letters OpusHead; a major version of 0; at least one channel; for
      mapping family 0 at most two; for any other a table with a stream, no more coupled streams than
      streams, 255 of them in all at most, and no index above their sum but 255. Up to version 1 nothing
      may follow. */
  lemma {:induction false} AcceptedIff(p: seq<byte>)
    ensures Parse(p).Some? <==>
            && |p| >= 19
            && (forall i :: 0 <= i < 8 ==> p[i] as int == "OpusHead"[i] as int)
            && p[8] < 16 && p[9] >= 1
            && (if p[18] == 0 then p[9] <= 2 && (p[8] <= 1 ==> |p| == 19)
                else
                  && |p| >= 21 + p[9] as int && (p[8] <= 1 ==> |p| == 21 + p[9] as int)
                  && p[19] >= 1 && p[20] <= p[19] && p[19] as int + p[20] as int <= 255
                  && forall i :: 21 <= i < 21 + p[9] as int ==>
                       p[i] as int <= p[19] as int + p[20] as int || p[i] == 255)
  {
    if |p| >= 19 {
      MagicIff(p);
      if p[18] != 0 { TableIff(p, p[9]); }
    }
  }

  lemma {:induction false} MagicIff(p: seq<byte>)
    requires |p| >= 8
    ensures p[..8] == MAGIC <==> forall i :: 0 <= i < 8 ==> p[i] as int == "OpusHead"[i] as int
  {
    assert forall i :: 0 <= i < 8 ==> MAGIC[i] as int == "OpusHead"[i] as int;
    assert forall i :: 0 <= i < 8 ==> p[..8][i] == p[i];
  }

  lemma {:induction false} TableIff(p: seq<byte>, channels: byte)
    requires |p| >= 19
    ensures ParseTable(p[19..], channels).Some? <==>
            && |p| >= 21 + channels
            && p[19] >= 1 && p[20] <= p[19] && p[19] as int + p[20] as int <= 255
            && forall i :: 21 <= i < 21 + channels ==> p[i] as int <= p[19] as int + p[20] as int || p[i] == 255
  {
    var t := p[19..];
    if |p| >= 21 + channels {
      assert t[0] == p[19] && t[1] == p[20];
      var entries := t[2..2 + channels];
      forall i | 0 <= i < channels ensures entries[i] == p[i + 21] {}
      assert forall i :: 21 <= i < 21 + channels ==> p[i] == entries[i - 21];
    }
  }

  /** Section 5.1.1 of RFC 7845: an index is below the number of decoded channels, or 255. */
  predicate MapConforms(h: OpusHeader) {
    forall i :: 0 <= i < |h.streamMap| ==> h.streamMap[i] < h.nbStreams + h.nbCoupled || h.streamMap[i] == 255
  }

  /** The code's test lets exactly one index more through: the number of decoded channels itself. */
  lemma {:induction false} AcceptedConformsIff(p: seq<byte>)
    requires Parse(p).Some? && Parse(p).value.channelMapping != 0
    ensures var h := Parse(p).value;
            MapConforms(h) <==>
            forall i :: 0 <= i < |h.streamMap| ==> h.streamMap[i] == 255 || h.streamMap[i] != h.nbStreams + h.nbCoupled
  {
    ParseIsAcceptable(p);
  }

  /** One channel, one stream, and index 1 where only 0 and 255 are valid. */
  lemma {:induction false} AcceptsOneIndexTooMany()
    ensures var p := MAGIC + [1, 1, 0, 0, 0, 0, 0, 0, 0, 0, 1] + [1, 0, 1];
            Parse(p).Some? && Parse(p).value.channelMapping != 0 && !MapConforms(Parse(p).value)
  {
    var p: seq<byte> := MAGIC + [1, 1, 0, 0, 0, 0, 0, 0, 0, 0, 1] + [1, 0, 1];
    assert p[..8] == MAGIC;
    var t: seq<byte> := [1, 0, 1];
    assert p[19..] == t;
    assert ParseTable(t, 1) == Some((1, 0, t[2..3]));
    assert t[2..3][0] == 1;
  }

  lemma {:induction false} TableRoundTrip(h: OpusHeader)
    requires Acceptable(h) && h.channelMapping != 0
    ensures ParseTable(PrintTable(h), h.channels) == Some((h.nbStreams, h.nbCoupled, h.streamMap))
    ensures |PrintTable(h)| == 2 + h.channels
  {
    var t := PrintTable(h);
    assert t[2..2 + h.channels] == h.streamMap;
  }

  lemma {:induction false} PrintFields(h: OpusHeader)
    requires Printable(h)
    ensures var p := Print(h);
            && p[..8] == MAGIC && p[8] == 1 && p[9] == Low8(h.channels) && p[10..12] == U16(Low16(h.preskip))
            && p[12..16] == U32(h.inputSampleRate) && p[16..18] == U16(Low16(h.gain)) && p[18] == Low8(h.channelMapping)
            && p[19..] == PrintTable(h)
  {
  }

  /** Parsing what was printed from any acceptable header gives the header with version 1. */
  lemma {:induction false} ParsePrinted(h: OpusHeader)
    requires Acceptable(h)
    ensures Parse(Print(h)) == Some(h.(version := 1))
  {
    PrintFields(h);
    U16RoundTrip(Low16(h.preskip), [0, 0]);
    U16RoundTrip(Low16(h.gain), [0, 0]);
    U32RoundTrip(h.inputSampleRate, [0, 0, 0, 0]);
    if h.channelMapping != 0 {
      TableRoundTrip(h);
    }
  }

  lemma {:induction false} ParsedFields(p: seq<byte>)
    requires Parse(p).Some?
    ensures var h := Parse(p).value;
            && |p| >= 19 && p[..8] == MAGIC && h.channels == p[9] && h.channelMapping == p[18]
            && h.preskip == FromU16(p[10..12]) && h.inputSampleRate == FromU32(p[12..16])
            && h.gain == Signed16(FromU16(p[16..18])) && Printable(h)
  {
  }

  lemma {:induction false} ParsedTable(p: seq<byte>)
    requires Parse(p).Some?
    ensures var h := Parse(p).value;
            && Printable(h)
            && var n := 19 + |PrintTable(h)|;
               n <= |p| && p[19..n] == PrintTable(h) && (p[8] <= 1 ==> n == |p|)
  {
    var h := Parse(p).value;
    if h.channelMapping != 0 {
      var t := p[19..];
      TableBytes(t, h.channels);
      assert p[19..21 + h.channels] == t[..2 + h.channels];
    }
  }

  lemma {:induction false} TableBytes(t: seq<byte>, channels: nat)
    requires ParseTable(t, channels).Some?
    ensures var r := ParseTable(t, channels).value;
            && |r.2| == channels && |t| >= 2 + channels
            && [Low8(r.0), Low8(r.1)] + r.2[..channels] == t[..2 + channels]
  {
  }

  /** The three fields of more than one byte print as they were. */
  lemma {:induction false} ParsedNumbers(p: seq<byte>)
    requires Parse(p).Some?
    ensures var h := Parse(p).value;
            && |p| >= 19 && U16(Low16(h.preskip)) == p[10..12] && U32(h.inputSampleRate) == p[12..16]
            && U16(Low16(h.gain)) == p[16..18]
  {
    ParsedFields(p);
    U16RoundTrip(0, p[10..12]);
    U16RoundTrip(0, p[16..18]);
    U32RoundTrip(0, p[12..16]);
    assert Low16(Signed16(FromU16(p[16..18]))) == FromU16(p[16..18]);
  }

  /** Printing what was parsed gives the accepted packet back, except that the version byte becomes 1
      and, for the versions that may have them, bytes behind the known fields are dropped. */
  lemma {:induction false} PrintParsed(p: seq<byte>)
    requires Parse(p).Some?
    ensures Printable(Parse(p).value)
    ensures var q := Print(Parse(p).value);
            |q| <= |p| && q == p[..|q|][8 := 1] && (p[8] <= 1 ==> |q| == |p|)
  {
    ParsedFields(p);
    ParsedTable(p);
    ParsedNumbers(p);
    PrintFields(Parse(p).value);
    var q := Print(Parse(p).value);
    AsPrinted(p, q);
  }

  lemma {:induction false} AsPrinted(p: seq<byte>, q: seq<byte>)
    requires 19 <= |q| <= |p|
    requires q[..8] == p[..8] && q[8] == 1 && q[9] == p[9] && q[10..12] == p[10..12] && q[12..16] == p[12..16]
    requires q[16..18] == p[16..18] && q[18] == p[18] && q[19..] == p[19..|q|]
    ensures q == p[..|q|][8 := 1]
  {
    var r := p[..|q|][8 := 1];
    assert r[19..] == p[19..|q|];
    SameBytes(q, r);
  }

  lemma {:induction false} SameBytes(q: seq<byte>, r: seq<byte>)
    requires |q| == |r| >= 19
    requires q[..8] == r[..8] && q[8] == r[8] && q[9] == r[9] && q[10..12] == r[10..12] && q[12..16] == r[12..16]
    requires q[16..18] == r[16..18] && q[18] == r[18] && q[19..] == r[19..]
    ensures q == r
  {
    assert forall s: seq<byte> :: |s| >= 19 ==>
      s == s[..8] + [s[8], s[9]] + s[10..12] + s[12..16] + s[16..18] + [s[18]] + s[19..];
  }

  /** So an accepted packet is reproduced byte for byte exactly when its version byte is 1. */
  lemma {:induction false} ReprintedIff(p: seq<byte>)
    requires Parse(p).Some?
    ensures Printable(Parse(p).value)
    ensures Print(Parse(p).value) == p <==> p[8] == 1
  {
    PrintParsed(p);
    var q := Print(Parse(p).value);
    if p[8] == 1 {
      assert p[..|q|] == p && p[8 := 1] == p;
    }
  }
}
