/** Little-endian integers and zero bytes, as the binary formats use them. */
module ByteOrder {
  import opened AudioChunks

  function Zeros(n: nat): (z: seq<byte>)
    ensures |z| == n && forall i :: 0 <= i < n ==> z[i] == 0
  {
    seq(n, _ => 0)
  }

  function U16(v: u16): (b: seq<byte>)
    ensures |b| == 2
  {
    [v % 0x100, v / 0x100]
  }

  function U32(v: u32): (b: seq<byte>)
    ensures |b| == 4
  {
    U16(v % 0x1_0000) + U16(v / 0x1_0000)
  }

  function FromU16(b: seq<byte>): u16
    requires |b| == 2
  {
    b[0] as int + 0x100 * b[1] as int
  }

  function FromU32(b: seq<byte>): u32
    requires |b| == 4
  {
    FromU16(b[..2]) as int + 0x1_0000 * FromU16(b[2..]) as int
  }

  lemma {:induction false} U16RoundTrip(v: u16, b: seq<byte>)
    requires |b| == 2
    ensures FromU16(U16(v)) == v && U16(FromU16(b)) == b
  {
    assert b == [b[0], b[1]];
  }

  lemma {:induction false} U32RoundTrip(v: u32, b: seq<byte>)
    requires |b| == 4
    ensures FromU32(U32(v)) == v && U32(FromU32(b)) == b
  {
    U16RoundTrip(v % 0x1_0000, b[..2]);
    U16RoundTrip(v / 0x1_0000, b[2..]);
    assert U32(v)[..2] == U16(v % 0x1_0000) && U32(v)[2..] == U16(v / 0x1_0000);
    var lo, hi := FromU16(b[..2]), FromU16(b[2..]);
    assert FromU32(b) % 0x1_0000 == lo && FromU32(b) / 0x1_0000 == hi;
    assert b[..2] + b[2..] == b;
  }

  /** The least significant byte comes first, in both directions. */
  lemma {:induction false} LittleEndian16(v: u16, b: seq<byte>)
    requires |b| == 2
    ensures U16(v)[0] == v % 0x100 && U16(v)[1] == v / 0x100
    ensures FromU16(b) as int == b[0] as int + b[1] as int * 0x100
  {
  }

  lemma {:induction false} LittleEndian32(v: u32, b: seq<byte>)
    requires |b| == 4
    ensures var r := U32(v);
            v == r[0] as int + r[1] as int * 0x100 + r[2] as int * 0x1_0000 + r[3] as int * 0x100_0000
    ensures FromU32(b) as int
         == b[0] as int + b[1] as int * 0x100 + b[2] as int * 0x1_0000 + b[3] as int * 0x100_0000
  {
    LittleEndian16(v % 0x1_0000, b[..2]);
    LittleEndian16(v / 0x1_0000, b[2..]);
  }
}
