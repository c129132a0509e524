/** The OpusTags packet: comment_init, comment_add and comment_pad (OggOpusFile.cpp), against an
    independent reader that follows section 5.2 of RFC 7845. */
module OpusComments {
  import opened AudioChunks
  import opened ByteOrder

  /** What a char pointer names: the bytes before the terminating NUL. */
  type CText = s: seq<byte> | 0 !in s witness []

  const MAGIC: seq<byte> := [79, 112, 117, 115, 84, 97, 103, 115] // "OpusTags"
  const EQUALS: byte := 61
  const INT_MAX := 0x7FFF_FFFF

  // ---------- The block as a value ----------

  function EntryBytes(e: seq<byte>): seq<byte>
    requires |e| <= INT_MAX
  {
    U32(|e|) + e
  }

  predicate Short(entries: seq<seq<byte>>) {
    forall i :: 0 <= i < |entries| ==> |entries[i]| <= INT_MAX
  }

  function EntriesBytes(entries: seq<seq<byte>>): seq<byte>
    requires Short(entries)
  {
    if entries == [] then []
    else EntriesBytes(entries[..|entries| - 1]) + EntryBytes(entries[|entries| - 1])
  }

  /** A block with a vendor string and a list of comments. */
  function Block(vendor: seq<byte>, entries: seq<seq<byte>>): seq<byte>
    requires |vendor| <= INT_MAX && |entries| <= INT_MAX && Short(entries)
  {
    MAGIC + U32(|vendor|) + vendor + U32(|entries|) + EntriesBytes(entries)
  }

  /** comment_add's entry: tag=value, or the value alone. */
  function Entry(tag: Option<CText>, val: CText): seq<byte> {
    (if tag.Some? then tag.value + [EQUALS] else []) + val
  }

  lemma {:induction false} Slices(a: seq<byte>, b: seq<byte>, c: seq<byte>)
    ensures var s := a + b + c;
            s[..|a|] == a && s[|a|..|a| + |b|] == b && s[|a| + |b|..] == c && s == a + (b + c)
  {
  }

  lemma {:induction false} SliceStays(b: seq<byte>, rest: seq<byte>, i: nat, j: nat)
    requires i <= j <= |b|
    ensures (b + rest)[i..j] == b[i..j] && (b + rest)[j..] == b[j..] + rest
  {
  }

  /** The length comment_pad brings a block to. */
  function PaddedLength(length: nat, amount: int): int {
    (length + amount + 255) / 255 * 255 - 1
  }

  // ---------- The writer ----------

  class Comments {
    var comments: seq<byte>

    constructor ()
      ensures comments == []
    {
      comments := [];
    }

    method ReadInt(base: nat) returns (v: u32)
      requires base + 4 <= |comments|
      ensures v == FromU32(comments[base..base + 4])
    {
      var b := comments;
      v := FromU32([b[base], b[base + 1], b[base + 2], b[base + 3]]);
      assert [b[base], b[base + 1], b[base + 2], b[base + 3]] == b[base..base + 4];
    }

    method WriteInt(base: nat, val: u32)
      requires base + 4 <= |comments|
      modifies this
      ensures comments == old(comments)[..base] + U32(val) + old(comments)[base + 4..]
    {
      var b := U32(val);
      comments := comments[base + 3 := b[3]];
      comments := comments[base + 2 := b[2]];
      comments := comments[base + 1 := b[1]];
      comments := comments[base := b[0]];
      assert b == [b[0], b[1], b[2], b[3]];
    }

    method CommentInit(vendor: CText)
      requires |vendor| <= INT_MAX - 16
      modifies this
      ensures comments == Block(vendor, [])
    {
      var vendorLength := |vendor|;
      comments := MAGIC + [0, 0, 0, 0] + vendor + [0, 0, 0, 0];
      WriteInt(8, vendorLength);
      ghost var c := comments;
      assert c == MAGIC + U32(vendorLength) + vendor + [0, 0, 0, 0];
      WriteInt(12 + vendorLength, 0);
      assert c[..12 + vendorLength] == MAGIC + U32(vendorLength) + vendor;
      assert comments == Block(vendor, []);
    }

    /** The part of comment_add that grows the block: the entry behind its length. */
    method AppendEntry(tag: Option<CText>, val: CText)
      requires |Entry(tag, val)| <= INT_MAX
      modifies this
      ensures comments == old(comments) + EntryBytes(Entry(tag, val))
    {
      var tagLen := if tag.Some? then |tag.value| + 1 else 0;
      var valLen := |val|;
      var length := |comments|;
      comments := comments + [0, 0, 0, 0];
      WriteInt(length, tagLen + valLen);
      assert comments == old(comments) + U32(tagLen + valLen);
      if tag.Some? {
        comments := comments + tag.value + [EQUALS];
      }
      comments := comments + val;
    }

    /** The block keeps its vendor and its comments and gains one; as an int its length must not
        overflow. */
    method CommentAdd(tag: Option<CText>, val: CText, ghost vendor: seq<byte>, ghost entries: seq<seq<byte>>)
      requires |vendor| <= INT_MAX && |entries| < INT_MAX && Short(entries) && comments == Block(vendor, entries)
      requires |comments| + 4 + |Entry(tag, val)| <= INT_MAX
      modifies this
      ensures Short(entries + [Entry(tag, val)]) && comments == Block(vendor, entries + [Entry(tag, val)])
    {
      BlockFields(vendor, entries);
      var vendorLength := ReadInt(8);
      var userCommentListLength := ReadInt(8 + 4 + vendorLength);
      AppendEntry(tag, val);
      BlockGrows(vendor, entries, Entry(tag, val));
      WriteInt(8 + 4 + vendorLength, userCommentListLength + 1);
    }

    method CommentPad(amount: int)
      requires |comments| + amount + 255 <= INT_MAX
      modifies this
      ensures amount <= 0 ==> comments == old(comments)
      ensures amount > 0 ==>
                var n := PaddedLength(|old(comments)|, amount) - |old(comments)|;
                n >= 0 && comments == old(comments) + Zeros(n)
    {
      if amount > 0 {
        PaddedLengthFits(|comments|, amount);
        var length := |comments|;
        var newlen := (length + amount + 255) / 255 * 255 - 1;
        var i := length;
        while i < newlen
          invariant length <= i <= newlen
          invariant comments == old(comments) + Zeros(i - length)
        {
          comments := comments + [0];
          i := i + 1;
        }
      }
    }
  }

  /** Padding rounds up to the last length that fits the Ogg segments: 254 modulo 255, and at least
      the requested amount more. */
  lemma {:induction false} PaddedLengthFits(length: nat, amount: int)
    requires amount > 0
    ensures PaddedLength(length, amount) % 255 == 254
    ensures length + amount <= PaddedLength(length, amount) < length + amount + 255
  {
    var q := (length + amount + 255) / 255;
    assert PaddedLength(length, amount) == (q - 1) * 255 + 254;
  }

  /** Where the two counters of a block are. */
  lemma {:induction false} BlockFields(vendor: seq<byte>, entries: seq<seq<byte>>)
    requires |vendor| <= INT_MAX && |entries| <= INT_MAX && Short(entries)
    ensures var b := Block(vendor, entries);
            var n := |vendor|;
            && |b| >= 16 + n && b[..8] == MAGIC && b[8..12] == U32(n) && FromU32(b[8..12]) == n
            && b[12..12 + n] == vendor
            && b[12 + n..16 + n] == U32(|entries|) && FromU32(b[12 + n..16 + n]) == |entries|
            && b[16 + n..] == EntriesBytes(entries)
  {
    var b := Block(vendor, entries);
    var n := |vendor|;
    U32RoundTrip(n, [0, 0, 0, 0]);
    U32RoundTrip(|entries|, [0, 0, 0, 0]);
    var front := MAGIC + U32(n) + vendor;
    assert b == front + (U32(|entries|) + EntriesBytes(entries));
    assert b[..12 + n] == front && front[8..12] == U32(n) && front[12..] == vendor;
  }

  lemma {:induction false} BlockGrows(vendor: seq<byte>, entries: seq<seq<byte>>, e: seq<byte>)
    requires |vendor| <= INT_MAX && |entries| < INT_MAX && Short(entries) && |e| <= INT_MAX
    ensures Short(entries + [e])
    ensures var b := Block(vendor, entries) + EntryBytes(e);
            var at := 12 + |vendor|;
            b[..at] + U32(|entries| + 1) + b[at + 4..] == Block(vendor, entries + [e])
  {
    var more := entries + [e];
    assert more[..|more| - 1] == entries;
    BlockFields(vendor, entries);
    var b := Block(vendor, entries) + EntryBytes(e);
    var at := 12 + |vendor|;
    assert b[at + 4..] == EntriesBytes(entries) + EntryBytes(e);
    assert b[..at] == MAGIC + U32(|vendor|) + vendor;
  }

  /** The bytes of a text of characters below 128. */
  predicate IsAscii(b: seq<byte>, text: string) {
    |b| == |text| && forall i :: 0 <= i < |b| ==> b[i] as int == text[i] as int
  }

  /** A block begins with the letters OpusTags, and a tagged entry has an equals sign behind its tag. */
  lemma {:induction false} BlockBegins(vendor: seq<byte>, entries: seq<seq<byte>>, tag: CText, val: CText)
    requires |vendor| <= INT_MAX && |entries| <= INT_MAX && Short(entries)
    ensures IsAscii(Block(vendor, entries)[..8], "OpusTags")
    ensures Entry(Some(tag), val)[..|tag|] == tag && Entry(Some(tag), val)[|tag| + 1..] == val
    ensures Entry(Some(tag), val)[|tag|] as int == '=' as int && Entry(None, val) == val
  {
    BlockFields(vendor, entries);
  }

  // ---------- The reader ----------

  /** n length-prefixed comments, and what follows them. */
  function ReadEntries(b: seq<byte>, n: nat): Option<(seq<seq<byte>>, seq<byte>)> {
    if n == 0 then Some(([], b))
    else if |b| < 4 then None
    else
      var len := FromU32(b[..4]);
      if |b| < 4 + len then None
      else
        match ReadEntries(b[4 + len..], n - 1)
        case None => None
        case Some((es, rest)) => Some(([b[4..4 + len]] + es, rest))
  }

  datatype Tags = Tags(vendor: seq<byte>, entries: seq<seq<byte>>, rest: seq<byte>)

  function Decode(b: seq<byte>): Option<Tags> {
    if |b| < 16 || b[..8] != MAGIC then None
    else
      var n := FromU32(b[8..12]);
      if |b| < 16 + n then None
      else
        match ReadEntries(b[16 + n..], FromU32(b[12 + n..16 + n]))
        case None => None
        case Some((es, rest)) => Some(Tags(b[12..12 + n], es, rest))
  }

  lemma {:induction false} EntriesBytesFront(entries: seq<seq<byte>>)
    requires Short(entries) && entries != []
    ensures EntriesBytes(entries) == EntryBytes(entries[0]) + EntriesBytes(entries[1..])
    decreases |entries|
  {
    var n := |entries| - 1;
    if n == 0 {
      assert entries[..0] == [];
      assert [] + EntryBytes(entries[0]) == EntryBytes(entries[0]) + [];
    } else {
      var middle := entries[1..n];
      EntriesBytesFront(entries[..n]);
      assert entries[..n][1..] == middle && entries[1..][..n - 1] == middle;
      Slices(EntryBytes(entries[0]), EntriesBytes(middle), EntryBytes(entries[n]));
    }
  }

  lemma {:induction false} EntriesReadBack(entries: seq<seq<byte>>, rest: seq<byte>)
    requires Short(entries)
    ensures ReadEntries(EntriesBytes(entries) + rest, |entries|) == Some((entries, rest))
    decreases |entries|
  {
    if entries == [] {
      assert [] + rest == rest;
    } else {
      var e, tail := entries[0], EntriesBytes(entries[1..]) + rest;
      EntriesBytesFront(entries);
      var b := EntriesBytes(entries) + rest;
      Slices(EntryBytes(e), EntriesBytes(entries[1..]), rest);
      assert b == U32(|e|) + e + tail;
      Slices(U32(|e|), e, tail);
      U32RoundTrip(|e|, [0, 0, 0, 0]);
      EntriesReadBack(entries[1..], rest);
      assert [e] + entries[1..] == entries;
    }
  }

  /** The reader gets back the vendor, every comment in order, and whatever follows the block. */
  lemma {:induction false} BlockReadsBack(vendor: seq<byte>, entries: seq<seq<byte>>, rest: seq<byte>)
    requires |vendor| <= INT_MAX && |entries| <= INT_MAX && Short(entries)
    ensures Decode(Block(vendor, entries) + rest) == Some(Tags(vendor, entries, rest))
  {
    BlockFields(vendor, entries);
    var b, n := Block(vendor, entries), |vendor|;
    var s := b + rest;
    SliceStays(b, rest, 0, 8);
    SliceStays(b, rest, 8, 12);
    SliceStays(b, rest, 12, 12 + n);
    SliceStays(b, rest, 12 + n, 16 + n);
    EntriesReadBack(entries, rest);
  }

  datatype Comment = Comment(tag: Option<CText>, val: CText)

  function EntriesOf(added: seq<Comment>): (r: seq<seq<byte>>)
    ensures |r| == |added| && forall i :: 0 <= i < |r| ==> r[i] == Entry(added[i].tag, added[i].val)
  {
    seq(|added|, i requires 0 <= i < |added| => Entry(added[i].tag, added[i].val))
  }

  predicate BlockFitsInt(vendor: CText, added: seq<Comment>) {
    && |vendor| <= INT_MAX - 16 && |added| <= INT_MAX && Short(EntriesOf(added))
    && |Block(vendor, EntriesOf(added))| <= INT_MAX
  }

  lemma {:induction false} BlockMonotone(vendor: CText, added: seq<Comment>, k: nat)
    requires BlockFitsInt(vendor, added) && k < |added|
    ensures BlockFitsInt(vendor, added[..k])
    ensures |Block(vendor, EntriesOf(added[..k]))| + 4 + |Entry(added[k].tag, added[k].val)| <= INT_MAX
    decreases |added|
  {
    var n := |added| - 1;
    assert EntriesOf(added)[..n] == EntriesOf(added[..n]);
    if k < n {
      BlockMonotone(vendor, added[..n], k);
      assert added[..n][..k] == added[..k];
    }
  }

  lemma {:induction false} PaddedReadsBack(vendor: seq<byte>, entries: seq<seq<byte>>, amount: nat, packet: seq<byte>)
    requires |vendor| <= INT_MAX && |entries| <= INT_MAX && Short(entries) && amount > 0
    requires var length := |Block(vendor, entries)|;
             var n := PaddedLength(length, amount) - length;
             n >= 0 && packet == Block(vendor, entries) + Zeros(n)
    ensures var length := |Block(vendor, entries)|;
            && |packet| % 255 == 254 && length + amount <= |packet| < length + amount + 255
            && Decode(packet) == Some(Tags(vendor, entries, Zeros(|packet| - length)))
  {
    var length := |Block(vendor, entries)|;
    PaddedLengthFits(length, amount);
    assert |packet| == PaddedLength(length, amount);
    BlockReadsBack(vendor, entries, Zeros(|packet| - length));
  }

  method AddAll(vendor: CText, added: seq<Comment>) returns (c: Comments)
    requires BlockFitsInt(vendor, added)
    ensures fresh(c) && c.comments == Block(vendor, EntriesOf(added))
  {
    c := new Comments();
    c.CommentInit(vendor);
    for i := 0 to |added|
      invariant fresh(c) && BlockFitsInt(vendor, added[..i]) && c.comments == Block(vendor, EntriesOf(added[..i]))
    {
      BlockMonotone(vendor, added, i);
      c.CommentAdd(added[i].tag, added[i].val, vendor, EntriesOf(added[..i]));
      OneMore(vendor, added, i, i + 1);
    }
    assert added[..|added|] == added;
  }

  lemma {:induction false} OneMore(vendor: CText, added: seq<Comment>, i: nat, j: nat)
    requires BlockFitsInt(vendor, added) && i < |added| && j == i + 1
    ensures EntriesOf(added[..j]) == EntriesOf(added[..i]) + [Entry(added[i].tag, added[i].val)]
    ensures BlockFitsInt(vendor, added[..j])
  {
    if j < |added| {
      BlockMonotone(vendor, added, j);
    } else {
      assert added[..j] == added;
    }
  }

  /** comment_init, any number of comment_add calls and one comment_pad: the packet reads back as the
      vendor string and the comments in the order added, followed by nothing but zeros, and its length
      is 254 modulo 255 and at least `amount` more than before the padding. */
  method WriteTags(vendor: CText, added: seq<Comment>, amount: nat) returns (packet: seq<byte>)
    requires BlockFitsInt(vendor, added) && |Block(vendor, EntriesOf(added))| + amount + 255 <= INT_MAX && amount > 0
    ensures var length := |Block(vendor, EntriesOf(added))|;
            && |packet| % 255 == 254 && length + amount <= |packet| < length + amount + 255
            && Decode(packet) == Some(Tags(vendor, EntriesOf(added), Zeros(|packet| - length)))
  {
    var c := AddAll(vendor, added);
    c.CommentPad(amount);
    packet := c.comments;
    PaddedReadsBack(vendor, EntriesOf(added), amount, packet);
  }
}
