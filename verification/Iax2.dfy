/** Information elements of IAX2 packets, parsed in place (Iax2Parsers.cpp; section 8.6 of RFC 5456). */
module Iax2 {
  import opened AudioChunks
  import opened Tilings

  const CALLED_NUMBER: byte := 1
  const CALLING_NUMBER: byte := 2
  const CALLING_NAME: byte := 4
  const USERNAME: byte := 6
  const FORMAT: byte := 9
  const AUTHMETHODS: byte := 14
  const CHALLENGE: byte := 15

  /** Network byte order. */
  function FromBig16(b: seq<byte>): u16
    requires |b| == 2
  {
    0x100 * b[0] as int + b[1] as int
  }

  function FromBig32(b: seq<byte>): u32
    requires |b| == 4
  {
    0x1_0000 * FromBig16(b[..2]) as int + FromBig16(b[2..]) as int
  }

  type Payload = p: seq<byte> | |p| < 0x100

  datatype Element = Element(kind: byte, payload: Payload)

  function ElementBytes(e: Element): seq<byte> {
    [e.kind, |e.payload|] + e.payload
  }

  function TakeElement(d: seq<byte>): Option<Element> {
    if |d| < 2 || d[1] > |d| - 2 then None else Some(Element(d[0], d[2..2 + d[1]]))
  }

  const IES: Codec<Element> := Codec(ElementBytes, TakeElement)

  lemma {:induction false} IesLawful()
    ensures Lawful(IES)
  {
    forall e: Element, rest: seq<byte> ensures IES.take(IES.bytes(e) + rest) == Some(e) {
      assert (ElementBytes(e) + rest)[2..2 + |e.payload|] == e.payload;
    }
    forall d: seq<byte> | IES.take(d).Some? ensures IES.bytes(IES.take(d).value) <= d {
      assert d[..2 + d[1]] == [d[0], d[1]] + d[2..2 + d[1]];
    }
  }

  /** struct iax2_ies; a pointer is held as an offset from the start of the data. */
  datatype Ies = Ies(
    caller: Option<nat>,
    callee: Option<nat>,
    format: u32,
    username: Option<nat>,
    authmethods: u32,
    challenge: Option<nat>,
    callingName: Option<nat>)

  /** Payload of the last element of a kind. */
  function Last(es: seq<Element>, kind: byte): Option<Payload> {
    if es == [] then None
    else
      var n := |es| - 1;
      if es[n].kind == kind then Some(es[n].payload) else Last(es[..n], kind)
  }

  lemma {:induction false} LastIs(es: seq<Element>, kind: byte)
    ensures match Last(es, kind)
            case None => forall i :: 0 <= i < |es| ==> es[i].kind != kind
            case Some(p) => exists i :: 0 <= i < |es| && es[i] == Element(kind, p)
                                        && forall j :: i < j < |es| ==> es[j].kind != kind
  {
    if es != [] {
      var n := |es| - 1;
      if es[n].kind == kind {
        assert es[n] == Element(kind, es[n].payload);
      } else {
        LastIs(es[..n], kind);
        if Last(es[..n], kind).Some? {
          var i :| 0 <= i < n && es[..n][i] == Element(kind, Last(es[..n], kind).value)
                   && forall j :: i < j < n ==> es[..n][j].kind != kind;
          assert es[i] == es[..n][i];
          assert forall j :: i < j < n ==> es[j] == es[..n][j];
        }
      }
    }
  }

  /** Where that payload starts. */
  function LastAt(es: seq<Element>, kind: byte): Option<nat> {
    if es == [] then None
    else
      var n := |es| - 1;
      if es[n].kind == kind then Some(|Layout(IES, es[..n])| + 2) else LastAt(es[..n], kind)
  }

  /** A number is taken from four bytes; any other length, or no element, gives 0. */
  function Number(payload: Option<Payload>): u32 {
    if payload.Some? && |payload.value| == 4 then FromBig32(payload.value) else 0
  }

  function Found(es: seq<Element>): Ies {
    Ies(LastAt(es, CALLING_NUMBER), LastAt(es, CALLED_NUMBER), Number(Last(es, FORMAT)), LastAt(es, USERNAME),
        Number(Last(es, AUTHMETHODS)), LastAt(es, CHALLENGE), LastAt(es, CALLING_NAME))
  }

  lemma {:induction false} LastSnoc(es: seq<Element>, e: Element, kind: byte)
    ensures Last(es + [e], kind) == if e.kind == kind then Some(e.payload) else Last(es, kind)
    ensures LastAt(es + [e], kind) == if e.kind == kind then Some(|Layout(IES, es)| + 2) else LastAt(es, kind)
  {
    assert (es + [e])[..|es|] == es;
  }

  /** The elements with their type bytes overwritten by NUL. */
  function Erased(es: seq<Element>): (r: seq<Element>)
    ensures |r| == |es|
  {
    seq(|es|, i requires 0 <= i < |es| => Element(0, es[i].payload))
  }

  lemma {:induction false} ErasedSnoc(es: seq<Element>, e: Element)
    ensures Layout(IES, Erased(es + [e])) == Layout(IES, Erased(es)) + ElementBytes(Element(0, e.payload))
  {
    assert Erased(es + [e]) == Erased(es) + [Element(0, e.payload)];
    LayoutSnoc(IES, Erased(es), Element(0, e.payload));
  }

  /** The C string a pointer to the front of d denotes. */
  function UpToNul(d: seq<byte>): (r: seq<byte>)
    ensures 0 !in r && r <= d && (r == d || d[|r|] == 0)
  {
    if d == [] || d[0] == 0 then [] else [d[0]] + UpToNul(d[1..])
  }

  lemma {:induction false} UpToNulInFront(a: seq<byte>, b: seq<byte>)
    requires b != [] && b[0] == 0
    ensures UpToNul(a + b) == UpToNul(a)
  {
    if a == [] {
      assert a + b == b;
    } else {
      assert (a + b)[1..] == a[1..] + b;
      UpToNulInFront(a[1..], b);
    }
  }

  /** p points into d at a NUL-terminated string that is v cut at its first NUL; no p when there is no v. */
  predicate Spells(d: seq<byte>, p: Option<nat>, v: Option<Payload>) {
    && p.Some? == v.Some?
    && (p.Some? ==> p.value < |d| && 0 in d[p.value..] && UpToNul(d[p.value..]) == UpToNul(v.value))
  }

  /** Overwriting each element's type byte ends the payload before it, so every pointer spells the
      payload it was taken for. */
  lemma {:induction false} PointersSpell(es: seq<Element>, kind: byte, tail: seq<byte>)
    requires tail != [] && tail[0] == 0
    ensures |Layout(IES, Erased(es))| == |Layout(IES, es)|
    ensures Spells(Layout(IES, Erased(es)) + tail, LastAt(es, kind), Last(es, kind))
  {
    if es == [] {
      assert Erased(es) == [];
    } else {
      var front, e := es[..|es| - 1], es[|es| - 1];
      PointersSpell(front, kind, ElementBytes(Element(0, e.payload)) + tail);
      SpellsSnoc(front, e, kind, tail);
      assert es == front + [e];
    }
  }

  lemma {:induction false} SpellsSnoc(front: seq<Element>, e: Element, kind: byte, tail: seq<byte>)
    requires tail != [] && tail[0] == 0
    requires |Layout(IES, Erased(front))| == |Layout(IES, front)|
    requires Spells(Layout(IES, Erased(front)) + (ElementBytes(Element(0, e.payload)) + tail),
                    LastAt(front, kind), Last(front, kind))
    ensures var es := front + [e];
            && |Layout(IES, Erased(es))| == |Layout(IES, es)|
            && Spells(Layout(IES, Erased(es)) + tail, LastAt(es, kind), Last(es, kind))
  {
    var head, erased := Layout(IES, Erased(front)), ElementBytes(Element(0, e.payload));
    ErasedSnoc(front, e);
    LayoutSnoc(IES, front, e);
    LastSnoc(front, e, kind);
    assert head + (erased + tail) == (head + erased) + tail;
    if e.kind == kind {
      LatestSpells(head, e.payload, tail);
    }
  }

  lemma {:induction false} LatestSpells(head: seq<byte>, payload: Payload, tail: seq<byte>)
    requires tail != [] && tail[0] == 0
    ensures Spells((head + ElementBytes(Element(0, payload))) + tail, Some(|head| + 2), Some(payload))
  {
    var d := (head + ElementBytes(Element(0, payload))) + tail;
    assert d[|head| + 2..] == payload + tail;
    assert (payload + tail)[|payload|] == 0;
    UpToNulInFront(payload, tail);
  }

  /** Four bytes as a number, the most significant first. */
  function BigEndian(a: byte, b: byte, c: byte, d: byte): int {
    a as int * 0x100_0000 + b as int * 0x1_0000 + c as int * 0x100 + d as int
  }

  /** v is the number four bytes make; it is 0 if there are not four of them. */
  predicate Says(v: int, p: Option<Payload>) {
    if p.Some? && |p.value| == 4 then v == BigEndian(p.value[0], p.value[1], p.value[2], p.value[3]) else v == 0
  }

  /** Every field tells the last element of its kind, by the kinds' numbers in section 8.6 of RFC 5456; d
      is the data after parsing. */
  predicate Tells(d: seq<byte>, ies: Ies, es: seq<Element>) {
    && Spells(d, ies.callee, Last(es, 1))
    && Spells(d, ies.caller, Last(es, 2))
    && Spells(d, ies.callingName, Last(es, 4))
    && Spells(d, ies.username, Last(es, 6))
    && Says(ies.format, Last(es, 9))
    && Says(ies.authmethods, Last(es, 14))
    && Spells(d, ies.challenge, Last(es, 15))
  }

  lemma {:induction false} NumberSays(p: Option<Payload>)
    ensures Says(Number(p), p)
  {
    if p.Some? && |p.value| == 4 {
      assert FromBig16(p.value[..2]) == 0x100 * p.value[0] as int + p.value[1] as int;
      assert FromBig16(p.value[2..]) == 0x100 * p.value[2] as int + p.value[3] as int;
    }
  }

  lemma {:induction false} FoundTells(es: seq<Element>, tail: seq<byte>)
    requires tail != [] && tail[0] == 0
    ensures Tells(Layout(IES, Erased(es)) + tail, Found(es), es)
  {
    PointersSpell(es, CALLING_NUMBER, tail);
    PointersSpell(es, CALLED_NUMBER, tail);
    PointersSpell(es, USERNAME, tail);
    PointersSpell(es, CHALLENGE, tail);
    PointersSpell(es, CALLING_NAME, tail);
    NumberSays(Last(es, FORMAT));
    NumberSays(Last(es, AUTHMETHODS));
  }

  /** An element changes the field its kind's number names: a pointer to its payload, or a number. */
  function Noted(ies: Ies, kind: byte, at: nat, number: u32): Ies {
    match kind
    case 1 => ies.(callee := Some(at))
    case 2 => ies.(caller := Some(at))
    case 4 => ies.(callingName := Some(at))
    case 6 => ies.(username := Some(at))
    case 9 => ies.(format := number)
    case 14 => ies.(authmethods := number)
    case 15 => ies.(challenge := Some(at))
    case _ => ies
  }

  lemma {:induction false} FoundSnoc(es: seq<Element>, e: Element)
    ensures Found(es + [e]) == Noted(Found(es), e.kind, |Layout(IES, es)| + 2, Number(Some(e.payload)))
  {
    LastSnoc(es, e, CALLING_NUMBER);
    LastSnoc(es, e, CALLED_NUMBER);
    LastSnoc(es, e, FORMAT);
    LastSnoc(es, e, USERNAME);
    LastSnoc(es, e, AUTHMETHODS);
    LastSnoc(es, e, CHALLENGE);
    LastSnoc(es, e, CALLING_NAME);
  }

  /** The switch over the element type. */
  method Note(ies: Ies, data: array<byte>, pos: nat) returns (ies': Ies)
    requires pos + 2 <= data.Length && pos + 2 + data[pos + 1] <= data.Length
    ensures var number := Number(Some(data[pos + 2..pos + 2 + data[pos + 1]]));
            && ies' == Noted(ies, data[pos], pos + 2, number)
            && Says(number, Some(data[pos + 2..pos + 2 + data[pos + 1]]))
  {
    var kind, len := data[pos], data[pos + 1];
    NumberSays(Some(data[pos + 2..pos + 2 + len]));
    if kind == CALLING_NAME {
      ies' := ies.(callingName := Some(pos + 2));
    } else if kind == CALLED_NUMBER {
      ies' := ies.(callee := Some(pos + 2));
    } else if kind == CALLING_NUMBER {
      ies' := ies.(caller := Some(pos + 2));
    } else if kind == FORMAT {
      ies' := ies.(format := if len == 4 then FromBig32(data[pos + 2..pos + 6]) else 0);
    } else if kind == USERNAME {
      ies' := ies.(username := Some(pos + 2));
    } else if kind == AUTHMETHODS {
      ies' := ies.(authmethods := if len == 4 then FromBig32(data[pos + 2..pos + 6]) else 0);
    } else if kind == CHALLENGE {
      ies' := ies.(challenge := Some(pos + 2));
    } else {
      ies' := ies;
    }
  }

  /** The loop has read es and is at pos; `now` are the data as it has left them. */
  ghost predicate SoFar(was: seq<byte>, now: seq<byte>, pos: nat, es: seq<Element>, ies: Ies) {
    && pos <= |was| && |now| == |was| && ies == Found(es)
    && was[..pos] == Layout(IES, es) && now == Layout(IES, Erased(es)) + was[pos..]
  }

  lemma {:induction false} SameRest(was: seq<byte>, now: seq<byte>, pos: nat, es: seq<Element>, ies: Ies)
    requires SoFar(was, now, pos, es, ies)
    ensures now[..pos] == Layout(IES, Erased(es)) && now[pos..] == was[pos..] && |Layout(IES, es)| == pos
    ensures pos < |was| ==> now[pos := 0] == Layout(IES, Erased(es)) + ([0] + was[pos + 1..])
    ensures forall i :: pos <= i < |was| ==> now[i] == was[i]
  {
    assert pos < |was| ==> was[pos..][0 := 0] == [0] + was[pos + 1..];
    forall i | pos <= i < |was| ensures now[i] == was[i] {
      assert now[pos..][i - pos] == was[pos..][i - pos];
    }
  }

  lemma {:induction false} RestIs(d: seq<byte>, pos: nat, e: Element, next: nat)
    requires next == pos + 2 + |e.payload| <= |d|
    requires d[pos] == e.kind && d[pos + 1] == |e.payload| && d[pos + 2..next] == e.payload
    ensures d[pos..] == ElementBytes(e) + d[next..]
  {
  }

  lemma {:induction false} EraseFirst(front: seq<byte>, e: Element, rest: seq<byte>)
    ensures (front + (ElementBytes(e) + rest))[|front| := 0] == (front + ElementBytes(Element(0, e.payload))) + rest
  {
  }

  lemma {:induction false} TakeMore(d: seq<byte>, pos: nat, piece: seq<byte>, rest: seq<byte>, next: nat)
    requires pos <= |d| && d[pos..] == piece + rest && next == pos + |piece|
    ensures next <= |d| && d[..next] == d[..pos] + piece && d[next..] == rest
  {
    assert d == d[..pos] + (piece + rest);
  }

  /** One round of the loop: the element at pos is e. */
  lemma {:induction false} StepOn(was: seq<byte>, now: seq<byte>, pos: nat, es: seq<Element>, ies: Ies, e: Element,
                                  ies': Ies, next: nat)
    requires SoFar(was, now, pos, es, ies) && ies' == Found(es + [e])
    requires next == pos + 2 + |e.payload| <= |was|
    requires now[pos] == e.kind && now[pos + 1] == |e.payload| && now[pos + 2..next] == e.payload
    ensures SoFar(was, now[pos := 0], next, es + [e], ies')
  {
    SameRest(was, now, pos, es, ies);
    RestIs(now, pos, e, next);
    TakeMore(was, pos, ElementBytes(e), now[next..], next);
    EraseFirst(Layout(IES, Erased(es)), e, now[next..]);
    LayoutSnoc(IES, es, e);
    ErasedSnoc(es, e);
  }

  /** The element at pos is noted and its type byte overwritten. */
  method ReadElement(data: array<byte>, pos: nat, len: byte, next: nat, ies: Ies, ghost was: seq<byte>,
                     ghost es: seq<Element>)
    returns (ies': Ies, ghost es': seq<Element>)
    requires pos + 2 + len == next <= data.Length && len == data[pos + 1]
    requires SoFar(was, data[..], pos, es, ies)
    modifies data
    ensures SoFar(was, data[..], next, es', ies')
  {
    ghost var now, e := data[..], Element(data[pos], data[pos + 2..pos + 2 + len]);
    assert pos == |Layout(IES, es)| by {
      SameRest(was, now, pos, es, ies);
    }
    ies' := Note(ies, data, pos);
    FoundSnoc(es, e);
    es' := es + [e];
    StepOn(was, now, pos, es, ies, e, ies', next);
    data[pos] := 0;
    assert data[..] == now[pos := 0];
  }

  lemma {:induction false} Begin(was: seq<byte>)
    ensures SoFar(was, was, 0, [], Ies(None, None, 0, None, 0, None, None))
  {
    assert [] + was[0..] == was;
  }

  lemma {:induction false} NothingMore(was: seq<byte>, pos: nat, datalen: nat)
    requires pos <= datalen <= |was| && (datalen - pos >= 2 ==> was[pos + 1] > datalen - pos - 2)
    ensures TakeElement(was[pos..datalen]) == None
  {
  }

  /** The loop of parse_iax2_ies; it leaves at pos, where no further element is complete. */
  method ReadElements(data: array<byte>, datalen: nat) returns (ies: Ies, pos: nat, ghost es: seq<Element>)
    requires datalen < data.Length
    modifies data
    ensures SoFar(old(data[..]), data[..], pos, es, ies)
    ensures pos <= datalen && TakeElement(old(data[..])[pos..datalen]) == None
  {
    ghost var was := data[..];
    ies, es, pos := Ies(None, None, 0, None, 0, None, None), [], 0;
    Begin(was);
    var left: nat := datalen;
    while left >= 2
      invariant pos + left == datalen < data.Length == |was|
      invariant SoFar(was, data[..], pos, es, ies)
    {
      var len := data[pos + 1];
      assert len == was[pos + 1] by {
        SameRest(was, data[..], pos, es, ies);
      }
      if len > left - 2 {
        break;
      }
      var next := pos + (len + 2);
      ies, es := ReadElement(data, pos, len, next, ies, was, es);
      left, pos := left - (len + 2), next;
    }
    NothingMore(was, pos, datalen);
  }

  /** What parsing leaves of the data: the elements read lose their type bytes; unless an element
      declares more bytes than there are, the byte after the last element read becomes NUL too. */
  function Terminated(was: seq<byte>, datalen: nat, es: seq<Element>): seq<byte>
    requires |Layout(IES, es)| <= datalen < |was|
  {
    var pos := |Layout(IES, es)|;
    Layout(IES, Erased(es)) + (if datalen - pos >= 2 then was[pos..] else [0] + was[pos + 1..])
  }

  /** parse_iax2_ies; ok stands for the answer 0, es are the elements read. */
  method ParseIes(data: array<byte>, datalen: nat) returns (ies: Ies, ok: bool, ghost es: seq<Element>)
    requires datalen < data.Length
    modifies data
    ensures ok <==> Tiles(IES, old(data[..datalen]))
    ensures ok ==> Layout(IES, es) == old(data[..datalen]) && Tells(data[..], ies, es)
    ensures |Layout(IES, es)| <= datalen && Layout(IES, es) <= old(data[..datalen])
    ensures TakeElement(old(data[|Layout(IES, es)|..datalen])) == None
    ensures data[..] == Terminated(old(data[..]), datalen, es)
  {
    ghost var was := data[..];
    var pos;
    ies, pos, es := ReadElements(data, datalen);
    ghost var now := data[..];
    SameRest(was, now, pos, es, ies);
    AnswerIs(was, datalen, es);
    if datalen - pos >= 2 {
      return ies, false, es;
    }
    FoundTells(es, [0] + was[pos + 1..]);
    data[pos] := 0;
    assert data[..] == now[pos := 0];
    ok := datalen == pos;
  }

  lemma {:induction false} AnswerIs(was: seq<byte>, datalen: nat, es: seq<Element>)
    requires |Layout(IES, es)| <= datalen < |was| && was[..|Layout(IES, es)|] == Layout(IES, es)
    requires TakeElement(was[|Layout(IES, es)|..datalen]) == None
    ensures Tiles(IES, was[..datalen]) <==> |Layout(IES, es)| == datalen
  {
    IesLawful();
    var pos := |Layout(IES, es)|;
    TilesIff(IES, es, was[pos..datalen]);
    assert was[..datalen] == Layout(IES, es) + was[pos..datalen];
  }
}
