/** Byte strings laid out as self-delimiting items one after the other. */
module Tilings {
  import opened AudioChunks

  /** bytes lays out one item; take reads the item at the front, if a complete one is there. */
  datatype Codec<!T> = Codec(bytes: T -> seq<byte>, take: seq<byte> -> Option<T>)

  ghost predicate Lawful<T(!new)>(c: Codec<T>) {
    && (forall x: T :: c.bytes(x) != [])
    && (forall x: T, rest: seq<byte> :: c.take(c.bytes(x) + rest) == Some(x))
    && (forall d: seq<byte> :: c.take(d).Some? ==> c.bytes(c.take(d).value) <= d)
  }

  function Layout<T>(c: Codec<T>, items: seq<T>): seq<byte> {
    if items == [] then [] else c.bytes(items[0]) + Layout(c, items[1..])
  }

  /** d is a sequence of complete items with nothing left over. */
  ghost predicate Tiles<T(!new)>(c: Codec<T>, d: seq<byte>) {
    exists items: seq<T> :: Layout(c, items) == d
  }

  lemma {:induction false} LayoutSnoc<T>(c: Codec<T>, items: seq<T>, x: T)
    ensures Layout(c, items + [x]) == Layout(c, items) + c.bytes(x)
  {
    if items == [] {
      assert items + [x] == [x] && [x][1..] == items;
      assert Layout(c, items) == [];
      assert c.bytes(x) + [] == c.bytes(x) && [] + c.bytes(x) == c.bytes(x);
    } else {
      assert (items + [x])[1..] == items[1..] + [x];
      LayoutSnoc(c, items[1..], x);
      assert c.bytes(items[0]) + (Layout(c, items[1..]) + c.bytes(x))
          == c.bytes(items[0]) + Layout(c, items[1..]) + c.bytes(x);
    }
  }

  /** Bytes can be read in one way only as items followed by a rest that shows no further item. */
  lemma {:induction false} OneReading<T(!new)>(c: Codec<T>, items: seq<T>, rest: seq<byte>, items': seq<T>,
                                               rest': seq<byte>)
    requires Lawful(c) && c.take(rest) == None && c.take(rest') == None
    requires Layout(c, items) + rest == Layout(c, items') + rest'
    ensures items == items' && rest == rest'
    decreases |items| + |items'|
  {
    assert items == [] ==> Layout(c, items) + rest == rest;
    assert items' == [] ==> Layout(c, items') + rest' == rest';
    if items != [] {
      FirstTaken(c, items, rest);
    }
    if items' != [] {
      FirstTaken(c, items', rest');
    }
    if items != [] && items' != [] {
      var first := c.bytes(items[0]);
      assert Layout(c, items) + rest == first + (Layout(c, items[1..]) + rest);
      assert Layout(c, items') + rest' == first + (Layout(c, items'[1..]) + rest');
      SameTails(first, Layout(c, items[1..]) + rest, Layout(c, items'[1..]) + rest');
      OneReading(c, items[1..], rest, items'[1..], rest');
      assert items == [items[0]] + items[1..] && items' == [items'[0]] + items'[1..];
    }
  }

  lemma {:induction false} SameTails(a: seq<byte>, b: seq<byte>, c: seq<byte>)
    requires a + b == a + c
    ensures b == c
  {
    assert b == (a + b)[|a|..] && c == (a + c)[|a|..];
  }

  lemma {:induction false} FirstTaken<T(!new)>(c: Codec<T>, items: seq<T>, rest: seq<byte>)
    requires Lawful(c) && items != []
    ensures c.take(Layout(c, items) + rest) == Some(items[0])
  {
    assert Layout(c, items) + rest == c.bytes(items[0]) + (Layout(c, items[1..]) + rest);
  }

  /** So bytes that tile are read with nothing left over, and only those. */
  lemma {:induction false} TilesIff<T(!new)>(c: Codec<T>, items: seq<T>, rest: seq<byte>)
    requires Lawful(c) && c.take(rest) == None && c.take([]) == None
    ensures Tiles(c, Layout(c, items) + rest) <==> rest == []
  {
    if rest == [] {
      assert Layout(c, items) + rest == Layout(c, items);
    }
    if Tiles(c, Layout(c, items) + rest) {
      var items' :| Layout(c, items') == Layout(c, items) + rest;
      assert Layout(c, items') + [] == Layout(c, items');
      OneReading(c, items, rest, items', []);
    }
  }
}
