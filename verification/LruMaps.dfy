/** The insertion-ordered cache (OrkLruMap.h): a list of keys with time stamps and a map from keys to
    values and list positions. */
module LruMaps {
  import opened AudioChunks

  /** -1 in a uint64_t. */
  const NO_TS: nat := 0xFFFF_FFFF_FFFF_FFFF

  datatype Entry<K, V> = Entry(key: K, value: V, ts: nat)

  // ---------- The sequence the structure stands for, oldest entry first ----------

  ghost predicate Distinct<K, V>(es: seq<Entry<K, V>>) {
    forall i, j :: 0 <= i < j < |es| ==> es[i].key != es[j].key
  }

  function WithoutKey<K(==), V>(es: seq<Entry<K, V>>, key: K): seq<Entry<K, V>> {
    if es == [] then []
    else if es[0].key == key then es[1..]
    else [es[0]] + WithoutKey(es[1..], key)
  }

  function Lookup<K(==), V>(es: seq<Entry<K, V>>, key: K): Option<Entry<K, V>> {
    if es == [] then None else if es[0].key == key then Some(es[0]) else Lookup(es[1..], key)
  }

  /** InsertPair: make room if full, drop the key's older entry, append. */
  function Inserted<K(==), V>(es: seq<Entry<K, V>>, size: nat, e: Entry<K, V>): seq<Entry<K, V>> {
    WithoutKey(if es != [] && |es| >= size then es[1..] else es, e.key) + [e]
  }

  /** What a least-recently-inserted cache would do: make room only if the key is not there yet. */
  function Ideal<K(==), V>(es: seq<Entry<K, V>>, size: nat, e: Entry<K, V>): seq<Entry<K, V>> {
    var others := WithoutKey(es, e.key);
    (if others != [] && |others| >= size then others[1..] else others) + [e]
  }

  lemma {:induction false} LookupAt<K, V>(es: seq<Entry<K, V>>, i: nat)
    requires Distinct(es) && i < |es|
    ensures Lookup(es, es[i].key) == Some(es[i])
    ensures WithoutKey(es, es[i].key) == es[..i] + es[i + 1..]
  {
    if i > 0 {
      assert es[1..][i - 1] == es[i];
      LookupAt(es[1..], i - 1);
      assert [es[0]] + (es[1..][..i - 1] + es[1..][i..]) == es[..i] + es[i + 1..];
    } else {
      assert es[1..] == es[..0] + es[1..];
    }
  }

  lemma {:induction false} LookupNone<K, V>(es: seq<Entry<K, V>>, key: K)
    requires forall i :: 0 <= i < |es| ==> es[i].key != key
    ensures Lookup(es, key) == None && WithoutKey(es, key) == es
  {
    if es != [] {
      LookupNone(es[1..], key);
      assert [es[0]] + es[1..] == es;
    }
  }

  lemma {:induction false} LookupSome<K, V>(es: seq<Entry<K, V>>, key: K)
    ensures match Lookup(es, key)
            case None => forall i :: 0 <= i < |es| ==> es[i].key != key
            case Some(e) => e.key == key && exists i :: 0 <= i < |es| && es[i] == e
  {
    if es != [] && es[0].key != key {
      LookupSome(es[1..], key);
      if Lookup(es[1..], key).Some? {
        var i :| 0 <= i < |es[1..]| && es[1..][i] == Lookup(es[1..], key).value;
        assert es[i + 1] == Lookup(es, key).value;
      }
    }
  }

  /** Dropping a key drops its one entry and leaves the others in their order. */
  lemma {:induction false} WithoutIs<K, V>(es: seq<Entry<K, V>>, key: K)
    requires Distinct(es)
    ensures var r := WithoutKey(es, key);
            && Distinct(r) && (forall i :: 0 <= i < |r| ==> r[i].key != key && r[i] in es)
            && |r| == (if Lookup(es, key).Some? then |es| - 1 else |es|)
            && forall k: K {:trigger Lookup(r, k)} :: Lookup(r, k) == if k == key then None else Lookup(es, k)
  {
    if es != [] && es[0].key != key {
      WithoutIs(es[1..], key);
    } else if es != [] {
      forall k: K ensures Lookup(es[1..], k) == if k == key then None else Lookup(es, k) {
        if k == key {
          LookupNone(es[1..], key);
        }
      }
    }
  }

  /** An insertion puts the new entry last and changes the answer for one other key at most: the
      oldest one, if the structure is full. */
  lemma {:induction false} InsertIs<K, V>(es: seq<Entry<K, V>>, size: nat, e: Entry<K, V>)
    requires Distinct(es) && 1 <= size && |es| <= size
    ensures var r := Inserted(es, size, e);
            && Distinct(r) && |r| <= size && r[|r| - 1] == e
            && forall k: K {:trigger Lookup(r, k)} ::
                 Lookup(r, k) == if k == e.key then Some(e)
                                 else if |es| == size && k == es[0].key then None else Lookup(es, k)
  {
    var rest := if es != [] && |es| >= size then es[1..] else es;
    WithoutIs(rest, e.key);
    var kept := WithoutKey(rest, e.key);
    assert Distinct(kept + [e]);
    forall k: K
      ensures Lookup(kept + [e], k) == if k == e.key then Some(e)
                                       else if |es| == size && k == es[0].key then None else Lookup(es, k)
    {
      LookupSnoc(kept, e, k);
      if rest != es && k == es[0].key {
        LookupNone(rest, k);
      }
    }
  }

  lemma {:induction false} LookupSnoc<K, V>(es: seq<Entry<K, V>>, e: Entry<K, V>, key: K)
    ensures Lookup(es + [e], key) == if Lookup(es, key).Some? then Lookup(es, key)
                                     else if e.key == key then Some(e) else None
  {
    if es == [] {
      assert es + [e] == [e];
    } else {
      assert (es + [e])[1..] == es[1..] + [e];
      LookupSnoc(es[1..], e, key);
    }
  }

  /** InsertPair does what a least-recently-inserted cache would do unless it is full and the key is
      there already in another place than the oldest: then it also drops the oldest entry for nothing. */
  lemma {:induction false} IdealIff<K, V>(es: seq<Entry<K, V>>, size: nat, e: Entry<K, V>)
    requires Distinct(es) && 1 <= size && |es| <= size
    ensures Inserted(es, size, e) == Ideal(es, size, e) <==>
            !(|es| == size && es[0].key != e.key && Lookup(es, e.key).Some?)
  {
    WithoutIs(es, e.key);
    LookupSome(es, e.key);
    if |es| == size {
      WithoutIs(es[1..], e.key);
      if es[0].key == e.key {
        LookupNone(es[1..], e.key);
      } else if Lookup(es, e.key) == None {
        LookupNone(es, e.key);
        LookupNone(es[1..], e.key);
      } else {
        assert |Inserted(es, size, e)| < |Ideal(es, size, e)|;
      }
    }
  }

  /** With two places, storing a and b and then b again loses a. */
  lemma {:induction false} NeedlessEviction()
    ensures var a, b := Entry(1, "a", 0), Entry(2, "b", 0);
            && Inserted(Inserted(Inserted([], 2, a), 2, b), 2, b) == [b]
            && Ideal(Ideal(Ideal([], 2, a), 2, b), 2, b) == [a, b]
  {
    var none: seq<Entry<int, string>> := [];
    var a, b := Entry(1, "a", 0), Entry(2, "b", 0);
    assert none + [a] == [a];
    assert WithoutKey([a], 2) == [a] by {
      LookupNone([a], 2);
    }
    assert [a] + [b] == [a, b];
    assert [a, b][1..] == [b] && [b][1..] == none;
    assert WithoutKey([b], 2) == none && none + [b] == [b];
    assert WithoutKey([a, b], 2) == [a] + none == [a];
  }

  // ---------- Runs ----------

  datatype Op<K, V> =
    | InsertPair(entry: Entry<K, V>)
    | Remove(key: K)
    | RemoveOldest
    | Clear
    | SetSize(n: nat)

  datatype Lru<K, V> = Lru(entries: seq<Entry<K, V>>, size: nat)

  function Apply<K(==), V>(s: Lru<K, V>, op: Op<K, V>): Lru<K, V> {
    match op
    case InsertPair(e) => s.(entries := Inserted(s.entries, s.size, e))
    case Remove(k) => s.(entries := WithoutKey(s.entries, k))
    case RemoveOldest => if s.entries == [] then s else s.(entries := s.entries[1..])
    case Clear => s.(entries := [])
    case SetSize(n) => if n >= s.size then s.(size := n) else s
  }

  function Run<K(==), V>(s: Lru<K, V>, ops: seq<Op<K, V>>): Lru<K, V> {
    if ops == [] then s else Apply(Run(s, ops[..|ops| - 1]), ops[|ops| - 1])
  }

  /** What the run last stored under a key and has not been told to forget since. */
  function Stored<K(==), V>(ops: seq<Op<K, V>>, key: K): Option<Entry<K, V>> {
    if ops == [] then None
    else
      var before := ops[..|ops| - 1];
      match ops[|ops| - 1]
      case InsertPair(e) => if e.key == key then Some(e) else Stored(before, key)
      case Remove(k) => if k == key then None else Stored(before, key)
      case Clear => None
      case RemoveOldest => Stored(before, key)
      case SetSize(_) => Stored(before, key)
  }

  /** Never more entries than places, one entry a key, and every entry is the one last stored. */
  ghost predicate Faithful<K(!new), V>(s: Lru<K, V>, ops: seq<Op<K, V>>) {
    && Distinct(s.entries) && |s.entries| <= s.size && 1 <= s.size
    && forall k: K {:trigger Lookup(s.entries, k)} :: Lookup(s.entries, k) in {None, Stored(ops, k)}
  }

  lemma {:induction false} ApplyKeeps<K(!new), V>(s: Lru<K, V>, ops: seq<Op<K, V>>, op: Op<K, V>)
    requires Faithful(s, ops)
    ensures Faithful(Apply(s, op), ops + [op])
  {
    var es := s.entries;
    assert (ops + [op])[..|ops|] == ops;
    match op {
      case InsertPair(e) => InsertIs(es, s.size, e);
      case Remove(k) => WithoutIs(es, k);
      case RemoveOldest =>
        if es != [] {
          LookupAt(es, 0);
          WithoutIs(es, es[0].key);
          assert es[..0] + es[1..] == es[1..];
        }
      case Clear =>
      case SetSize(_) =>
    }
  }

  /** Over every run on a new map. */
  lemma {:induction false} EveryRun<K(!new), V>(size: nat, ops: seq<Op<K, V>>)
    requires 1 <= size
    ensures Faithful(Run(Lru([], size), ops), ops)
  {
    if ops != [] {
      var n := |ops| - 1;
      EveryRun(size, ops[..n]);
      assert ops[..n] + [ops[n]] == ops;
      ApplyKeeps(Run(Lru([], size), ops[..n]), ops[..n], ops[n]);
    }
  }

  /** The largest size a run has asked for. */
  function Largest<K, V>(size: nat, ops: seq<Op<K, V>>): nat {
    if ops == [] then size
    else
      var before, last := Largest(size, ops[..|ops| - 1]), ops[|ops| - 1];
      if last.SetSize? && last.n > before then last.n else before
  }

  /** The number of places is the largest ever asked for. */
  lemma {:induction false} SizeIs<K(!new), V>(size: nat, ops: seq<Op<K, V>>)
    ensures Run(Lru([], size), ops).size == Largest(size, ops)
  {
    if ops != [] { SizeIs(size, ops[..|ops| - 1]); }
  }

  /** The key is that of the oldest entry. */
  predicate IsOldest<K(==), V>(es: seq<Entry<K, V>>, key: K) {
    es != [] && es[0].key == key
  }

  /** The key was stored, and since then neither removed nor, when its entry was the oldest, dropped by
      RemoveOldest or by storing another key in a full map. */
  predicate StillHeld<K(==), V>(size: nat, ops: seq<Op<K, V>>, key: K) {
    ops != [] &&
      var before := ops[..|ops| - 1];
      var s := Run(Lru([], size), before);
      match ops[|ops| - 1]
      case InsertPair(e) =>
        e.key == key || (StillHeld(size, before, key) && !(|s.entries| >= s.size && IsOldest(s.entries, key)))
      case Remove(k) => k != key && StillHeld(size, before, key)
      case RemoveOldest => StillHeld(size, before, key) && !IsOldest(s.entries, key)
      case Clear => false
      case SetSize(_) => StillHeld(size, before, key)
  }

  /** Exactly these keys are found after a run, each with what was last stored under it. */
  lemma {:induction false} HoldsExactly<K(!new), V>(size: nat, ops: seq<Op<K, V>>, key: K)
    requires 1 <= size
    ensures Lookup(Run(Lru([], size), ops).entries, key) == if StillHeld(size, ops, key) then Stored(ops, key) else None
    ensures StillHeld(size, ops, key) ==> Stored(ops, key).Some?
  {
    if ops != [] {
      var n := |ops| - 1;
      var before, last := ops[..n], ops[n];
      HoldsExactly(size, before, key);
      EveryRun(size, before);
      HeldAfter(Run(Lru([], size), before), before, last, key);
    }
  }

  /** What one operation does to the answer for one key. */
  lemma {:induction false} HeldAfter<K(!new), V>(s: Lru<K, V>, ops: seq<Op<K, V>>, op: Op<K, V>, key: K)
    requires Faithful(s, ops)
    ensures Lookup(Apply(s, op).entries, key) ==
            match op
            case InsertPair(e) =>
              if e.key == key then Some(e)
              else if |s.entries| >= s.size && IsOldest(s.entries, key) then None else Lookup(s.entries, key)
            case Remove(k) => if k == key then None else Lookup(s.entries, key)
            case RemoveOldest => if IsOldest(s.entries, key) then None else Lookup(s.entries, key)
            case Clear => None
            case SetSize(_) => Lookup(s.entries, key)
  {
    var es := s.entries;
    match op {
      case InsertPair(e) => InsertIs(es, s.size, e);
      case Remove(k) => WithoutIs(es, k);
      case RemoveOldest =>
        if es != [] {
          LookupAt(es, 0);
          WithoutIs(es, es[0].key);
          assert es[..0] + es[1..] == es[1..];
        }
      case Clear =>
      case SetSize(_) =>
    }
  }

  // ---------- Time stamps ----------

  ghost predicate Sorted<K, V>(es: seq<Entry<K, V>>, now: nat) {
    && (forall i, j :: 0 <= i < j < |es| ==> es[i].ts <= es[j].ts)
    && forall i :: 0 <= i < |es| ==> es[i].ts <= now
  }

  /** The clock value a run ends with. */
  function Clock<K, V>(ops: seq<Op<K, V>>): nat {
    if ops == [] then 0
    else
      var last := ops[|ops| - 1];
      if last.InsertPair? then last.entry.ts else Clock(ops[..|ops| - 1])
  }

  /** The clock does not go back from one insertion to the next. */
  ghost predicate ClockOk<K, V>(ops: seq<Op<K, V>>) {
    ops != [] ==>
      var before, last := ops[..|ops| - 1], ops[|ops| - 1];
      ClockOk(before) && (last.InsertPair? ==> Clock(before) <= last.entry.ts)
  }

  function OldestTs<K, V>(es: seq<Entry<K, V>>): nat {
    if es == [] then NO_TS else es[0].ts
  }

  /** The order is kept when entries are taken away. */
  lemma {:induction false} WithoutSorted<K, V>(es: seq<Entry<K, V>>, key: K, now: nat)
    requires Sorted(es, now)
    ensures Sorted(WithoutKey(es, key), now)
    ensures forall e :: e in WithoutKey(es, key) ==> e in es
  {
    if es != [] && es[0].key != key {
      WithoutSorted(es[1..], key, now);
      assert forall e :: e in es[1..] ==> es[0].ts <= e.ts;
    }
  }

  lemma {:induction false} RunSorted<K, V>(size: nat, ops: seq<Op<K, V>>)
    requires ClockOk(ops)
    ensures Sorted(Run(Lru([], size), ops).entries, Clock(ops))
  {
    if ops != [] {
      var before, last := ops[..|ops| - 1], ops[|ops| - 1];
      RunSorted(size, before);
      var s := Run(Lru([], size), before);
      var es := s.entries;
      match last {
        case InsertPair(e) =>
          var rest := if es != [] && |es| >= s.size then es[1..] else es;
          WithoutSorted(rest, e.key, Clock(before));
        case Remove(k) => WithoutSorted(es, k, Clock(before));
        case RemoveOldest =>
        case Clear =>
        case SetSize(_) =>
      }
    }
  }

  /** With a clock that does not go back, GetOldestTs is the least time stamp there is. */
  lemma {:induction false} OldestIsLeast<K, V>(size: nat, ops: seq<Op<K, V>>)
    requires ClockOk(ops)
    ensures var es := Run(Lru([], size), ops).entries;
            forall e :: e in es ==> OldestTs(es) <= e.ts && exists o :: o in es && o.ts == OldestTs(es)
  {
    RunSorted(size, ops);
    var es := Run(Lru([], size), ops).entries;
    assert es != [] ==> es[0] in es;
  }

  // ---------- What stays ----------

  /** Entry e is there, with at most n younger ones. */
  ghost predicate Held<K, V>(es: seq<Entry<K, V>>, e: Entry<K, V>, n: int) {
    exists i :: 0 <= i < |es| && es[i] == e && |es| - 1 - i <= n
  }

  lemma {:induction false} HeldBeside<K, V>(es: seq<Entry<K, V>>, e: Entry<K, V>, n: int, j: nat)
    requires Held(es, e, n) && j < |es| && es[j] != e
    ensures Held(es[..j] + es[j + 1..], e, n)
  {
    var i :| 0 <= i < |es| && es[i] == e && |es| - 1 - i <= n;
    var r := es[..j] + es[j + 1..];
    var i' := if i < j then i else i - 1;
    assert 0 <= i' < |r| && r[i'] == e && |r| - 1 - i' <= n;
  }

  lemma {:induction false} WithoutHeld<K, V>(es: seq<Entry<K, V>>, e: Entry<K, V>, n: int, key: K)
    requires Held(es, e, n) && Distinct(es) && key != e.key
    ensures Held(WithoutKey(es, key), e, n)
  {
    LookupSome(es, key);
    if Lookup(es, key) == None {
      LookupNone(es, key);
    } else {
      var j :| 0 <= j < |es| && es[j] == Lookup(es, key).value;
      LookupAt(es, j);
      HeldBeside(es, e, n, j);
    }
  }

  lemma {:induction false} InsertHeld<K, V>(es: seq<Entry<K, V>>, size: nat, e: Entry<K, V>, n: int, x: Entry<K, V>)
    requires Held(es, e, n) && Distinct(es) && n + 1 < size && x.key != e.key
    ensures Held(Inserted(es, size, x), e, n + 1)
  {
    var rest := if es != [] && |es| >= size then es[1..] else es;
    var i :| 0 <= i < |es| && es[i] == e && |es| - 1 - i <= n;
    if rest != es {
      assert rest[i - 1] == e;
    }
    WithoutHeld(rest, e, n, x.key);
    var kept := WithoutKey(rest, x.key);
    var j :| 0 <= j < |kept| && kept[j] == e && |kept| - 1 - j <= n;
    assert (kept + [x])[j] == e;
  }

  /** Only insertions of other keys. */
  predicate OthersOnly<K(==), V>(ops: seq<Op<K, V>>, key: K) {
    forall i :: 0 <= i < |ops| ==> ops[i].InsertPair? && ops[i].entry.key != key
  }

  /** The entries of the last `size` insertions are all there. */
  lemma {:induction false} RecentStays<K(!new), V>(s: Lru<K, V>, e: Entry<K, V>, ops: seq<Op<K, V>>)
    requires Distinct(s.entries) && |s.entries| <= s.size && |ops| < s.size && OthersOnly(ops, e.key)
    ensures var s' := Run(Apply(s, InsertPair(e)), ops);
            && Held(s'.entries, e, |ops|) && Lookup(s'.entries, e.key) == Some(e)
            && Distinct(s'.entries) && |s'.entries| <= s'.size == s.size
  {
    var s1 := Apply(s, InsertPair(e));
    if ops == [] {
      InsertIs(s.entries, s.size, e);
      assert s1.entries[|s1.entries| - 1] == e;
    } else {
      var n := |ops| - 1;
      RecentStays(s, e, ops[..n]);
      var before := Run(s1, ops[..n]);
      InsertIs(before.entries, before.size, ops[n].entry);
      InsertHeld(before.entries, before.size, e, n, ops[n].entry);
    }
    var es := Run(s1, ops).entries;
    var i :| 0 <= i < |es| && es[i] == e && |es| - 1 - i <= |ops|;
    LookupAt(es, i);
  }

  // ---------- The class ----------

  /** A list node; a list iterator is a reference to one. */
  class Node<K> {
    const key: K
    const ts: nat

    constructor (key: K, ts: nat)
      ensures this.key == key && this.ts == ts
    {
      this.key, this.ts := key, ts;
    }
  }

  /** std::pair<V, list iterator> */
  datatype Slot<K, V> = Slot(value: V, node: Node<K>)

  /** std::list::erase */
  function Unlinked<K>(list: seq<Node<K>>, node: Node<K>): seq<Node<K>> {
    if list == [] then [] else if list[0] == node then list[1..] else [list[0]] + Unlinked(list[1..], node)
  }

  /** The map has the list's keys, and each stored iterator addresses the node of its own key. */
  ghost predicate Linked<K(!new), V(!new)>(list: seq<Node<K>>, slots: map<K, Slot<K, V>>) {
    && (forall i, j :: 0 <= i < j < |list| ==> list[i].key != list[j].key)
    && (forall i :: 0 <= i < |list| ==> list[i].key in slots && slots[list[i].key].node == list[i])
    && (forall k :: k in slots ==> slots[k].node in list && slots[k].node.key == k)
  }

  ghost function EntriesOf<K(!new), V(!new)>(list: seq<Node<K>>, slots: map<K, Slot<K, V>>): (es: seq<Entry<K, V>>)
    requires Linked(list, slots)
    ensures |es| == |list| && Distinct(es)
  {
    seq(|list|, i requires 0 <= i < |list| => Entry(list[i].key, slots[list[i].key].value, list[i].ts))
  }

  lemma {:induction false} UnlinkedAt<K>(list: seq<Node<K>>, i: nat)
    requires i < |list| && forall j :: 0 <= j < i ==> list[j].key != list[i].key
    ensures Unlinked(list, list[i]) == list[..i] + list[i + 1..]
  {
    if i == 0 {
      assert list[1..] == list[..0] + list[1..];
    } else {
      UnlinkedAt(list[1..], i - 1);
      assert [list[0]] + (list[1..][..i - 1] + list[1..][i..]) == list[..i] + list[i + 1..];
    }
  }

  lemma {:induction false} StillThere<K>(list: seq<Node<K>>, i: nat, node: Node<K>)
    requires i < |list| && node in list && node != list[i]
    ensures node in list[..i] + list[i + 1..]
  {
    var j :| 0 <= j < |list| && list[j] == node;
    assert (list[..i] + list[i + 1..])[if j < i then j else j - 1] == node;
  }

  lemma {:induction false} LinkedWithout<K(!new), V(!new)>(list: seq<Node<K>>, slots: map<K, Slot<K, V>>, i: nat)
    requires Linked(list, slots) && i < |list|
    ensures Linked(list[..i] + list[i + 1..], slots - {list[i].key})
  {
    var key := list[i].key;
    var list', slots' := list[..i] + list[i + 1..], slots - {key};
    forall k | k in slots' ensures slots'[k].node in list' && slots'[k].node.key == k {
      StillThere(list, i, slots[k].node);
    }
    forall j | 0 <= j < |list'| ensures list'[j].key in slots' && slots'[list'[j].key].node == list'[j] {
      var node := list[if j < i then j else j + 1];
      assert list'[j] == node && node.key != key;
    }
  }

  lemma {:induction false} OneKeyLess<K, S>(slots: map<K, S>, key: K)
    requires key in slots
    ensures |slots - {key}| == |slots| - 1
  {
    assert slots.Keys == (slots - {key}).Keys + {key};
  }

  lemma {:induction false} OneKeyMore<K, S>(slots: map<K, S>, key: K, slot: S)
    requires key !in slots
    ensures |slots[key := slot]| == |slots| + 1
  {
    assert slots[key := slot].Keys == slots.Keys + {key};
  }

  lemma {:induction false} EntriesWithout<K(!new), V(!new)>(list: seq<Node<K>>, slots: map<K, Slot<K, V>>, i: nat)
    requires Linked(list, slots) && i < |list| && Linked(list[..i] + list[i + 1..], slots - {list[i].key})
    ensures var es := EntriesOf(list, slots);
            EntriesOf(list[..i] + list[i + 1..], slots - {list[i].key}) == es[..i] + es[i + 1..]
  {
  }

  /** Taking out the node at i and its map entry takes the entry out of the sequence. */
  lemma {:induction false} UnlinkAt<K(!new), V(!new)>(list: seq<Node<K>>, slots: map<K, Slot<K, V>>, i: nat)
    requires Linked(list, slots) && i < |list|
    ensures var list', slots' := Unlinked(list, list[i]), slots - {list[i].key};
            && list' == list[..i] + list[i + 1..] && |slots'| == |slots| - 1 && Linked(list', slots')
            && EntriesOf(list', slots') == WithoutKey(EntriesOf(list, slots), list[i].key)
  {
    UnlinkedAt(list, i);
    LinkedWithout(list, slots, i);
    OneKeyLess(slots, list[i].key);
    EntriesWithout(list, slots, i);
    LookupAt(EntriesOf(list, slots), i);
  }

  lemma {:induction false} DropFirst<T>(s: seq<T>)
    requires s != []
    ensures s[..0] + s[1..] == s[1..]
  {
  }

  /** Dropping the head takes the first entry away. */
  lemma {:induction false} UnlinkHead<K(!new), V(!new)>(list: seq<Node<K>>, slots: map<K, Slot<K, V>>)
    requires Linked(list, slots) && list != []
    ensures Linked(list[1..], slots - {list[0].key}) && |slots - {list[0].key}| == |slots| - 1
    ensures EntriesOf(list[1..], slots - {list[0].key}) == EntriesOf(list, slots)[1..]
  {
    DropFirst(list);
    UnlinkAt(list, slots, 0);
    DropFirst(EntriesOf(list, slots));
    LookupAt(EntriesOf(list, slots), 0);
  }

  /** What the map finds is what the sequence holds, and its iterator addresses that key's node. */
  lemma {:induction false} FindLinked<K(!new), V(!new)>(list: seq<Node<K>>, slots: map<K, Slot<K, V>>, key: K)
    returns (i: nat)
    requires Linked(list, slots)
    ensures key in slots <==> Lookup(EntriesOf(list, slots), key).Some?
    ensures key in slots ==> i < |list| && list[i] == slots[key].node
    ensures key in slots ==>
              Lookup(EntriesOf(list, slots), key) == Some(Entry(key, slots[key].value, slots[key].node.ts))
  {
    i := 0;
    if key in slots {
      i :| i < |list| && list[i] == slots[key].node;
      LookupAt(EntriesOf(list, slots), i);
    } else {
      LookupNone(EntriesOf(list, slots), key);
    }
  }

  lemma {:induction false} LinkedLast<K(!new), V(!new)>(list: seq<Node<K>>, slots: map<K, Slot<K, V>>,
                                                        value: V, node: Node<K>)
    requires Linked(list, slots) && node.key !in slots
    ensures Linked(list + [node], slots[node.key := Slot(value, node)])
  {
    var list', slots' := list + [node], slots[node.key := Slot(value, node)];
    forall k | k in slots' ensures slots'[k].node in list' && slots'[k].node.key == k {
      if k == node.key {
        assert list'[|list|] == node;
      }
    }
  }

  lemma {:induction false} LinkLast<K(!new), V(!new)>(list: seq<Node<K>>, slots: map<K, Slot<K, V>>,
                                                      value: V, node: Node<K>)
    requires Linked(list, slots) && node.key !in slots
    ensures var list', slots' := list + [node], slots[node.key := Slot(value, node)];
            && Linked(list', slots') && |slots'| == |slots| + 1
            && EntriesOf(list', slots') == EntriesOf(list, slots) + [Entry(node.key, value, node.ts)]
  {
    LinkedLast(list, slots, value, node);
    OneKeyMore(slots, node.key, Slot(value, node));
  }

  class OrkLruMap<K(==, !new), V(!new)> {
    var size: nat
    var list: seq<Node<K>>
    var slots: map<K, Slot<K, V>>

    ghost predicate Valid()
      reads this
    {
      Linked(list, slots) && |slots| == |list| <= size && 1 <= size
    }

    ghost function State(): Lru<K, V>
      reads this
      requires Valid()
    {
      Lru(EntriesOf(list, slots), size)
    }

    constructor (size: nat)
      requires 1 <= size
      ensures Valid() && State() == Lru([], size)
    {
      this.size, list, slots := size, [], map[];
    }

    method DropOldest()
      requires Linked(list, slots) && |slots| == |list| && list != []
      modifies this`list, this`slots
      ensures Linked(list, slots) && |slots| == |list| == old(|list|) - 1
      ensures EntriesOf(list, slots) == old(EntriesOf(list, slots))[1..]
    {
      UnlinkHead(list, slots);
      slots := slots - {list[0].key};
      list := list[1..];
    }

    method Erase(key: K)
      requires Linked(list, slots) && |slots| == |list| && key in slots
      modifies this`list, this`slots
      ensures Linked(list, slots) && |slots| == |list| == old(|list|) - 1 && key !in slots
      ensures EntriesOf(list, slots) == WithoutKey(old(EntriesOf(list, slots)), key)
    {
      ghost var i := FindLinked(list, slots, key);
      UnlinkAt(list, slots, i);
      list := Unlinked(list, slots[key].node);
      slots := slots - {key};
    }

    method MakeRoom()
      requires Valid()
      modifies this`list, this`slots
      ensures Linked(list, slots) && |slots| == |list| < size
      ensures var es := old(EntriesOf(list, slots));
              EntriesOf(list, slots) == if es != [] && |es| >= size then es[1..] else es
    {
      if |slots| >= size {
        DropOldest();
      }
    }

    /** The key's entry, if there is one, is erased. */
    method Forget(key: K) returns (found: bool)
      requires Linked(list, slots) && |slots| == |list|
      modifies this`list, this`slots
      ensures Linked(list, slots) && |slots| == |list| <= old(|list|) && key !in slots
      ensures EntriesOf(list, slots) == WithoutKey(old(EntriesOf(list, slots)), key)
      ensures found == Lookup(old(EntriesOf(list, slots)), key).Some?
    {
      ghost var _ := FindLinked(list, slots, key);
      LookupSome(EntriesOf(list, slots), key);
      found := key in slots;
      if found {
        Erase(key);
      } else {
        LookupNone(EntriesOf(list, slots), key);
      }
    }

    /** A key not there gets its entry at the end. */
    method AddLast(key: K, val: V, now: nat)
      requires Linked(list, slots) && |slots| == |list| && key !in slots
      modifies this`list, this`slots
      ensures Linked(list, slots) && |slots| == |list| == old(|list|) + 1
      ensures EntriesOf(list, slots) == old(EntriesOf(list, slots)) + [Entry(key, val, now)]
    {
      var node := new Node(key, now);
      LinkLast(list, slots, val, node);
      list := list + [node];
      slots := slots[key := Slot(val, node)];
    }

    method InsertPair(key: K, val: V, now: nat)
      requires Valid()
      modifies this
      ensures Valid() && State() == Apply(old(State()), Op.InsertPair(Entry(key, val, now)))
    {
      InsertNode(key, val, now);
    }

    method InsertNode(key: K, val: V, now: nat)
      requires Valid()
      modifies this`list, this`slots
      ensures Linked(list, slots) && |slots| == |list| <= size
      ensures EntriesOf(list, slots) == Inserted(old(EntriesOf(list, slots)), size, Entry(key, val, now))
    {
      MakeRoom();
      var _ := Forget(key);
      AddLast(key, val, now);
    }

    method Remove(key: K) returns (ret: bool)
      requires Valid()
      modifies this
      ensures Valid() && State() == Apply(old(State()), Op.Remove(key))
      ensures ret == Lookup(old(State()).entries, key).Some?
    {
      ret := Forget(key);
    }

    method RemoveOldest()
      requires Valid()
      modifies this
      ensures Valid() && State() == Apply(old(State()), Op.RemoveOldest)
    {
      if |list| > 0 {
        DropOldest();
      }
    }

    method Clear()
      requires Valid()
      modifies this
      ensures Valid() && State() == Apply(old(State()), Op.Clear)
    {
      slots := map[];
      list := [];
    }

    method SetSize(n: nat) returns (r: nat)
      requires Valid()
      modifies this
      ensures Valid() && State() == Apply(old(State()), Op.SetSize(n)) && r == size
    {
      if n >= size {
        size := n;
      }
      return size;
    }

    method GetValue(key: K) returns (val: Option<V>)
      requires Valid()
      ensures val.Some? == Lookup(State().entries, key).Some?
      ensures val.Some? ==> val.value == Lookup(State().entries, key).value.value
    {
      ghost var _ := FindLinked(list, slots, key);
      return if key in slots then Some(slots[key].value) else None;
    }

    method GetEntryTs(key: K) returns (ts: nat)
      requires Valid()
      ensures ts == match Lookup(State().entries, key) case Some(e) => e.ts case None => NO_TS
    {
      ghost var _ := FindLinked(list, slots, key);
      return if key in slots then slots[key].node.ts else NO_TS;
    }

    method GetOldestTs() returns (ts: nat)
      requires Valid()
      ensures ts == OldestTs(State().entries)
    {
      return if |list| > 0 then list[0].ts else NO_TS;
    }

    /** The pair the oldest key's map iterator addresses; None stands for end(). */
    method GetOldestPair() returns (pair: Option<(K, V)>)
      requires Valid()
      ensures var es := State().entries;
              pair == if es == [] then None else Some((es[0].key, es[0].value))
    {
      return if |list| > 0 then Some((list[0].key, slots[list[0].key].value)) else None;
    }

    method GetNewestPair() returns (pair: Option<(K, V)>)
      requires Valid()
      ensures var es := State().entries;
              pair == if es == [] then None else Some((es[|es| - 1].key, es[|es| - 1].value))
    {
      return if |list| > 0 then Some((list[|list| - 1].key, slots[list[|list| - 1].key].value)) else None;
    }

    method Count() returns (n: nat)
      requires Valid()
      ensures n == |State().entries| <= size
    {
      return |slots|;
    }
  }
}
