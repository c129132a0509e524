/** SingleLineSerializer (SingleLineSerializer.cpp): key=value pairs separated by spaces. */
module SingleLineSerializers {
  import opened AudioChunks
  import opened Texts
  import opened Escapes
  import opened Serializers
  import opened KeyValueTexts

  const SINGLE_LINE := Format(' ', s => Some(Unescape(Line, s)))

  method AddString(output: string, key: string, value: string) returns (out: string)
    requires NUL !in key
    ensures out == output + PairOf(SINGLE_LINE, (key, Escape(Line, value)))
  {
    var escapedValue := EscapeSingleLine(value);
    var pair := key + "=";
    pair := pair + (escapedValue + " ");
    out := output + pair;
  }

  function LineFields(entries: Entries): (r: Entries)
    ensures |r| == |entries| && forall i :: 0 <= i < |r| ==> r[i] == (entries[i].0, Escape(Line, entries[i].1))
  {
    seq(|entries|, i requires 0 <= i < |entries| => (entries[i].0, Escape(Line, entries[i].1)))
  }

  /** m_output after one AddString call per entry. */
  function LineText(entries: Entries): string {
    TextOf(SINGLE_LINE, LineFields(entries))
  }

  method Serialize(entries: Entries) returns (output: string)
    requires forall i :: 0 <= i < |entries| ==> NUL !in entries[i].0
    ensures output == LineText(entries)
  {
    output := "";
    for i := 0 to |entries|
      invariant output == LineText(entries[..i])
    {
      output := AddString(output, entries[i].0, entries[i].1);
      LineTextOn(entries, i, i + 1);
    }
    assert entries[..|entries|] == entries;
  }

  lemma {:induction false} LineTextOn(entries: Entries, i: nat, j: nat)
    requires i < |entries| && j == i + 1
    ensures LineText(entries[..j])
         == LineText(entries[..i]) + PairOf(SINGLE_LINE, (entries[i].0, Escape(Line, entries[i].1)))
  {
    TextOfSnoc(SINGLE_LINE, LineFields(entries[..i]), LineFields(entries)[i]);
    assert LineFields(entries[..j]) == LineFields(entries[..i]) + [LineFields(entries)[i]];
  }

  /** A value without the white space at its end that is not escaped, which is all but spaces. */
  function DropTail(v: string): string {
    if v != "" && IsSpace(v[|v| - 1]) && v[|v| - 1] != ' ' then DropTail(v[..|v| - 1]) else v
  }

  lemma {:induction false} TrimRightLine(v: string)
    ensures TrimRight(Escape(Line, v)) == Escape(Line, DropTail(v))
  {
    if v != "" {
      var a, c := v[..|v| - 1], v[|v| - 1];
      assert v == a + [c];
      EscapeSnoc(Line, a, c);
      var e := Escape(Line, v);
      assert e[|e| - 1] == EscapeChar(Line, c)[|EscapeChar(Line, c)| - 1];
      if IsSpace(c) && c != ' ' {
        assert e[..|e| - 1] == Escape(Line, a);
        TrimRightLine(a);
      }
    }
  }

  /** The entries with the tail of the last value dropped. */
  function DropLastTail(entries: Entries): (r: Entries)
    ensures |r| == |entries|
  {
    if entries == [] then [] else
      var n := |entries| - 1;
      entries[..n] + [(entries[n].0, DropTail(entries[n].1))]
  }

  lemma {:induction false} LineFieldsAreFields(entries: Entries)
    requires forall i :: 0 <= i < |entries| ==> IsKey(entries[i].0)
    ensures AreFields(SINGLE_LINE, LineFields(entries))
    ensures Unescaped(SINGLE_LINE, LineFields(entries)) == entries
  {
    forall i | 0 <= i < |entries|
      ensures IsField(SINGLE_LINE, LineFields(entries)[i].1) && Unescape(Line, LineFields(entries)[i].1) == entries[i].1
    {
      EscapeClean(Line, entries[i].1, ' ');
      EscapeClean(Line, entries[i].1, '=');
      UnescapeEscape(Line, entries[i].1);
    }
  }

  /** Trimming the output takes off the last separator and whatever unescaped white space the last
      value ends with. */
  lemma {:induction false} TrimOutput(entries: Entries)
    requires entries != [] && forall i :: 0 <= i < |entries| ==> IsKey(entries[i].0)
    ensures var n := |entries| - 1;
            Trim(LineText(entries))
            == LineText(entries[..n]) + (entries[n].0 + "=" + Escape(Line, DropTail(entries[n].1)))
  {
    var n := |entries| - 1;
    var fields := LineFields(entries);
    assert fields == LineFields(entries[..n]) + [fields[n]];
    TextOfSnoc(SINGLE_LINE, LineFields(entries[..n]), fields[n]);
    TextKeepsFront(SINGLE_LINE, fields, "");
    var text := LineText(entries);
    assert text + "" == text;
    TrimBehind(LineText(entries[..n]), entries[n].0, entries[n].1);
  }

  lemma {:induction false} TrimBehind(front: string, k: string, v: string)
    ensures TrimRight(front + (k + "=" + Escape(Line, v) + " ")) == front + (k + "=" + Escape(Line, DropTail(v)))
  {
    var a, e := front + k, Escape(Line, v);
    PairBehind(front, k, e + " ");
    assert k + "=" + (e + " ") == k + "=" + e + " ";
    TrimRightStops(a, '=', e + " ");
    TrimRightSpace(e);
    TrimRightLine(v);
    PairBehind(front, k, Escape(Line, DropTail(v)));
  }

  lemma {:induction false} PairBehind(front: string, k: string, e: string)
    ensures front + (k + "=" + e) == front + k + ['='] + e
  {
  }

  lemma {:induction false} TrimRightSpace(s: string)
    ensures TrimRight(s + " ") == TrimRight(s)
  {
    assert (s + " ")[..|s|] == s;
  }

  lemma {:induction false} InsertAllSnoc(m: map<string, string>, entries: Entries, e: (string, string))
    ensures InsertAll(m, entries + [e]) == Insert(InsertAll(m, entries), e.0, e.1)
    decreases |entries|
  {
    if entries == [] {
      assert [] + [e] == [e] && [e][1..] == [];
    } else {
      assert (entries + [e])[1..] == entries[1..] + [e];
      InsertAllSnoc(Insert(m, entries[0].0, entries[0].1), entries[1..], e);
    }
  }

  /** The output of any list of fields parses back to the fields, empty values included, except that
      the last value loses the white space other than spaces at its end; of equal keys the first wins,
      and the error state is never entered. */
  lemma {:induction false} LineComesBackAs(m: map<string, string>, entries: Entries)
    requires forall i :: 0 <= i < |entries| ==> IsKey(entries[i].0)
    ensures var p := ParseText(SINGLE_LINE, m, LineText(entries));
            p.m == InsertAll(m, DropLastTail(entries)) && p.phase != ErrorState && !p.thrown
  {
    if entries != [] {
      var n := |entries| - 1;
      var (k, v) := entries[n];
      var last := (k, Escape(Line, DropTail(v)));
      TrimOutput(entries);
      LineFieldsAreFields(entries[..n]);
      LineFieldsAreFields([(k, DropTail(v))]);
      assert LineFields([(k, DropTail(v))])[0] == last;
      var m1 := InsertAll(m, entries[..n]);
      RunText(SINGLE_LINE, m, LineFields(entries[..n]), k + "=" + last.1);
      RunLastPair(SINGLE_LINE, m1, last);
      UnescapeEscape(Line, DropTail(v));
      InsertAllSnoc(m, entries[..n], (k, DropTail(v)));
    }
  }

  /** The value does not end with white space other than a space. */
  predicate NoTail(v: string) {
    v == "" || v[|v| - 1] == ' ' || !IsSpace(v[|v| - 1])
  }

  lemma {:induction false} DropTailShortens(v: string)
    ensures |DropTail(v)| <= |v| && (DropTail(v) == v <==> NoTail(v))
  {
    if !NoTail(v) { DropTailShortens(v[..|v| - 1]); }
  }

  lemma {:induction false} DropLastTailIff(entries: Entries)
    requires entries != []
    ensures SameKeys(DropLastTail(entries), entries)
    ensures DropLastTail(entries) == entries <==> NoTail(entries[|entries| - 1].1)
  {
    var n := |entries| - 1;
    DropTailShortens(entries[n].1);
    assert DropLastTail(entries)[n] == (entries[n].0, DropTail(entries[n].1));
    assert entries == entries[..n] + [entries[n]];
  }

  /** Distinct keys come back exactly, into an empty map, if and only if the last value does not end
      with white space other than a space. */
  lemma {:induction false} LineSurvivesIff(m: map<string, string>, entries: Entries)
    requires forall i :: 0 <= i < |entries| ==> IsKey(entries[i].0)
    requires DistinctKeys(entries) && IsMapOf(m, entries)
    ensures ParseText(SINGLE_LINE, map[], LineText(entries)).m == m <==>
            (entries != [] ==> NoTail(entries[|entries| - 1].1))
  {
    LineComesBackAs(map[], entries);
    if entries != [] {
      DropLastTailIff(entries);
      RebuildsIff(m, entries, DropLastTail(entries));
    } else {
      assert m == map[];
    }
  }
}
