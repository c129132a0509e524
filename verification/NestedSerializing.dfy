/** A map inside a message: pair escape, CSV escape and URL or single-line escape on top of each other. */
module NestedSerializing {
  import opened AudioChunks
  import opened Texts
  import opened Escapes
  import opened Serializers
  import opened KeyValueTexts
  import opened UrlSerializers
  import opened SingleLineSerializers

  /** GetString, then GetCsvMap into an empty map; a missing key leaves the string empty. */
  function ReadMap(p: Parser, key: string): MapResult {
    ParseCsvMap(map[], if key in p.m then p.m[key] else "")
  }

  ghost predicate Stripped(entries: Entries) {
    forall i :: 0 <= i < |entries| ==> TrimLeft(entries[i].0) == entries[i].0 && TrimRight(entries[i].1) == entries[i].1
  }

  /** No NUL anywhere in the map. */
  ghost predicate NulFree(entries: Entries) {
    forall i :: 0 <= i < |entries| ==> NUL !in entries[i].0 && NUL !in entries[i].1
  }

  lemma {:induction false} EscapeKeepsNulFree(t: Codes, s: string)
    requires NUL !in s
    ensures NUL !in Escape(t, s)
  {
    if s != "" { EscapeKeepsNulFree(t, s[1..]); }
  }

  lemma {:induction false} JoinKeepsNulFree(elements: seq<string>)
    requires forall i :: 0 <= i < |elements| ==> NUL !in elements[i]
    ensures NUL !in Join(elements)
  {
    if |elements| > 1 { JoinKeepsNulFree(elements[..|elements| - 1]); }
  }

  lemma {:induction false} CsvMapTextNulFree(entries: Entries)
    requires NulFree(entries)
    ensures NUL !in CsvMapText(entries)
  {
    var texts := PairTexts(entries);
    forall i | 0 <= i < |entries| ensures NUL !in Escaped(texts)[i] {
      EscapeKeepsNulFree(Pair, entries[i].0);
      EscapeKeepsNulFree(Pair, entries[i].1);
      EscapeKeepsNulFree(Csv, texts[i]);
    }
    JoinKeepsNulFree(Escaped(texts));
  }

  /** A map whose keys do not begin and whose values do not end with white space, sent as one field of
      any URL message with distinct keys, is read back exactly: the three layers undo each other. */
  lemma {:induction false} MapThroughUrl(m: map<string, string>, entries: Entries, message: Entries, at: nat)
    requires DistinctKeys(entries) && IsMapOf(m, entries) && Stripped(entries) && NulFree(entries)
    requires at < |message| && message[at].1 == CsvMapText(entries) && DistinctKeys(message)
    requires forall i :: 0 <= i < |message| ==> IsKey(message[i].0) && IsText(message[i].1)
    ensures ReadMap(ParseText(URL, map[], UrlText(message)), message[at].0) == Filled(m)
  {
    UrlComesBackAs(map[], message);
    CsvMapTextNulFree(entries);
    CStringIsIdentity(CsvMapText(entries));
    var cut := CutAtNul(message);
    assert SameKeys(cut, message);
    InsertAllDistinct(map[], cut);
    assert InsertAll(map[], cut)[cut[at].0] == cut[at].1;
    CsvMapSurvivesIff(m, entries);
  }

  lemma {:induction false} EscapedEnd(t: Codes, s: string)
    requires t != Line && TrimRight(s) == s
    ensures TrimRight(Escape(t, s)) == Escape(t, s)
  {
    TrimRightEscape(t, s);
  }

  lemma {:induction false} TrimRightFixed(s: string)
    ensures TrimRight(s) == s <==> s == "" || !IsSpace(s[|s| - 1])
  {
    if s != "" && IsSpace(s[|s| - 1]) { TrimRightShortens(s[..|s| - 1]); }
  }

  lemma {:induction false} TrimRightShortens(s: string)
    ensures |TrimRight(s)| <= |s|
  {
    if s != "" && IsSpace(s[|s| - 1]) { TrimRightShortens(s[..|s| - 1]); }
  }

  /** The text of such a map never ends with white space, so the final Trim of a single-line message
      cannot reach it. */
  lemma {:induction false} CsvMapTextHasNoTail(entries: Entries)
    requires Stripped(entries)
    ensures NoTail(CsvMapText(entries))
  {
    if entries != [] {
      var n := |entries| - 1;
      PairEnd(entries[n]);
      var last := Escaped(PairTexts(entries))[n];
      assert last == Escape(Csv, PairText(entries[n]));
      assert CsvMapText(entries)[|CsvMapText(entries)| - 1] == last[|last| - 1];
    }
  }

  lemma {:induction false} PairEnd(e: (string, string))
    requires TrimRight(e.1) == e.1
    ensures var t := Escape(Csv, PairText(e));
            t != "" && !IsSpace(t[|t| - 1])
  {
    EscapedEnd(Pair, e.1);
    TrimRightStops(Escape(Pair, e.0), ':', Escape(Pair, e.1));
    assert PairText(e) == Escape(Pair, e.0) + [':'] + Escape(Pair, e.1);
    EscapedEnd(Csv, PairText(e));
    EscapeEmpty(Csv, PairText(e));
    TrimRightFixed(Escape(Csv, PairText(e)));
  }

  /** The same through any single-line message with distinct keys. */
  lemma {:induction false} MapThroughLine(m: map<string, string>, entries: Entries, message: Entries, at: nat)
    requires DistinctKeys(entries) && IsMapOf(m, entries) && Stripped(entries)
    requires at < |message| && message[at].1 == CsvMapText(entries) && DistinctKeys(message)
    requires forall i :: 0 <= i < |message| ==> IsKey(message[i].0)
    ensures ReadMap(ParseText(SINGLE_LINE, map[], LineText(message)), message[at].0) == Filled(m)
  {
    LineComesBackAs(map[], message);
    CsvMapTextHasNoTail(entries);
    var dropped := DropLastTail(message);
    DroppedKeeps(message, at);
    InsertAllDistinct(map[], dropped);
    assert InsertAll(map[], dropped)[dropped[at].0] == dropped[at].1;
    CsvMapSurvivesIff(m, entries);
  }

  lemma {:induction false} DroppedKeeps(message: Entries, at: nat)
    requires at < |message| && NoTail(message[at].1) && DistinctKeys(message)
    ensures DropLastTail(message)[at] == message[at] && DistinctKeys(DropLastTail(message))
  {
    var n := |message| - 1;
    DropTailShortens(message[n].1);
    assert forall i :: 0 <= i <= n ==> DropLastTail(message)[i].0 == message[i].0;
  }
}
