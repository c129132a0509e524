/** Lists and maps inside one string value: AddCsv, GetCsv, AddCsvMap and GetCsvMap (Serializer.cpp). */
module Serializers {
  import opened AudioChunks
  import opened Texts
  import opened Escapes

  // ---------- Writing ----------

  /** Elements separated by commas. */
  function Join(elements: seq<string>): string {
    if elements == [] then ""
    else if |elements| == 1 then elements[0]
    else Join(elements[..|elements| - 1]) + "," + elements[|elements| - 1]
  }

  function Escaped(elements: seq<string>): (r: seq<string>)
    ensures |r| == |elements| && forall i :: 0 <= i < |r| ==> r[i] == Escape(Csv, elements[i])
  {
    seq(|elements|, i requires 0 <= i < |elements| => Escape(Csv, elements[i]))
  }

  /** The value AddCsv hands to AddString. */
  function CsvText(elements: seq<string>): string {
    Join(Escaped(elements))
  }

  method AddCsv(value: seq<string>) returns (csvString: string)
    ensures csvString == CsvText(value)
  {
    csvString := "";
    var first := true;
    for i := 0 to |value|
      invariant first == (i == 0)
      invariant csvString == CsvText(value[..i])
    {
      if !first {
        csvString := csvString + ",";
      }
      first := false;
      var escapedValue := EscapeCsv(value[i]);
      csvString := csvString + escapedValue;
      assert Escaped(value[..i + 1])[..i] == Escaped(value[..i]);
    }
    assert value[..|value|] == value;
  }

  /** A map as its iteration order: key and value pairs. */
  type Entries = seq<(string, string)>

  function PairText(e: (string, string)): string {
    Escape(Pair, e.0) + ":" + Escape(Pair, e.1)
  }

  function PairTexts(entries: Entries): (r: seq<string>)
    ensures |r| == |entries| && forall i :: 0 <= i < |r| ==> r[i] == PairText(entries[i])
  {
    seq(|entries|, i requires 0 <= i < |entries| => PairText(entries[i]))
  }

  /** The value AddCsvMap hands to AddString. */
  function CsvMapText(entries: Entries): string {
    CsvText(PairTexts(entries))
  }

  method AddCsvMap(value: Entries) returns (csvMapString: string)
    ensures csvMapString == CsvMapText(value)
  {
    csvMapString := "";
    var first := true;
    for i := 0 to |value|
      invariant first == (i == 0)
      invariant csvMapString == CsvMapText(value[..i])
    {
      if !first {
        csvMapString := csvMapString + ",";
      }
      first := false;
      var escapedPairKey := EscapePair(value[i].0);
      var escapedPairVal := EscapePair(value[i].1);
      var csvElement := escapedPairKey + ":" + escapedPairVal;
      var escapedCsvElement := EscapeCsv(csvElement);
      csvMapString := csvMapString + escapedCsvElement;
      assert Escaped(PairTexts(value[..i + 1]))[..i] == Escaped(PairTexts(value[..i]));
    }
    assert value[..|value|] == value;
  }

  // ---------- Reading ----------

  /** The stretches between commas; the last one is what follows the last comma. */
  function Split(s: string): (r: seq<string>)
    ensures |r| > 0
  {
    if s == "" then [""]
    else
      var before, c := Split(s[..|s| - 1]), s[|s| - 1];
      if c == ',' then before + [""] else before[..|before| - 1] + [before[|before| - 1] + [c]]
  }

  function Element(raw: string): string {
    Unescape(Csv, Trim(raw))
  }

  function ElementsOf(raws: seq<string>): (r: seq<string>)
    ensures |r| == |raws| && forall i :: 0 <= i < |r| ==> r[i] == Element(raws[i])
  {
    seq(|raws|, i requires 0 <= i < |raws| => Element(raws[i]))
  }

  /** The elements GetCsv finds: the last stretch counts only if it is not empty. */
  function CsvElements(s: string): seq<string> {
    var raws := Split(s);
    ElementsOf(if raws[|raws| - 1] == "" then raws[..|raws| - 1] else raws)
  }

  lemma {:induction false} SplitSnoc(s: string, c: char)
    ensures var before := Split(s);
            Split(s + [c]) == if c == ',' then before + [""]
                              else before[..|before| - 1] + [before[|before| - 1] + [c]]
  {
    assert (s + [c])[..|s|] == s;
  }

  lemma {:induction false} ElementsOfSnoc(raws: seq<string>, raw: string)
    ensures ElementsOf(raws + [raw]) == ElementsOf(raws) + [Element(raw)]
  {
  }

  method PushElement(value: seq<string>, first: bool, element: string) returns (r: seq<string>)
    ensures r == (if first then [] else value) + [Element(element)]
  {
    r := if first then [] else value;
    var unescapedElement := UnEscapeCsv(Trim(element));
    r := r + [unescapedElement];
  }

  /** The stretches of `front` are `closed` and, still open, `element`; r is what they make of value. */
  ghost predicate Scanned(front: string, value: seq<string>, closed: seq<string>, element: string, r: seq<string>) {
    Split(front) == closed + [element] && r == if closed == [] then value else ElementsOf(closed)
  }

  lemma {:induction false} ScanComma(front: string, value: seq<string>, closed: seq<string>, element: string,
                                     r: seq<string>)
    requires Scanned(front, value, closed, element, r)
    ensures Scanned(front + [','], value, closed + [element], "",
                    (if closed == [] then [] else r) + [Element(element)])
  {
    SplitSnoc(front, ',');
    ElementsOfSnoc(closed, element);
    assert ElementsOf([]) == [];
  }

  lemma {:induction false} ScanOther(front: string, value: seq<string>, closed: seq<string>, element: string,
                                     r: seq<string>, c: char)
    requires Scanned(front, value, closed, element, r) && c != ','
    ensures Scanned(front + [c], value, closed, element + [c], r)
  {
    SplitSnoc(front, c);
    assert (closed + [element])[..|closed|] == closed;
  }

  lemma {:induction false} ScanDone(s: string, value: seq<string>, closed: seq<string>, element: string, r: seq<string>)
    requires Scanned(s, value, closed, element, r)
    ensures var found := if element == "" then ElementsOf(closed) else ElementsOf(closed + [element]);
            CsvElements(s) == found
    ensures element != "" ==> ElementsOf(closed + [element]) == (if closed == [] then [] else r) + [Element(element)]
  {
    assert (closed + [element])[..|closed|] == closed;
    ElementsOfSnoc(closed, element);
    assert ElementsOf([]) == [];
  }

  /** GetCsv: a list that held `value` before; the old contents stay if nothing is found. */
  method GetCsv(value: seq<string>, stringValue: string) returns (r: seq<string>)
    ensures r == if CsvElements(stringValue) == [] then value else CsvElements(stringValue)
  {
    r := value;
    var element := "";
    var first := true;
    ghost var closed: seq<string> := [];
    for i := 0 to |stringValue|
      invariant first == (closed == []) && Scanned(stringValue[..i], value, closed, element, r)
    {
      var c := stringValue[i];
      ghost var front := stringValue[..i];
      assert stringValue[..i + 1] == front + [c];
      if c == ',' {
        ScanComma(front, value, closed, element, r);
        r := PushElement(r, first, element);
        first := false;
        closed := closed + [element];
        element := "";
      } else {
        ScanOther(front, value, closed, element, r, c);
        element := element + [c];
      }
    }
    assert stringValue[..|stringValue|] == stringValue;
    ScanDone(stringValue, value, closed, element, r);
    if element != "" {
      r := PushElement(r, first, element);
    }
  }

  datatype MapResult = Filled(m: map<string, string>) | MissingColon(m: map<string, string>)

  /** std::map::insert: an existing key keeps its value. */
  function Insert(m: map<string, string>, k: string, v: string): map<string, string> {
    if k in m then m else m[k := v]
  }

  /** The elements taken as key:value pairs, up to the first without a colon. */
  function FillMap(m: map<string, string>, elements: seq<string>): MapResult
    decreases |elements|
  {
    if elements == [] then Filled(m)
    else
      match Pairing(elements[0])
      case None => MissingColon(m)
      case Some((k, v)) => FillMap(Insert(m, k, v), elements[1..])
  }

  /** GetCsvMap on a map that holds m already. */
  function ParseCsvMap(m: map<string, string>, s: string): MapResult {
    FillMap(m, CsvElements(s))
  }

  /** One element of the list, if it has a colon. */
  function Pairing(element: string): Option<(string, string)> {
    var colon := Find(element, ':');
    if colon == -1 then None else Some((Unescape(Pair, element[..colon]), Unescape(Pair, element[colon + 1..])))
  }

  method GetCsvMap(m: map<string, string>, stringValue: string) returns (r: MapResult)
    ensures r == ParseCsvMap(m, stringValue)
  {
    var csvList := GetCsv([], stringValue);
    var value := m;
    for i := 0 to |csvList|
      invariant FillMap(m, csvList) == FillMap(value, csvList[i..])
    {
      var pair := SplitPair(csvList[i]);
      assert csvList[i..][1..] == csvList[i + 1..];
      if pair == None {
        return MissingColon(value);
      }
      value := Insert(value, pair.value.0, pair.value.1);
    }
    return Filled(value);
  }

  method SplitPair(keyValuePair: string) returns (pair: Option<(string, string)>)
    ensures pair == Pairing(keyValuePair)
  {
    var colonPos := Find(keyValuePair, ':');
    if colonPos == -1 {
      return None;
    }
    var unescapedKey := UnEscapePair(keyValuePair[..colonPos]);
    var unescapedVal := UnEscapePair(keyValuePair[colonPos + 1..]);
    return Some((unescapedKey, unescapedVal));
  }

  // ---------- Round trips ----------

  lemma {:induction false} SplitAtLastComma(a: string, b: string)
    requires ',' !in b
    ensures Split(a + "," + b) == Split(a) + [b]
  {
    var s := a + "," + b;
    if b == "" {
      assert s[..|s| - 1] == a;
    } else {
      var b0, c := b[..|b| - 1], b[|b| - 1];
      assert s[..|s| - 1] == a + "," + b0;
      assert b == b0 + [c];
      SplitAtLastComma(a, b0);
    }
  }

  lemma {:induction false} SplitPlain(b: string)
    requires ',' !in b
    ensures Split(b) == [b]
  {
    if b != "" {
      SplitPlain(b[..|b| - 1]);
      assert b == b[..|b| - 1] + [b[|b| - 1]];
    }
  }

  lemma {:induction false} SplitJoin(elements: seq<string>)
    requires elements != [] && forall i :: 0 <= i < |elements| ==> ',' !in elements[i]
    ensures Split(Join(elements)) == elements
  {
    var n := |elements| - 1;
    if n == 0 {
      SplitPlain(elements[0]);
    } else {
      SplitJoin(elements[..n]);
      SplitAtLastComma(Join(elements[..n]), elements[n]);
      assert elements[..n] + [elements[n]] == elements;
    }
  }

  function Trimmed(elements: seq<string>): (r: seq<string>)
    ensures |r| == |elements| && forall i :: 0 <= i < |r| ==> r[i] == Trim(elements[i])
  {
    seq(|elements|, i requires 0 <= i < |elements| => Trim(elements[i]))
  }

  lemma {:induction false} ElementEscape(x: string)
    ensures Element(Escape(Csv, x)) == Trim(x)
  {
    TrimEscape(Csv, x);
    UnescapeEscape(Csv, Trim(x));
  }

  lemma {:induction false} CsvElementsOfJoin(raws: seq<string>)
    requires raws != [] && forall i :: 0 <= i < |raws| ==> ',' !in raws[i]
    ensures CsvElements(Join(raws)) == ElementsOf(if raws[|raws| - 1] == "" then raws[..|raws| - 1] else raws)
  {
    SplitJoin(raws);
  }

  lemma {:induction false} ElementsEscaped(elements: seq<string>)
    ensures ElementsOf(Escaped(elements)) == Trimmed(elements)
  {
    forall i | 0 <= i < |elements| ensures Element(Escape(Csv, elements[i])) == Trim(elements[i]) {
      ElementEscape(elements[i]);
    }
  }

  /** What any list comes back as: every element trimmed, and an empty last element gone. */
  lemma {:induction false} CsvComesBackAs(elements: seq<string>)
    ensures CsvElements(CsvText(elements)) ==
            Trimmed(if elements != [] && elements[|elements| - 1] == "" then elements[..|elements| - 1] else elements)
  {
    var esc := Escaped(elements);
    if elements == [] {
      assert Split("") == [""] && Trimmed(elements) == [];
    } else {
      var n := |elements| - 1;
      forall i | 0 <= i < |elements| ensures ',' !in esc[i] {
        EscapeClean(Csv, elements[i], ',');
      }
      CsvElementsOfJoin(esc);
      EscapeEmpty(Csv, elements[n]);
      assert esc[..n] == Escaped(elements[..n]);
      ElementsEscaped(elements[..n]);
      ElementsEscaped(elements);
    }
  }

  /** A list survives AddCsv and GetCsv if and only if no element has white space at either end and
      the last element is not empty. */
  lemma {:induction false} CsvSurvivesIff(elements: seq<string>)
    ensures CsvElements(CsvText(elements)) == elements <==>
            (forall x :: x in elements ==> Trim(x) == x) && (elements != [] ==> elements[|elements| - 1] != "")
  {
    CsvComesBackAs(elements);
    TrimmedIff(elements);
    if elements != [] && elements[|elements| - 1] == "" {
      assert |Trimmed(elements[..|elements| - 1])| < |elements|;
    }
  }

  lemma {:induction false} TrimmedIff(elements: seq<string>)
    ensures Trimmed(elements) == elements <==> forall x :: x in elements ==> Trim(x) == x
  {
    if Trimmed(elements) == elements {
      forall x | x in elements ensures Trim(x) == x {
        var i :| 0 <= i < |elements| && elements[i] == x;
        assert Trimmed(elements)[i] == Trim(elements[i]);
      }
    } else {
      var i :| 0 <= i < |elements| && Trimmed(elements)[i] != elements[i];
      assert elements[i] in elements;
    }
  }

  function StripPair(e: (string, string)): (string, string) {
    (TrimLeft(e.0), TrimRight(e.1))
  }

  /** The pairs inserted one after another. */
  function InsertAll(m: map<string, string>, entries: Entries): map<string, string>
    decreases |entries|
  {
    if entries == [] then m else InsertAll(Insert(m, entries[0].0, entries[0].1), entries[1..])
  }

  function StripAll(entries: Entries): (r: Entries)
    ensures |r| == |entries| && forall i :: 0 <= i < |r| ==> r[i] == StripPair(entries[i])
  {
    seq(|entries|, i requires 0 <= i < |entries| => StripPair(entries[i]))
  }

  lemma {:induction false} TrimPairText(e: (string, string))
    ensures Trim(PairText(e)) == PairText(StripPair(e))
  {
    var k, v := Escape(Pair, e.0), Escape(Pair, e.1);
    assert PairText(e) == k + [':'] + v;
    TrimLeftStops(k, ':', v);
    TrimRightStops(TrimLeft(k), ':', v);
    TrimLeftEscape(Pair, e.0);
    TrimRightEscape(Pair, e.1);
  }

  lemma {:induction false} FillFromPairs(m: map<string, string>, entries: Entries)
    ensures FillMap(m, PairTexts(entries)) == Filled(InsertAll(m, entries))
    decreases |entries|
  {
    if entries != [] {
      var k, v := Escape(Pair, entries[0].0), Escape(Pair, entries[0].1);
      var text := PairTexts(entries)[0];
      assert text == k + [':'] + v;
      EscapeClean(Pair, entries[0].0, ':');
      FindAt(k, ':', v);
      assert text[..|k|] == k && text[|k| + 1..] == v;
      UnescapeEscape(Pair, entries[0].0);
      UnescapeEscape(Pair, entries[0].1);
      assert PairTexts(entries)[1..] == PairTexts(entries[1..]);
      FillFromPairs(Insert(m, entries[0].0, entries[0].1), entries[1..]);
    }
  }

  /** What any map comes back as: keys lose white space in front, values behind, and of keys that
      fall together the first wins. No colon is ever missing. */
  lemma {:induction false} CsvMapComesBackAs(m: map<string, string>, entries: Entries)
    ensures ParseCsvMap(m, CsvMapText(entries)) == Filled(InsertAll(m, StripAll(entries)))
  {
    var texts := PairTexts(entries);
    CsvComesBackAs(texts);
    forall i | 0 <= i < |texts| ensures Trim(texts[i]) == PairText(StripPair(entries[i])) {
      TrimPairText(entries[i]);
    }
    assert Trimmed(texts) == PairTexts(StripAll(entries));
    FillFromPairs(m, StripAll(entries));
  }

  // ---------- What else comes in ----------

  /** The stretches of a text have no commas and make it up (by SplitJoin they are the only ones to do so). */
  lemma {:induction false} SplitIs(s: string)
    ensures Join(Split(s)) == s && forall i :: 0 <= i < |Split(s)| ==> ',' !in Split(s)[i]
  {
    if s != "" {
      var front, c := s[..|s| - 1], s[|s| - 1];
      SplitIs(front);
      JoinGrows(Split(front), c);
      assert front + [c] == s;
    }
  }

  lemma {:induction false} JoinGrows(elements: seq<string>, c: char)
    requires elements != []
    ensures Join(elements + [""]) == Join(elements) + ","
    ensures var n := |elements| - 1;
            Join(elements[..n] + [elements[n] + [c]]) == Join(elements) + [c]
  {
    var n := |elements| - 1;
    assert (elements + [""])[..n + 1] == elements;
    var longer := elements[..n] + [elements[n] + [c]];
    assert longer[..n] == elements[..n];
    if n > 0 {
      assert Join(elements[..n]) + "," + (elements[n] + [c]) == Join(elements[..n]) + "," + elements[n] + [c];
    }
  }

  /** What GetCsv makes of any text of stretches without commas: each trimmed and unescaped, an empty last
      one left out; so it finds nothing, and leaves the list as it was, exactly in an empty text. */
  lemma {:induction false} CsvElementsAre(raws: seq<string>)
    requires raws != [] && forall i :: 0 <= i < |raws| ==> ',' !in raws[i]
    ensures var n := if raws[|raws| - 1] == "" then |raws| - 1 else |raws|;
            && |CsvElements(Join(raws))| == n
            && forall i :: 0 <= i < n ==> CsvElements(Join(raws))[i] == Unescape(Csv, Trim(raws[i]))
    ensures CsvElements(Join(raws)) == [] <==> Join(raws) == ""
  {
    CsvElementsOfJoin(raws);
    if raws == [""] {
      assert Join(raws) == "";
    }
    if Join(raws) == "" {
      SplitJoin(raws);
      assert Split("") == [""];
    }
  }

  /** GetCsvMap throws if and only if some element has no colon; what came before the first such one has
      been inserted by then. */
  lemma {:induction false} MissingColonIff(m: map<string, string>, elements: seq<string>)
    ensures FillMap(m, elements).MissingColon? <==> exists i :: 0 <= i < |elements| && ':' !in elements[i]
    ensures forall i :: 0 <= i < |elements| && ':' !in elements[i] && (forall j :: 0 <= j < i ==> ':' in elements[j])
              ==> FillMap(m, elements) == MissingColon(FillMap(m, elements[..i]).m)
    decreases |elements|
  {
    if elements != [] && ':' in elements[0] {
      var pair, rest := Pairing(elements[0]).value, elements[1..];
      var m1 := Insert(m, pair.0, pair.1);
      MissingColonIff(m1, rest);
      if i :| 0 <= i < |elements| && ':' !in elements[i] {
        assert rest[i - 1] == elements[i];
      }
      forall i | 0 <= i < |elements| && ':' !in elements[i] && (forall j :: 0 <= j < i ==> ':' in elements[j])
        ensures FillMap(m, elements) == MissingColon(FillMap(m, elements[..i]).m)
      {
        assert rest[i - 1] == elements[i] && forall j :: 0 <= j < i - 1 ==> rest[j] == elements[j + 1];
        assert elements[..i][1..] == rest[..i - 1];
      }
    }
  }

  /** The colon that counts is the first one; both sides are unescaped. */
  lemma {:induction false} PairingIs(key: string, value: string)
    requires ':' !in key
    ensures Pairing(key + ":" + value) == Some((Unescape(Pair, key), Unescape(Pair, value)))
  {
    var text := key + [':'] + value;
    FindAt(key, ':', value);
    assert text[..|key|] == key && text[|key| + 1..] == value;
  }

  /** A key keeps the value it has in the map, or else gets the first one inserted for it. */
  lemma {:induction false} FirstWins(m: map<string, string>, entries: Entries, i: nat)
    requires i < |entries|
    ensures var k := entries[i].0;
            && k in InsertAll(m, entries)
            && (k in m ==> InsertAll(m, entries)[k] == m[k])
            && (k !in m && (forall j :: 0 <= j < i ==> entries[j].0 != k) ==> InsertAll(m, entries)[k] == entries[i].1)
    decreases |entries|
  {
    var m1, rest := Insert(m, entries[0].0, entries[0].1), entries[1..];
    if i > 0 {
      assert rest[i - 1] == entries[i] && forall j :: 0 <= j < i - 1 ==> rest[j] == entries[j + 1];
      FirstWins(m1, rest, i - 1);
    } else {
      InsertAllKeeps(m1, rest, entries[0].0);
    }
  }

  lemma {:induction false} InsertAllKeeps(m: map<string, string>, entries: Entries, k: string)
    requires k in m
    ensures k in InsertAll(m, entries) && InsertAll(m, entries)[k] == m[k]
    decreases |entries|
  {
    if entries != [] { InsertAllKeeps(Insert(m, entries[0].0, entries[0].1), entries[1..], k); }
  }

  ghost predicate DistinctKeys(entries: Entries) {
    forall i, j :: 0 <= i < j < |entries| ==> entries[i].0 != entries[j].0
  }

  /** The map whose iteration is `entries`. */
  ghost predicate IsMapOf(m: map<string, string>, entries: Entries) {
    && (forall k :: k in m <==> exists i :: 0 <= i < |entries| && entries[i].0 == k)
    && (forall i :: 0 <= i < |entries| ==> entries[i].0 in m && m[entries[i].0] == entries[i].1)
  }

  lemma {:induction false} InsertAllDistinct(m: map<string, string>, entries: Entries)
    requires DistinctKeys(entries) && forall i :: 0 <= i < |entries| ==> entries[i].0 !in m
    ensures var r := InsertAll(m, entries);
            && (forall k :: k in r <==> k in m || exists i :: 0 <= i < |entries| && entries[i].0 == k)
            && (forall k :: k in m ==> k in r && r[k] == m[k])
            && (forall i :: 0 <= i < |entries| ==> r[entries[i].0] == entries[i].1)
    decreases |entries|
  {
    if entries != [] {
      InsertAllDistinct(m[entries[0].0 := entries[0].1], entries[1..]);
      forall i | 0 <= i < |entries|
        ensures entries[i].0 in InsertAll(m, entries) && InsertAll(m, entries)[entries[i].0] == entries[i].1
      {
        if i > 0 { assert entries[i] == entries[1..][i - 1]; }
      }
      forall k | k in InsertAll(m, entries) && k !in m ensures exists i :: 0 <= i < |entries| && entries[i].0 == k {
        InsertAllKeys(m, entries, k);
      }
    }
  }

  /** Every key that comes back was a key in `entries` without its leading white space. */
  lemma {:induction false} InsertAllKeys(m: map<string, string>, entries: Entries, k: string)
    requires k in InsertAll(m, entries)
    ensures k in m || exists i :: 0 <= i < |entries| && entries[i].0 == k
    decreases |entries|
  {
    if entries != [] {
      InsertAllKeys(Insert(m, entries[0].0, entries[0].1), entries[1..], k);
      if k !in m && k != entries[0].0 {
        var j :| 0 <= j < |entries[1..]| && entries[1..][j].0 == k;
        assert entries[j + 1].0 == k;
      }
    }
  }

  ghost predicate SameKeys(a: Entries, b: Entries) {
    |a| == |b| && forall i :: 0 <= i < |a| ==> a[i].0 == b[i].0
  }

  lemma {:induction false} MapOfIsUnique(m: map<string, string>, n: map<string, string>, entries: Entries)
    requires IsMapOf(m, entries) && IsMapOf(n, entries)
    ensures m == n
  {
    forall k | k in m ensures k in n && m[k] == n[k] {
      var i :| 0 <= i < |entries| && entries[i].0 == k;
    }
    forall k | k in n ensures k in m {
      var i :| 0 <= i < |entries| && entries[i].0 == k;
    }
  }

  /** Entries with the keys of a map's iteration rebuild the map if and only if they are its
      iteration. */
  lemma {:induction false} RebuildsIff(m: map<string, string>, entries: Entries, changed: Entries)
    requires DistinctKeys(entries) && IsMapOf(m, entries) && SameKeys(changed, entries)
    ensures InsertAll(map[], changed) == m <==> changed == entries
  {
    InsertAllDistinct(map[], changed);
    var r := InsertAll(map[], changed);
    if r == m {
      forall i | 0 <= i < |entries| ensures changed[i] == entries[i] {
        assert r[changed[i].0] == changed[i].1 && m[entries[i].0] == entries[i].1;
      }
    }
    if changed == entries {
      assert IsMapOf(r, entries);
      MapOfIsUnique(m, r, entries);
    }
  }

  lemma {:induction false} SurvivorKeepsKeys(m: map<string, string>, entries: Entries)
    requires IsMapOf(m, entries) && InsertAll(map[], StripAll(entries)) == m
    ensures SameKeys(StripAll(entries), entries)
  {
    var stripped := StripAll(entries);
    forall i | 0 <= i < |entries| ensures stripped[i].0 == entries[i].0 {
      InsertAllKeys(map[], stripped, entries[i].0);
      var j :| 0 <= j < |stripped| && stripped[j].0 == entries[i].0;
      TrimLeftResult(entries[j].0);
    }
  }

  lemma {:induction false} StrippedIff(entries: Entries)
    ensures StripAll(entries) == entries <==>
            forall i :: 0 <= i < |entries| ==>
              TrimLeft(entries[i].0) == entries[i].0 && TrimRight(entries[i].1) == entries[i].1
  {
    forall i | 0 <= i < |entries|
      ensures StripAll(entries)[i] == entries[i] <==>
              TrimLeft(entries[i].0) == entries[i].0 && TrimRight(entries[i].1) == entries[i].1
    {
    }
  }

  /** A map survives AddCsvMap and GetCsvMap into an empty map if and only if no key begins and no
      value ends with white space. */
  lemma {:induction false} CsvMapSurvivesIff(m: map<string, string>, entries: Entries)
    requires DistinctKeys(entries) && IsMapOf(m, entries)
    ensures ParseCsvMap(map[], CsvMapText(entries)) == Filled(m) <==>
            forall i :: 0 <= i < |entries| ==>
              TrimLeft(entries[i].0) == entries[i].0 && TrimRight(entries[i].1) == entries[i].1
  {
    CsvMapComesBackAs(map[], entries);
    var stripped := StripAll(entries);
    if InsertAll(map[], stripped) == m {
      SurvivorKeepsKeys(m, entries);
    }
    if SameKeys(stripped, entries) {
      RebuildsIff(m, entries, stripped);
    }
    StrippedIff(entries);
  }
}
