/** The character state machine that UrlSerializer::DeSerialize and SingleLineSerializer::DeSerialize
    share. They differ in the separator after a value and in how a value is unescaped. */
module KeyValueTexts {
  import opened AudioChunks
  import opened Texts
  import opened Serializers

  datatype Phase = StartState | KeyState | ValueState | ErrorState

  /** The local variables of DeSerialize and m_map. `thrown` is an exception leaving the loop. */
  datatype Parser = Parser(phase: Phase, key: string, value: string, m: map<string, string>, thrown: bool)

  /** The separator and the unescaping of a format; None stands for an exception. */
  datatype Format = Format(separator: char, unescape: string -> Option<string>)

  /** One character, up to the end of the switch. */
  function Read(f: Format, p: Parser, c: char): Parser {
    match p.phase
    case StartState =>
      if c == f.separator then p
      else if IsAlnum(c) then p.(phase := KeyState, key := [c])
      else p.(phase := ErrorState)
    case KeyState =>
      if IsAlnum(c) then p.(key := p.key + [c])
      else if c == '=' then p.(phase := ValueState, value := "")
      else p.(phase := ErrorState)
    case ValueState =>
      if c == '=' then p.(phase := ErrorState)
      else if c == f.separator then p.(phase := StartState)
      else p.(value := p.value + [c])
    case ErrorState => p
  }

  /** Storing a finished pair. */
  function Store(f: Format, p: Parser): Parser {
    if p.key == "" then p
    else
      match f.unescape(p.value)
      case None => p.(thrown := true)
      case Some(v) => p.(m := Insert(p.m, p.key, v), key := "", value := "")
  }

  /** The rest of the loop: it ends in the error state and when an exception is thrown. */
  function Run(f: Format, p: Parser, input: string): Parser
    decreases |input|
  {
    if input == "" || p.phase == ErrorState || p.thrown then p
    else
      var q := Read(f, p, input[0]);
      Run(f, if q.phase == StartState || |input| == 1 then Store(f, q) else q, input[1..])
  }

  function Start(m: map<string, string>): Parser {
    Parser(StartState, "", "", m, false)
  }

  /** DeSerialize on a serializer whose map is m. */
  function ParseText(f: Format, m: map<string, string>, input: string): Parser {
    Run(f, Start(m), Trim(input))
  }

  method DeSerialize(f: Format, m: map<string, string>, input: string) returns (p: Parser)
    ensures p == ParseText(f, m, input)
  {
    var text := Trim(input);
    p := Start(m);
    var i := 0;
    while i < |text| && p.phase != ErrorState && !p.thrown
      invariant 0 <= i <= |text|
      invariant Run(f, Start(m), text) == Run(f, p, text[i..])
    {
      assert text[i..][1..] == text[i + 1..];
      p := Read(f, p, text[i]);
      if p.phase == StartState || i == |text| - 1 {
        p := Store(f, p);
      }
      i := i + 1;
    }
  }

  // ---------- Texts made of key=value pairs ----------

  predicate IsKey(k: string) {
    k != "" && forall i :: 0 <= i < |k| ==> IsAlnum(k[i])
  }

  /** A value as it stands in the text: it has neither the separator nor '=' and can be unescaped. */
  predicate IsField(f: Format, e: string) {
    '=' !in e && f.separator !in e && f.unescape(e).Some?
  }

  predicate AreFields(f: Format, fields: Entries) {
    forall i :: 0 <= i < |fields| ==> IsKey(fields[i].0) && IsField(f, fields[i].1)
  }

  function PairOf(f: Format, field: (string, string)): string {
    field.0 + "=" + field.1 + [f.separator]
  }

  /** What repeated AddString calls append to m_output. */
  function TextOf(f: Format, fields: Entries): string {
    if fields == [] then "" else PairOf(f, fields[0]) + TextOf(f, fields[1..])
  }

  function Unescaped(f: Format, fields: Entries): (r: Entries)
    requires AreFields(f, fields)
    ensures |r| == |fields| && forall i :: 0 <= i < |r| ==> r[i] == (fields[i].0, f.unescape(fields[i].1).value)
  {
    seq(|fields|, i requires 0 <= i < |fields| => (fields[i].0, f.unescape(fields[i].1).value))
  }

  /** Reading on through a key. */
  lemma {:induction false} RunKey(f: Format, p: Parser, k: string, rest: string)
    requires p.phase == KeyState && !p.thrown && (forall i :: 0 <= i < |k| ==> IsAlnum(k[i])) && rest != ""
    ensures Run(f, p, k + rest) == Run(f, p.(key := p.key + k), rest)
    decreases |k|
  {
    if k == "" {
      assert "" + rest == rest && p.key + "" == p.key;
    } else {
      assert (k + rest)[0] == k[0] && (k + rest)[1..] == k[1..] + rest;
      RunKey(f, p.(key := p.key + [k[0]]), k[1..], rest);
      assert p.key + [k[0]] + k[1..] == p.key + k;
    }
  }

  /** Reading on through a value that is not the end of the text. */
  lemma {:induction false} RunValue(f: Format, p: Parser, e: string, rest: string)
    requires p.phase == ValueState && !p.thrown && '=' !in e && f.separator !in e && rest != ""
    ensures Run(f, p, e + rest) == Run(f, p.(value := p.value + e), rest)
    decreases |e|
  {
    if e == "" {
      assert "" + rest == rest && p.value + "" == p.value;
    } else {
      assert (e + rest)[0] == e[0] && (e + rest)[1..] == e[1..] + rest;
      RunValue(f, p.(value := p.value + [e[0]]), e[1..], rest);
      assert p.value + [e[0]] + e[1..] == p.value + e;
    }
  }

  /** From the start of a pair to just after its '='; `rest` may be empty, and then the pair is
      stored with an empty value. */
  lemma {:induction false} RunToValue(f: Format, m: map<string, string>, k: string, rest: string)
    requires IsKey(k) && !IsAlnum(f.separator)
    ensures var p := Parser(ValueState, k, "", m, false);
            Run(f, Start(m), k + "=" + rest) == if rest == "" then Store(f, p) else Run(f, p, rest)
  {
    var text := k + "=" + rest;
    assert text[1..] == k[1..] + ("=" + rest);
    var p := Start(m).(phase := KeyState, key := [k[0]]);
    RunKey(f, p, k[1..], "=" + rest);
    assert [k[0]] + k[1..] == k;
    assert ("=" + rest)[1..] == rest;
  }

  /** A pair with its separator is stored, and the machine is back at the start. */
  lemma {:induction false} RunPair(f: Format, m: map<string, string>, field: (string, string), rest: string)
    requires IsKey(field.0) && IsField(f, field.1) && !IsAlnum(f.separator) && f.separator != '='
    ensures Run(f, Start(m), PairOf(f, field) + rest)
         == Run(f, Start(Insert(m, field.0, f.unescape(field.1).value)), rest)
  {
    var (k, e) := field;
    var after := [f.separator] + rest;
    assert PairOf(f, field) + rest == k + "=" + (e + after);
    RunToValue(f, m, k, e + after);
    var p := Parser(ValueState, k, "", m, false);
    RunValue(f, p, e, after);
    assert "" + e == e;
    assert after[1..] == rest;
  }

  /** A last pair without separator, its value not empty, is stored at the last character. */
  lemma {:induction false} RunLastValue(f: Format, p: Parser, e: string)
    requires p.phase == ValueState && !p.thrown && e != "" && '=' !in e && f.separator !in e
    ensures Run(f, p, e) == Store(f, p.(value := p.value + e))
    decreases |e|
  {
    if |e| == 1 {
      assert p.value + [e[0]] == p.value + e;
    } else {
      RunLastValue(f, p.(value := p.value + [e[0]]), e[1..]);
      assert p.value + [e[0]] + e[1..] == p.value + e;
    }
  }

  lemma {:induction false} RunLastPair(f: Format, m: map<string, string>, field: (string, string))
    requires IsKey(field.0) && IsField(f, field.1) && !IsAlnum(f.separator)
    ensures var p := Run(f, Start(m), field.0 + "=" + field.1);
            p.m == Insert(m, field.0, f.unescape(field.1).value) && p.phase == ValueState && !p.thrown
  {
    var (k, e) := field;
    RunToValue(f, m, k, e);
    if e != "" {
      RunLastValue(f, Parser(ValueState, k, "", m, false), e);
      assert "" + e == e;
    }
  }

  /** A text of complete pairs fills the map with the unescaped values, the first of a key winning,
      and never enters the error state. */
  lemma {:induction false} RunText(f: Format, m: map<string, string>, fields: Entries, rest: string)
    requires AreFields(f, fields) && !IsAlnum(f.separator) && f.separator != '='
    ensures Run(f, Start(m), TextOf(f, fields) + rest) == Run(f, Start(InsertAll(m, Unescaped(f, fields))), rest)
    decreases |fields|
  {
    if fields == [] {
      assert "" + rest == rest;
    } else {
      var more := TextOf(f, fields[1..]) + rest;
      assert TextOf(f, fields) + rest == PairOf(f, fields[0]) + more;
      RunPair(f, m, fields[0], more);
      var m1 := Insert(m, fields[0].0, f.unescape(fields[0].1).value);
      assert Unescaped(f, fields)[1..] == Unescaped(f, fields[1..]);
      RunText(f, m1, fields[1..], rest);
    }
  }

  lemma {:induction false} TextOfSnoc(f: Format, fields: Entries, field: (string, string))
    ensures TextOf(f, fields + [field]) == TextOf(f, fields) + PairOf(f, field)
  {
    if fields == [] {
      assert [] + [field] == [field];
      assert [field][1..] == [];
      assert PairOf(f, field) + "" == PairOf(f, field) == "" + PairOf(f, field);
    } else {
      assert (fields + [field])[1..] == fields[1..] + [field];
      TextOfSnoc(f, fields[1..], field);
    }
  }

  /** The text starts with a key, so trimming takes nothing off its front. */
  lemma {:induction false} TextKeepsFront(f: Format, fields: Entries, rest: string)
    requires fields != [] && IsKey(fields[0].0)
    ensures TrimLeft(TextOf(f, fields) + rest) == TextOf(f, fields) + rest
  {
    assert (TextOf(f, fields) + rest)[0] == fields[0].0[0];
  }

  // ---------- What the machine rejects ----------

  /** Separators before a key are skipped. */
  lemma {:induction false} SeparatorsSkipped(f: Format, m: map<string, string>, rest: string)
    ensures Run(f, Start(m), [f.separator] + rest) == Run(f, Start(m), rest)
  {
    assert ([f.separator] + rest)[1..] == rest;
  }

  /** Behind complete pairs a key cannot begin with anything but a letter or digit; what was read stays. */
  lemma {:induction false} BadStart(f: Format, m: map<string, string>, fields: Entries, c: char, rest: string)
    requires AreFields(f, fields) && !IsAlnum(f.separator) && f.separator != '='
    requires !IsAlnum(c) && c != f.separator
    ensures var p := Run(f, Start(m), TextOf(f, fields) + ([c] + rest));
            p.phase == ErrorState && p.m == InsertAll(m, Unescaped(f, fields))
  {
    RunText(f, m, fields, [c] + rest);
  }

  /** In a key nothing else may come either, except '='; what follows does not matter. Only if nothing
      follows the unfinished key is stored, with an empty value. */
  lemma {:induction false} BadKey(f: Format, m: map<string, string>, fields: Entries, k: string, c: char, rest: string)
    requires AreFields(f, fields) && !IsAlnum(f.separator) && f.separator != '='
    requires IsKey(k) && !IsAlnum(c) && c != '=' && f.unescape("").Some?
    ensures var p := Run(f, Start(m), TextOf(f, fields) + (k + ([c] + rest)));
            var filled := InsertAll(m, Unescaped(f, fields));
            && p.phase == ErrorState
            && p.m == if rest == "" then Insert(filled, k, f.unescape("").value) else filled
  {
    var filled := InsertAll(m, Unescaped(f, fields));
    RunText(f, m, fields, k + ([c] + rest));
    RunToKey(f, filled, k, [c] + rest);
    assert ([c] + rest)[1..] == rest;
  }

  lemma {:induction false} RunToKey(f: Format, m: map<string, string>, k: string, rest: string)
    requires IsKey(k) && !IsAlnum(f.separator) && rest != ""
    ensures Run(f, Start(m), k + rest) == Run(f, Start(m).(phase := KeyState, key := k), rest)
  {
    var text := k + rest;
    assert text[0] == k[0] && text[1..] == k[1..] + rest;
    RunKey(f, Start(m).(phase := KeyState, key := [k[0]]), k[1..], rest);
    assert [k[0]] + k[1..] == k;
  }

  /** A second '=' before the separator is an error; the pair is not stored if anything follows. */
  lemma {:induction false} BadValue(f: Format, m: map<string, string>, fields: Entries, k: string, e: string,
                                    rest: string)
    requires AreFields(f, fields) && !IsAlnum(f.separator) && f.separator != '='
    requires IsKey(k) && '=' !in e && f.separator !in e && rest != ""
    ensures var p := Run(f, Start(m), TextOf(f, fields) + (k + "=" + (e + ("=" + rest))));
            p.phase == ErrorState && p.m == InsertAll(m, Unescaped(f, fields))
  {
    var filled := InsertAll(m, Unescaped(f, fields));
    RunText(f, m, fields, k + "=" + (e + ("=" + rest)));
    RunToValue(f, filled, k, e + ("=" + rest));
    RunValue(f, Parser(ValueState, k, "", filled, false), e, "=" + rest);
    assert ("=" + rest)[1..] == rest;
  }
}
