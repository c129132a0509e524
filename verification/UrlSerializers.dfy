/** UrlSerializer (UrlSerializer.cpp): key=value& pairs with URL escaping. */
module UrlSerializers {
  import opened AudioChunks
  import opened Sequences
  import opened Texts
  import opened Escapes
  import opened Serializers
  import opened KeyValueTexts

  /** strchr(url_ok_chars, c) is not null. The terminating NUL of the list counts as found. */
  predicate UrlOk(c: char) {
    IsAlnum(c) || c in "-.@_" || c == NUL
  }

  /** hex_digits[d] */
  function HexDigit(d: nat): char
    requires d < 16
  {
    if d < 10 then (d + '0' as int) as char else (d - 10 + 'A' as int) as char
  }

  function EscapeUrlChar(c: char): string {
    if c == ' ' then "+"
    else if UrlOk(c) then [c]
    else var b := c as int % 0x100; ['%', HexDigit(b / 16), HexDigit(b % 16)]
  }

  function EscapeUrlText(s: string): string {
    if s == "" then "" else EscapeUrlChar(s[0]) + EscapeUrlText(s[1..])
  }

  method EscapeUrl(text: string) returns (out: string)
    ensures out == EscapeUrlText(text)
  {
    out := "";
    for i := 0 to |text|
      invariant out + EscapeUrlText(text[i..]) == EscapeUrlText(text)
    {
      var c := text[i];
      assert text[i..][1..] == text[i + 1..];
      Regroup(out, EscapeUrlChar(c), EscapeUrlText(text[i + 1..]));
      if c == ' ' {
        out := out + ['+'];
      } else if UrlOk(c) {
        out := out + [c];
      } else {
        var b := c as int % 0x100;
        out := out + ['%', HexDigit(b / 16), HexDigit(b % 16)];
      }
    }
  }

  function HexValue(c: char): Option<nat> {
    if '0' <= c <= '9' then Some(c as int - '0' as int)
    else if 'A' <= c <= 'F' then Some(c as int - 'A' as int + 10)
    else if 'a' <= c <= 'f' then Some(c as int - 'a' as int + 10)
    else None
  }

  /** (char)strtol of a two-character string in base 16, as an unsigned byte. */
  function StrToL16(a: char, b: char): (r: nat)
    ensures r < 0x100
  {
    match (HexValue(a), HexValue(b))
    case (Some(x), Some(y)) => x * 16 + y
    case (Some(x), None) => x
    case (None, Some(y)) => if a == '-' then (0x100 - y) % 0x100 else if a == '+' || IsSpace(a) then y else 0
    case (None, None) => 0
  }

  /** None: GetAt went past the end and threw. */
  function UnescapeUrlText(s: string): Option<string> {
    if s == "" then Some("")
    else if s[0] == '%' && |s| >= 2 && s[1] == '%' then Prepend("%", UnescapeUrlText(s[2..]))
    else if s[0] == '%' then
      if |s| < 3 then None else Prepend([StrToL16(s[1], s[2]) as char], UnescapeUrlText(s[3..]))
    else Prepend(if s[0] == '+' then " " else [s[0]], UnescapeUrlText(s[1..]))
  }

  function Prepend(a: string, b: Option<string>): Option<string> {
    if b.Some? then Some(a + b.value) else None
  }

  lemma {:induction false} PrependNothing(b: Option<string>)
    ensures Prepend("", b) == b
  {
    if b.Some? { assert "" + b.value == b.value; }
  }

  /** What is read so far, `done`, goes in front of what the rest of the text from i on gives. */
  ghost predicate ReadTo(text: string, i: nat, done: string) {
    i <= |text| && UnescapeUrlText(text) == Prepend(done, UnescapeUrlText(text[i..]))
  }

  lemma {:induction false} ReadOn(text: string, i: nat, done: string, piece: string, j: nat)
    requires ReadTo(text, i, done) && i < j <= |text|
    requires UnescapeUrlText(text[i..]) == Prepend(piece, UnescapeUrlText(text[j..]))
    ensures ReadTo(text, j, done + piece)
  {
    var tail := UnescapeUrlText(text[j..]);
    if tail.Some? { Regroup(done, piece, tail.value); }
  }

  lemma {:induction false} SuffixOn(text: string, i: nat, k: nat, j: nat)
    requires i <= j <= |text| && j == i + k
    ensures text[i..][k..] == text[j..]
  {
  }

  method UnEscapeUrl(text: string) returns (out: Option<string>)
    ensures out == UnescapeUrlText(text)
  {
    var result := "";
    var i := 0;
    PrependNothing(UnescapeUrlText(text));
    assert text[0..] == text;
    while i < |text|
      invariant ReadTo(text, i, result)
      decreases |text| - i
    {
      ghost var start := i;
      var piece := [text[i]];
      if text[i] == '+' {
        piece := " ";
      } else if text[i] == '%' {
        i := i + 1;
        if i >= |text| {
          return None;
        }
        piece := "%";
        if text[i] != '%' {
          var first := text[i];
          i := i + 1;
          if i >= |text| {
            return None;
          }
          piece := [StrToL16(first, text[i]) as char];
        }
      }
      i := i + 1;
      SuffixOn(text, start, i - start, i);
      ReadOn(text, start, result, piece, i);
      result := result + piece;
    }
    assert result + "" == result;
    return Some(result);
  }

  lemma {:induction false} UnescapeHex(b: nat, rest: string)
    requires b < 0x100
    ensures UnescapeUrlText(['%', HexDigit(b / 16), HexDigit(b % 16)] + rest)
            == Prepend([b as char], UnescapeUrlText(rest))
  {
    var s := ['%', HexDigit(b / 16), HexDigit(b % 16)] + rest;
    assert s[0] == '%' && s[1] == HexDigit(b / 16) != '%' && s[2] == HexDigit(b % 16);
    assert s[3..] == rest;
    assert StrToL16(s[1], s[2]) == b;
  }

  lemma {:induction false} UnescapePlain(e: char, rest: string)
    requires e != '%'
    ensures UnescapeUrlText([e] + rest) == Prepend(if e == '+' then " " else [e], UnescapeUrlText(rest))
  {
    assert ([e] + rest)[1..] == rest;
  }

  lemma {:induction false} UnescapeUrlChar(c: char, rest: string)
    requires c as int < 0x100
    ensures UnescapeUrlText(EscapeUrlChar(c) + rest) == Prepend([c], UnescapeUrlText(rest))
  {
    if c == ' ' {
      assert EscapeUrlChar(c) == ['+'];
      UnescapePlain('+', rest);
    } else if UrlOk(c) {
      assert EscapeUrlChar(c) == [c];
      UnescapePlain(c, rest);
    } else {
      var b := c as int;
      assert b % 0x100 == b;
      assert EscapeUrlChar(c) == ['%', HexDigit(b / 16), HexDigit(b % 16)];
      UnescapeHex(b, rest);
    }
  }

  /** URL unescaping undoes URL escaping, for every string of bytes. */
  lemma {:induction false} UnescapeEscapeUrl(s: string)
    requires IsText(s)
    ensures UnescapeUrlText(EscapeUrlText(s)) == Some(s)
  {
    if s != "" {
      UnescapeEscapeUrl(s[1..]);
      UnescapeUrlChar(s[0], EscapeUrlText(s[1..]));
      assert [s[0]] + s[1..] == s;
    }
  }

  lemma {:induction false} EscapeUrlClean(s: string)
    ensures '&' !in EscapeUrlText(s) && '=' !in EscapeUrlText(s)
  {
    if s != "" { EscapeUrlClean(s[1..]); }
  }

  /** Cutting at the first NUL commutes with escaping, which leaves NUL alone. */
  lemma {:induction false} EscapeUrlCString(s: string)
    ensures CString(EscapeUrlText(s)) == EscapeUrlText(CString(s))
  {
    if s != "" {
      EscapeUrlCString(s[1..]);
      CutBehind(EscapeUrlChar(s[0]), EscapeUrlText(s[1..]));
    }
  }

  lemma {:induction false} CutBehind(a: string, b: string)
    ensures CString(a + b) == if NUL in a then CString(a) else a + CString(b)
  {
    if a == "" {
      assert "" + b == b;
    } else {
      assert (a + b)[1..] == a[1..] + b;
      CutBehind(a[1..], b);
    }
  }

  // ---------- The codes ----------

  const HEX := "0123456789ABCDEF"

  /** Letters, digits, and - . @ _ stand for themselves (and so does NUL), a space becomes a plus sign, and
      any other byte its two hexadecimal digits behind a percent sign. */
  lemma {:induction false} UrlCodesAre(c: char, rest: string)
    requires c as int < 0x100
    ensures EscapeUrlText([c] + rest) ==
            (if c == ' ' then "+"
             else if 'a' <= c <= 'z' || 'A' <= c <= 'Z' || '0' <= c <= '9' || c in "-.@_" || c as int == 0 then [c]
             else "%" + [HEX[c as int / 16]] + [HEX[c as int % 16]])
            + EscapeUrlText(rest)
    ensures EscapeUrlText("") == ""
  {
    assert ([c] + rest)[1..] == rest;
    UrlCodeIs(c);
  }

  lemma {:induction false} UrlCodeIs(c: char)
    requires c as int < 0x100
    ensures EscapeUrlChar(c) ==
            if c == ' ' then "+"
            else if 'a' <= c <= 'z' || 'A' <= c <= 'Z' || '0' <= c <= '9' || c in "-.@_" || c as int == 0 then [c]
            else "%" + [HEX[c as int / 16]] + [HEX[c as int % 16]]
  {
    var b := c as int;
    assert b % 0x100 == b;
    DigitIs(b / 16);
    DigitIs(b % 16);
  }

  lemma {:induction false} DigitIs(d: nat)
    requires d < 16
    ensures HexDigit(d) == HEX[d]
  {
    assert d == 0 || d == 1 || d == 2 || d == 3 || d == 4 || d == 5 || d == 6 || d == 7 || d == 8 || d == 9
           || d == 10 || d == 11 || d == 12 || d == 13 || d == 14 || d == 15;
  }

  /** Reading: hexadecimal digits of either case, a doubled percent sign for one, and a code cut short
      makes GetAt throw. */
  lemma {:induction false} UrlReads(a: nat, b: nat, upper: bool, rest: string)
    requires a < 16 && b < 16
    ensures var digits := if upper then HEX else "0123456789abcdef";
            UnescapeUrlText("%" + [digits[a]] + [digits[b]] + rest)
            == Prepend([(a * 16 + b) as char], UnescapeUrlText(rest))
    ensures UnescapeUrlText("%%" + rest) == Prepend("%", UnescapeUrlText(rest))
    ensures UnescapeUrlText("+" + rest) == Prepend(" ", UnescapeUrlText(rest))
    ensures UnescapeUrlText("%") == None && forall c :: c != '%' ==> UnescapeUrlText("%" + [c]) == None
  {
    var digits := if upper then HEX else "0123456789abcdef";
    DigitReads(a, upper);
    DigitReads(b, upper);
    assert ("%" + [digits[a]] + [digits[b]] + rest)[3..] == rest;
    assert ("%%" + rest)[2..] == rest && ("+" + rest)[1..] == rest;
  }

  /** What strtol makes of two characters that are not both digits: the first alone counts if it is one; a
      sign or white space goes before a digit, and the byte of a negative number wraps. */
  lemma {:induction false} OddCodesRead(a: char, b: char)
    ensures HexValue(a).Some? && HexValue(b) == None ==> StrToL16(a, b) == HexValue(a).value
    ensures HexValue(b).Some? && a == '-' ==> StrToL16(a, b) == if b == '0' then 0 else 256 - HexValue(b).value
    ensures HexValue(b).Some? && (a == '+' || a == ' ' || 9 <= a as int <= 13) ==> StrToL16(a, b) == HexValue(b).value
    ensures HexValue(a) == None && (HexValue(b) == None || !(a in "-+ " || 9 <= a as int <= 13)) ==> StrToL16(a, b) == 0
  {
  }

  lemma {:induction false} DigitReads(d: nat, upper: bool)
    requires d < 16
    ensures var c := if upper then HEX[d] else "0123456789abcdef"[d];
            c != '%' && HexValue(c) == Some(d)
  {
    assert d == 0 || d == 1 || d == 2 || d == 3 || d == 4 || d == 5 || d == 6 || d == 7 || d == 8 || d == 9
           || d == 10 || d == 11 || d == 12 || d == 13 || d == 14 || d == 15;
  }

  // ---------- The serializer ----------

  const URL := Format('&', UnescapeUrlText)

  /** AddString; the escaped value passes through a C string on its way into the output. */
  method AddString(output: string, key: string, value: string) returns (out: string)
    requires NUL !in key
    ensures out == output + PairOf(URL, (key, CString(EscapeUrlText(value))))
  {
    var escapedValue := EscapeUrl(value);
    var pair := key + "=";
    pair := pair + CString(escapedValue) + "&";
    out := output + pair;
  }

  function UrlFields(entries: Entries): (r: Entries)
    ensures |r| == |entries| && forall i :: 0 <= i < |r| ==>
              r[i] == (entries[i].0, CString(EscapeUrlText(entries[i].1)))
  {
    seq(|entries|, i requires 0 <= i < |entries| => (entries[i].0, CString(EscapeUrlText(entries[i].1))))
  }

  /** m_output after one AddString call per entry. */
  function UrlText(entries: Entries): string {
    TextOf(URL, UrlFields(entries))
  }

  method Serialize(entries: Entries) returns (output: string)
    requires forall i :: 0 <= i < |entries| ==> NUL !in entries[i].0
    ensures output == UrlText(entries)
  {
    output := "";
    for i := 0 to |entries|
      invariant output == UrlText(entries[..i])
    {
      output := AddString(output, entries[i].0, entries[i].1);
      UrlTextOn(entries, i, i + 1);
    }
    assert entries[..|entries|] == entries;
  }

  lemma {:induction false} UrlTextOn(entries: Entries, i: nat, j: nat)
    requires i < |entries| && j == i + 1
    ensures UrlText(entries[..j])
         == UrlText(entries[..i]) + PairOf(URL, (entries[i].0, CString(EscapeUrlText(entries[i].1))))
  {
    TextOfSnoc(URL, UrlFields(entries[..i]), UrlFields(entries)[i]);
    assert UrlFields(entries[..j]) == UrlFields(entries[..i]) + [UrlFields(entries)[i]];
  }

  function CutAtNul(entries: Entries): (r: Entries)
    ensures |r| == |entries| && forall i :: 0 <= i < |r| ==> r[i] == (entries[i].0, CString(entries[i].1))
  {
    seq(|entries|, i requires 0 <= i < |entries| => (entries[i].0, CString(entries[i].1)))
  }

  lemma {:induction false} UrlFieldsAreFields(entries: Entries)
    requires forall i :: 0 <= i < |entries| ==> IsKey(entries[i].0) && IsText(entries[i].1)
    ensures AreFields(URL, UrlFields(entries)) && Unescaped(URL, UrlFields(entries)) == CutAtNul(entries)
  {
    forall i | 0 <= i < |entries|
      ensures IsField(URL, UrlFields(entries)[i].1)
           && URL.unescape(UrlFields(entries)[i].1) == Some(CString(entries[i].1))
    {
      EscapeUrlCString(entries[i].1);
      EscapeUrlClean(CString(entries[i].1));
      UnescapeEscapeUrl(CString(entries[i].1));
    }
  }

  lemma {:induction false} UrlTextNeedsNoTrim(entries: Entries)
    requires forall i :: 0 <= i < |entries| ==> IsKey(entries[i].0)
    ensures Trim(UrlText(entries)) == UrlText(entries)
  {
    var fields, text := UrlFields(entries), UrlText(entries);
    assert text + "" == text;
    if entries != [] {
      TextKeepsFront(URL, fields, "");
      var n := |fields| - 1;
      assert fields == fields[..n] + [fields[n]];
      TextOfSnoc(URL, fields[..n], fields[n]);
      assert text[|text| - 1] == '&';
    }
  }

  /** The output of any list of fields parses back to the fields, each value cut at its first NUL and
      the first of equal keys winning; the error state is never entered and nothing is thrown. */
  lemma {:induction false} UrlComesBackAs(m: map<string, string>, entries: Entries)
    requires forall i :: 0 <= i < |entries| ==> IsKey(entries[i].0) && IsText(entries[i].1)
    ensures ParseText(URL, m, UrlText(entries)) == Start(InsertAll(m, CutAtNul(entries)))
  {
    UrlFieldsAreFields(entries);
    UrlTextNeedsNoTrim(entries);
    RunText(URL, m, UrlFields(entries), "");
    assert UrlText(entries) + "" == UrlText(entries);
  }

  /** Distinct keys come back exactly, into an empty map, if and only if no value contains a NUL. */
  lemma {:induction false} UrlSurvivesIff(m: map<string, string>, entries: Entries)
    requires forall i :: 0 <= i < |entries| ==> IsKey(entries[i].0) && IsText(entries[i].1)
    requires DistinctKeys(entries) && IsMapOf(m, entries)
    ensures ParseText(URL, map[], UrlText(entries)) == Start(m) <==>
            forall i :: 0 <= i < |entries| ==> NUL !in entries[i].1
  {
    UrlComesBackAs(map[], entries);
    var cut := CutAtNul(entries);
    RebuildsIff(m, entries, cut);
    forall i | 0 <= i < |entries| ensures NUL !in entries[i].1 <==> cut[i] == entries[i] {
      if NUL !in entries[i].1 { CStringIsIdentity(entries[i].1); }
    }
  }
}
