/** The three percent escapes of the serializers: EscapeCsv, EscapePair (Serializer.cpp) and
    EscapeSingleLine (SingleLineSerializer.cpp), with their inverses. */
module Escapes {
  import opened AudioChunks
  import opened Sequences
  import opened Texts

  datatype Codes = Csv | Pair | Line

  /** The letter that follows '%' for an escaped character. */
  function Letter(t: Codes, c: char): Option<char> {
    if c == '%' then Some('p')
    else match t
      case Csv => if c == ',' then Some('c') else None
      case Pair => if c == ':' then Some('k') else None
      case Line => if c == ' ' then Some('s') else if c == '=' then Some('e') else None
  }

  /** The character a letter after '%' stands for. */
  function Plain(t: Codes, letter: char): Option<char> {
    if letter == 'p' then Some('%')
    else match t
      case Csv => if letter == 'c' then Some(',') else None
      case Pair => if letter == 'k' then Some(':') else None
      case Line => if letter == 's' then Some(' ') else if letter == 'e' then Some('=') else None
  }

  function EscapeChar(t: Codes, c: char): string {
    if Letter(t, c).Some? then ['%', Letter(t, c).value] else [c]
  }

  function Escape(t: Codes, s: string): string {
    if s == "" then "" else EscapeChar(t, s[0]) + Escape(t, s[1..])
  }

  /** An unknown letter after '%' is dropped with it, and so is a '%' at the end. */
  function Unescape(t: Codes, s: string): string {
    if s == "" then ""
    else if s[0] != '%' then [s[0]] + Unescape(t, s[1..])
    else if |s| == 1 then ""
    else UnescapeLetter(t, s[1]) + Unescape(t, s[2..])
  }

  function UnescapeLetter(t: Codes, letter: char): string {
    if Plain(t, letter).Some? then [Plain(t, letter).value] else ""
  }

  method EscapeCsv(text: string) returns (out: string)
    ensures out == Escape(Csv, text)
  {
    out := "";
    var i := 0;
    while i < |text|
      invariant 0 <= i <= |text|
      invariant out == Escape(Csv, text[..i])
    {
      var c := text[i];
      if c == ',' {
        out := out + "%c";
      } else if c == '%' {
        out := out + "%p";
      } else {
        out := out + [c];
      }
      assert text[..i + 1] == text[..i] + [c];
      EscapeSnoc(Csv, text[..i], c);
      i := i + 1;
    }
    assert text[..i] == text;
  }

  method UnEscapeCsv(text: string) returns (out: string)
    ensures out == Unescape(Csv, text)
  {
    out := "";
    var iin := 0;
    while iin < |text|
      invariant 0 <= iin
      invariant iin <= |text| ==> Unescape(Csv, text) == out + Unescape(Csv, text[iin..])
      invariant iin > |text| ==> Unescape(Csv, text) == out
    {
      ghost var rest := text[iin..];
      var piece := [text[iin]];
      if text[iin] == '%' {
        iin := iin + 1;
        piece := "";
        if iin < |text| {
          match text[iin]
          case 'c' => piece := ",";
          case 'p' => piece := "%";
          case _ =>
        }
      }
      iin := iin + 1;
      if iin <= |text| {
        assert text[iin..] == if rest[0] == '%' then rest[2..] else rest[1..];
        Regroup(out, piece, Unescape(Csv, text[iin..]));
      }
      out := out + piece;
    }
  }

  method EscapePair(text: string) returns (out: string)
    ensures out == Escape(Pair, text)
  {
    out := "";
    var i := 0;
    while i < |text|
      invariant 0 <= i <= |text|
      invariant out == Escape(Pair, text[..i])
    {
      var c := text[i];
      if c == ':' {
        out := out + "%k";
      } else if c == '%' {
        out := out + "%p";
      } else {
        out := out + [c];
      }
      assert text[..i + 1] == text[..i] + [c];
      EscapeSnoc(Pair, text[..i], c);
      i := i + 1;
    }
    assert text[..i] == text;
  }

  method UnEscapePair(text: string) returns (out: string)
    ensures out == Unescape(Pair, text)
  {
    out := "";
    var iin := 0;
    while iin < |text|
      invariant 0 <= iin
      invariant iin <= |text| ==> Unescape(Pair, text) == out + Unescape(Pair, text[iin..])
      invariant iin > |text| ==> Unescape(Pair, text) == out
    {
      ghost var rest := text[iin..];
      var piece := [text[iin]];
      if text[iin] == '%' {
        iin := iin + 1;
        piece := "";
        if iin < |text| {
          match text[iin]
          case 'k' => piece := ":";
          case 'p' => piece := "%";
          case _ =>
        }
      }
      iin := iin + 1;
      if iin <= |text| {
        assert text[iin..] == if rest[0] == '%' then rest[2..] else rest[1..];
        Regroup(out, piece, Unescape(Pair, text[iin..]));
      }
      out := out + piece;
    }
  }

  method EscapeSingleLine(text: string) returns (out: string)
    ensures out == Escape(Line, text)
  {
    out := "";
    var i := 0;
    while i < |text|
      invariant 0 <= i <= |text|
      invariant out == Escape(Line, text[..i])
    {
      var c := text[i];
      if c == ' ' {
        out := out + "%s";
      } else if c == '%' {
        out := out + "%p";
      } else if c == '=' {
        out := out + "%e";
      } else {
        out := out + [c];
      }
      assert text[..i + 1] == text[..i] + [c];
      EscapeSnoc(Line, text[..i], c);
      i := i + 1;
    }
    assert text[..i] == text;
  }

  method UnEscapeSingleLine(text: string) returns (out: string)
    ensures out == Unescape(Line, text)
  {
    out := "";
    var iin := 0;
    while iin < |text|
      invariant 0 <= iin
      invariant iin <= |text| ==> Unescape(Line, text) == out + Unescape(Line, text[iin..])
      invariant iin > |text| ==> Unescape(Line, text) == out
    {
      ghost var rest := text[iin..];
      var piece := [text[iin]];
      if text[iin] == '%' {
        iin := iin + 1;
        piece := "";
        if iin < |text| {
          match text[iin]
          case 's' => piece := " ";
          case 'p' => piece := "%";
          case 'e' => piece := "=";
          case _ =>
        }
      }
      iin := iin + 1;
      if iin <= |text| {
        assert text[iin..] == if rest[0] == '%' then rest[2..] else rest[1..];
        Regroup(out, piece, Unescape(Line, text[iin..]));
      }
      out := out + piece;
    }
  }

  // ---------- The codes ----------

  /** What each code makes of a character. */
  lemma {:induction false} EscapesAre(c: char, rest: string)
    ensures Escape(Csv, [c] + rest)
         == (if c == ',' then "%c" else if c == '%' then "%p" else [c]) + Escape(Csv, rest)
    ensures Escape(Pair, [c] + rest)
         == (if c == ':' then "%k" else if c == '%' then "%p" else [c]) + Escape(Pair, rest)
    ensures Escape(Line, [c] + rest)
         == (if c == ' ' then "%s" else if c == '=' then "%e" else if c == '%' then "%p" else [c]) + Escape(Line, rest)
    ensures forall t :: Escape(t, "") == ""
  {
    assert ([c] + rest)[1..] == rest;
  }

  /** What each makes of a code: an unknown one is dropped, and so is a percent sign at the end. */
  lemma {:induction false} CodesAre(c: char, rest: string)
    ensures Unescape(Csv, "%" + [c] + rest)
         == (match c case 'c' => "," case 'p' => "%" case _ => "") + Unescape(Csv, rest)
    ensures Unescape(Pair, "%" + [c] + rest)
         == (match c case 'k' => ":" case 'p' => "%" case _ => "") + Unescape(Pair, rest)
    ensures Unescape(Line, "%" + [c] + rest)
         == (match c case 's' => " " case 'e' => "=" case 'p' => "%" case _ => "") + Unescape(Line, rest)
    ensures forall t :: Unescape(t, "%") == Unescape(t, "") == ""
    ensures forall t :: c != '%' ==> Unescape(t, [c] + rest) == [c] + Unescape(t, rest)
  {
    assert ("%" + [c] + rest)[2..] == rest && ([c] + rest)[1..] == rest;
  }

  // ---------- Laws of the three escapes ----------

  lemma {:induction false} UnescapeCons(t: Codes, c: char, rest: string)
    ensures Unescape(t, EscapeChar(t, c) + rest) == [c] + Unescape(t, rest)
  {
    var s := EscapeChar(t, c) + rest;
    if Letter(t, c).Some? {
      assert s[0] == '%' && s[1] == Letter(t, c).value && s[2..] == rest;
    } else {
      assert s[0] == c && s[1..] == rest;
    }
  }

  /** Unescaping undoes escaping, for every string. */
  lemma {:induction false} UnescapeEscape(t: Codes, s: string)
    ensures Unescape(t, Escape(t, s)) == s
  {
    if s != "" {
      UnescapeEscape(t, s[1..]);
      UnescapeCons(t, s[0], Escape(t, s[1..]));
    }
  }

  lemma {:induction false} EscapeConcat(t: Codes, a: string, b: string)
    ensures Escape(t, a + b) == Escape(t, a) + Escape(t, b)
  {
    if a == "" {
      assert "" + b == b;
    } else {
      assert (a + b)[1..] == a[1..] + b;
      EscapeConcat(t, a[1..], b);
    }
  }

  lemma {:induction false} EscapeSnoc(t: Codes, a: string, c: char)
    ensures Escape(t, a + [c]) == Escape(t, a) + EscapeChar(t, c)
  {
    EscapeConcat(t, a, [c]);
    assert [c][1..] == "" && Escape(t, [c]) == EscapeChar(t, c) + "";
  }

  /** Apart from '%', no character the table escapes is left. */
  lemma {:induction false} EscapeClean(t: Codes, s: string, c: char)
    requires Letter(t, c).Some? && c != '%'
    ensures c !in Escape(t, s)
  {
    if s != "" { EscapeClean(t, s[1..], c); }
  }

  lemma {:induction false} EscapeEmpty(t: Codes, s: string)
    ensures Escape(t, s) == "" <==> s == ""
  {
  }

  /** The CSV and pair escapes leave white space alone, so trimming and escaping commute. */
  lemma {:induction false} TrimLeftEscape(t: Codes, s: string)
    requires t != Line
    ensures TrimLeft(Escape(t, s)) == Escape(t, TrimLeft(s))
  {
    if s != "" && IsSpace(s[0]) {
      assert Escape(t, s)[1..] == Escape(t, s[1..]);
      TrimLeftEscape(t, s[1..]);
    }
  }

  lemma {:induction false} TrimRightEscape(t: Codes, s: string)
    requires t != Line
    ensures TrimRight(Escape(t, s)) == Escape(t, TrimRight(s))
  {
    if s != "" {
      var a, c := s[..|s| - 1], s[|s| - 1];
      TrimRightEscape(t, a);
      TrimRightEscapeSnoc(t, a, c);
      assert s == a + [c];
    }
  }

  lemma {:induction false} TrimRightEscapeSnoc(t: Codes, a: string, c: char)
    requires t != Line && TrimRight(Escape(t, a)) == Escape(t, TrimRight(a))
    ensures TrimRight(Escape(t, a + [c])) == Escape(t, TrimRight(a + [c]))
  {
    TrimRightSnoc(a, c);
    EscapeSnoc(t, a, c);
    if IsSpace(c) {
      TrimRightSnoc(Escape(t, a), c);
    } else {
      TrimRightEnd(Escape(t, a), EscapeChar(t, c));
    }
  }

  lemma {:induction false} TrimEscape(t: Codes, s: string)
    requires t != Line
    ensures Trim(Escape(t, s)) == Escape(t, Trim(s))
  {
    TrimLeftEscape(t, s);
    TrimRightEscape(t, TrimLeft(s));
  }
}
