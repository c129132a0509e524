/** Strings as CStdString and the C library treat them (StdString.h). Characters are bytes. */
module Texts {
  import opened AudioChunks

  const NUL := '\0'

  /** isspace in the C locale. */
  predicate IsSpace(c: char) {
    c == ' ' || '\t' <= c <= '\r'
  }

  /** isalnum in the C locale. */
  predicate IsAlnum(c: char) {
    '0' <= c <= '9' || 'A' <= c <= 'Z' || 'a' <= c <= 'z'
  }

  /** Every character is a byte. */
  predicate IsText(s: string) {
    forall i :: 0 <= i < |s| ==> s[i] as int < 0x100
  }

  function TrimLeft(s: string): string {
    if s != "" && IsSpace(s[0]) then TrimLeft(s[1..]) else s
  }

  function TrimRight(s: string): string {
    if s != "" && IsSpace(s[|s| - 1]) then TrimRight(s[..|s| - 1]) else s
  }

  function Trim(s: string): string {
    TrimRight(TrimLeft(s))
  }

  /** The two classes by character codes: tab to carriage return and the space; digits and letters. */
  lemma {:induction false} ClassesAre(c: char)
    ensures IsSpace(c) <==> 9 <= c as int <= 13 || c as int == 32
    ensures IsAlnum(c) <==> 48 <= c as int <= 57 || 65 <= c as int <= 90 || 97 <= c as int <= 122
  {
  }

  /** White space, by its code. */
  predicate IsSpaceCode(c: char) {
    9 <= c as int <= 13 || c as int == 32
  }

  predicate AllSpace(s: string) {
    forall i :: 0 <= i < |s| ==> IsSpaceCode(s[i])
  }

  /** Trimming takes off white space and leaves a text that neither begins nor ends with any. */
  lemma {:induction false} TrimIs(s: string) returns (a: string, b: string)
    ensures s == a + Trim(s) + b && AllSpace(a) && AllSpace(b)
    ensures Trim(s) != "" ==> !IsSpaceCode(Trim(s)[0]) && !IsSpaceCode(Trim(s)[|Trim(s)| - 1])
  {
    var l, t := TrimLeft(s), Trim(s);
    a := TrimLeftIs(s);
    b := TrimRightIs(l);
    TrimLeftResult(s);
    EndsOfTrimmed(l, t, b);
    assert a + (t + b) == a + t + b;
  }

  lemma {:induction false} EndsOfTrimmed(l: string, t: string, b: string)
    requires l == t + b && (l == "" || !IsSpace(l[0])) && (t == "" || !IsSpace(t[|t| - 1]))
    ensures t != "" ==> !IsSpaceCode(t[0]) && !IsSpaceCode(t[|t| - 1])
  {
    if t != "" {
      assert t[0] == l[0];
      ClassesAre(t[0]);
      ClassesAre(t[|t| - 1]);
    }
  }

  lemma {:induction false} TrimLeftIs(s: string) returns (a: string)
    ensures s == a + TrimLeft(s) && AllSpace(a)
  {
    a := "";
    if s != "" && IsSpace(s[0]) {
      var a' := TrimLeftIs(s[1..]);
      a := [s[0]] + a';
      ClassesAre(s[0]);
    }
  }

  lemma {:induction false} TrimRightIs(s: string) returns (b: string)
    ensures s == TrimRight(s) + b && AllSpace(b)
    ensures TrimRight(s) != "" ==> !IsSpace(TrimRight(s)[|TrimRight(s)| - 1])
  {
    b := "";
    if s != "" && IsSpace(s[|s| - 1]) {
      var b' := TrimRightIs(s[..|s| - 1]);
      b := b' + [s[|s| - 1]];
      ClassesAre(s[|s| - 1]);
    }
  }

  /** The string a C function sees: everything before the first NUL. */
  function CString(s: string): (r: string)
    ensures NUL !in r && r <= s && (r == s || s[|r|] as int == 0)
  {
    if s == "" || s[0] == NUL then "" else [s[0]] + CString(s[1..])
  }

  lemma {:induction false} CStringIsIdentity(s: string)
    requires NUL !in s
    ensures CString(s) == s
  {
    if s != "" { CStringIsIdentity(s[1..]); }
  }

  /** Trimming stops at a character that is not white space. */
  lemma {:induction false} TrimLeftStops(a: string, c: char, b: string)
    requires !IsSpace(c)
    ensures TrimLeft(a + [c] + b) == TrimLeft(a) + [c] + b
  {
    if a != "" && IsSpace(a[0]) {
      assert (a + [c] + b)[1..] == a[1..] + [c] + b;
      TrimLeftStops(a[1..], c, b);
    }
  }

  lemma {:induction false} TrimRightStops(a: string, c: char, b: string)
    requires !IsSpace(c)
    ensures TrimRight(a + [c] + b) == a + [c] + TrimRight(b)
  {
    var s := a + [c] + b;
    if b != "" && IsSpace(b[|b| - 1]) {
      assert s[..|s| - 1] == a + [c] + b[..|b| - 1];
      TrimRightStops(a, c, b[..|b| - 1]);
    }
  }

  lemma {:induction false} TrimRightSnoc(s: string, c: char)
    ensures TrimRight(s + [c]) == if IsSpace(c) then TrimRight(s) else s + [c]
  {
    assert (s + [c])[..|s|] == s;
  }

  lemma {:induction false} TrimRightEnd(a: string, b: string)
    requires b != "" && !IsSpace(b[|b| - 1])
    ensures TrimRight(a + b) == a + b
  {
  }

  lemma {:induction false} TrimLeftResult(s: string)
    ensures TrimLeft(s) == "" || !IsSpace(TrimLeft(s)[0])
  {
    if s != "" && IsSpace(s[0]) { TrimLeftResult(s[1..]); }
  }

  /** First position of c at or after i, or -1. */
  function Find(s: string, c: char): (r: int)
    ensures -1 <= r < |s|
    ensures r == -1 <==> c !in s
    ensures r >= 0 ==> s[r] == c && c !in s[..r]
  {
    if s == "" then -1
    else if s[0] == c then 0
    else
      var r := Find(s[1..], c);
      assert r >= 0 ==> s[..r + 1] == [s[0]] + s[1..][..r];
      if r == -1 then -1 else r + 1
  }

  lemma {:induction false} FindAt(a: string, c: char, b: string)
    requires c !in a
    ensures Find(a + [c] + b, c) == |a|
  {
    var s := a + [c] + b;
    assert s[|a|] == c;
    assert forall i :: 0 <= i < |a| ==> s[i] == a[i];
    assert c !in s[..Find(s, c)] ==> Find(s, c) <= |a|;
  }
}
