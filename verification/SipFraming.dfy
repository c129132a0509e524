/** Cutting SIP messages out of a TCP byte stream (memFindAfter and ParseSipStream in SipTcp.cpp). */
module SipFraming {
  import opened AudioChunks
  import opened StreamCutting
  import opened Texts

  const CONTENT_LENGTH := "Content-Length: "
  const HEADER_END := "\r\n\r\n"
  const INT_MAX := 0x7FFF_FFFF

  function ToLower(c: char): char {
    if 'A' <= c <= 'Z' then (c as int + 32) as char else c
  }

  predicate IsDigit(c: char) {
    '0' <= c <= '9'
  }

  // ---------- memFindAfter ----------

  /** strncasecmp(pat, &buf[i], |pat|) == 0. The byte after a stored buffer is NUL, so a comparison
      that runs over the end fails. */
  predicate MatchesAt(pat: string, buf: string, i: nat) {
    i + |pat| <= |buf| && forall k :: 0 <= k < |pat| ==> ToLower(buf[i + k]) == ToLower(pat[k])
  }

  /** The search compares at its starting point and then only where the first character occurs in
      the case given. */
  predicate Candidate(pat: string, buf: string, start: nat, i: nat) {
    i < |buf| && (i == start || (pat != [] && buf[i] == pat[0])) && MatchesAt(pat, buf, i)
  }

  /** Position just after the first match at or after i of a search begun at start. */
  function FindFrom(pat: string, buf: string, start: nat, i: nat): Option<nat>
    decreases |buf| - i
  {
    if i >= |buf| then None
    else if Candidate(pat, buf, start, i) then Some(i + |pat|)
    else FindFrom(pat, buf, start, i + 1)
  }

  function FindAfter(pat: string, buf: string, start: nat): Option<nat> {
    FindFrom(pat, buf, start, start)
  }

  /** FindFrom finds the least candidate, or there is none. */
  lemma {:induction false} FindFromFirst(pat: string, buf: string, start: nat, i: nat)
    ensures var r := FindFrom(pat, buf, start, i);
            match r
            case None => forall j: nat :: j >= i ==> !Candidate(pat, buf, start, j)
            case Some(x) => x >= i + |pat| && Candidate(pat, buf, start, x - |pat|)
                            && forall j: nat :: i <= j < x - |pat| ==> !Candidate(pat, buf, start, j)
    decreases |buf| - i
  {
    if i < |buf| && !Candidate(pat, buf, start, i) {
      FindFromFirst(pat, buf, start, i + 1);
    }
  }

  /** memchr(&buf[from], c, |buf| - from). */
  method MemChr(buf: string, from: nat, c: char) returns (r: Option<nat>)
    requires from <= |buf|
    ensures r == None ==> forall j :: from <= j < |buf| ==> buf[j] != c
    ensures r.Some? ==> from <= r.value < |buf| && buf[r.value] == c && forall j :: from <= j < r.value ==> buf[j] != c
  {
    var i := from;
    while i < |buf|
      invariant from <= i <= |buf|
      invariant forall j :: from <= j < i ==> buf[j] != c
    {
      if buf[i] == c {
        return Some(i);
      }
      i := i + 1;
    }
    return None;
  }

  lemma {:induction false} FindFromSkips(pat: string, buf: string, start: nat, i: nat, j: nat)
    requires i <= j && forall k: nat :: i <= k < j ==> !Candidate(pat, buf, start, k)
    ensures FindFrom(pat, buf, start, i) == FindFrom(pat, buf, start, j)
    decreases j - i
  {
    if i < j {
      if i < |buf| {
        FindFromSkips(pat, buf, start, i + 1, j);
      }
    }
  }

  method MemFindAfter(pat: string, buf: string, start: nat) returns (r: Option<nat>)
    requires pat != [] && start <= |buf|
    ensures r == FindAfter(pat, buf, start)
  {
    var ptr := Some(start);
    while ptr.Some? && ptr.value < |buf|
      invariant ptr.Some? ==>
                  && start <= ptr.value <= |buf|
                  && (ptr.value == start || (ptr.value < |buf| && buf[ptr.value] == pat[0]))
      invariant FindAfter(pat, buf, start) == if ptr.Some? then FindFrom(pat, buf, start, ptr.value) else None
      decreases if ptr.Some? then |buf| - ptr.value + 1 else 0
    {
      var p := ptr.value;
      if MatchesAt(pat, buf, p) {
        return Some(p + |pat|);
      }
      ptr := MemChr(buf, p + 1, pat[0]);
      FindFromSkips(pat, buf, start, p, if ptr.Some? then ptr.value else |buf|);
    }
    return None;
  }

  lemma {:induction false} MatchStable(pat: string, a: string, b: string, i: nat)
    requires i + |pat| <= |a|
    ensures MatchesAt(pat, a + b, i) == MatchesAt(pat, a, i)
  {
  }

  /** More bytes behind the buffer do not change a match already found. */
  lemma {:induction false} FindFromStable(pat: string, a: string, b: string, start: nat, i: nat)
    requires FindFrom(pat, a, start, i).Some?
    ensures FindFrom(pat, a + b, start, i) == FindFrom(pat, a, start, i)
    decreases |a| - i
  {
    FindFromFirst(pat, a, start, i);
    MatchStable(pat, a, b, i);
    assert (a + b)[i] == a[i];
    if !Candidate(pat, a, start, i) {
      FindFromStable(pat, a, b, start, i + 1);
    }
  }

  // ---------- Case ----------

  predicate IsLetter(c: char) {
    65 <= c as int <= 90 || 97 <= c as int <= 122
  }

  /** The same character, or the same letter in the other case. */
  predicate SameLetter(c: char, d: char) {
    c == d || (IsLetter(c) && IsLetter(d) && (c as int - d as int == 32 || d as int - c as int == 32))
  }

  lemma {:induction false} ToLowerIff(c: char, d: char)
    ensures ToLower(c) == ToLower(d) <==> SameLetter(c, d)
  {
  }

  /** The comparison ignores case, and nothing else. */
  lemma {:induction false} MatchesIff(pat: string, buf: string, i: nat)
    ensures MatchesAt(pat, buf, i) <==>
            i + |pat| <= |buf| && forall k :: 0 <= k < |pat| ==> SameLetter(buf[i + k], pat[k])
  {
    if i + |pat| <= |buf| {
      forall k | 0 <= k < |pat| ensures ToLower(buf[i + k]) == ToLower(pat[k]) <==> SameLetter(buf[i + k], pat[k]) {
        ToLowerIff(buf[i + k], pat[k]);
      }
    }
  }

  /** "Content-Length: " stands at i in some spelling, with a capital C unless at the very beginning. */
  predicate SpelledAt(s: string, i: nat) {
    && i + 16 <= |s| && (i == 0 || s[i] == 'C')
    && forall k :: 0 <= k < 16 ==> SameLetter(s[i + k], "Content-Length: "[k])
  }

  /** The header is found if and only if it stands somewhere, and then behind the first such place. */
  lemma {:induction false} LengthFoundIff(s: string)
    ensures match FindAfter(CONTENT_LENGTH, s, 0)
            case None => forall i: nat :: !SpelledAt(s, i)
            case Some(p) => p >= 16 && SpelledAt(s, p - 16) && forall i: nat :: i < p - 16 ==> !SpelledAt(s, i)
  {
    FindFromFirst(CONTENT_LENGTH, s, 0, 0);
    forall i: nat ensures Candidate(CONTENT_LENGTH, s, 0, i) <==> SpelledAt(s, i) {
      MatchesIff(CONTENT_LENGTH, s, i);
    }
  }

  // ---------- sscanf("%d") ----------

  function SkipSpace(s: string, i: nat): (j: nat)
    ensures i <= |s| ==> i <= j <= |s|
    ensures forall k :: i <= k < j && k < |s| ==> IsSpace(s[k])
    ensures j < |s| ==> !IsSpace(s[j])
    ensures i > |s| ==> j == i
    decreases |s| - i
  {
    if i < |s| && IsSpace(s[i]) then SkipSpace(s, i + 1) else i
  }

  function DigitsEnd(s: string, i: nat): (j: nat)
    ensures i <= |s| ==> i <= j <= |s|
    ensures forall k :: i <= k < j && k < |s| ==> IsDigit(s[k])
    ensures j < |s| ==> !IsDigit(s[j])
    ensures i > |s| ==> j == i
    decreases |s| - i
  {
    if i < |s| && IsDigit(s[i]) then DigitsEnd(s, i + 1) else i
  }

  function DigitsValue(digits: string): nat {
    if digits == "" || !IsDigit(digits[|digits| - 1]) then 0
    else DigitsValue(digits[..|digits| - 1]) * 10 + (digits[|digits| - 1] as int - '0' as int)
  }

  /** Where the digits of the number begin: after white space and one sign. */
  function DigitsStart(s: string, i: nat): nat {
    var q := SkipSpace(s, i);
    if q < |s| && (s[q] == '-' || s[q] == '+') then q + 1 else q
  }

  /** Where the number ends. */
  function ScanEnd(s: string, i: nat): nat {
    DigitsEnd(s, DigitsStart(s, i))
  }

  /** The number %d assigns; None when there are no digits or the value leaves the range of int,
      in both of which cases the original goes on with an undefined value. */
  function ScanInt(s: string, i: nat): Option<int>
    requires i <= |s|
  {
    var q, d, e := SkipSpace(s, i), DigitsStart(s, i), ScanEnd(s, i);
    if d >= e then None
    else
      var v: int := DigitsValue(s[d..e]);
      var n := if s[q] == '-' then -v else v;
      if -INT_MAX - 1 <= n <= INT_MAX then Some(n) else None
  }

  lemma {:induction false} SkipSpaceStable(a: string, b: string, i: nat)
    requires i <= |a| && SkipSpace(a + b, i) < |a|
    ensures SkipSpace(a, i) == SkipSpace(a + b, i)
    decreases |a| - i
  {
    if i < |a| {
      assert (a + b)[i] == a[i];
      if IsSpace(a[i]) { SkipSpaceStable(a, b, i + 1); }
    }
  }

  lemma {:induction false} DigitsEndStable(a: string, b: string, i: nat)
    requires i <= |a| && DigitsEnd(a + b, i) <= |a|
    ensures DigitsEnd(a, i) == DigitsEnd(a + b, i)
    decreases |a| - i
  {
    if i < |a| {
      assert (a + b)[i] == a[i];
      if IsDigit(a[i]) { DigitsEndStable(a, b, i + 1); }
    }
  }

  /** A number that lies inside a reads the same in a + b. */
  lemma {:induction false} ScanStable(a: string, b: string, i: nat)
    requires i <= |a| && ScanInt(a + b, i).Some? && ScanEnd(a + b, i) <= |a|
    ensures ScanEnd(a, i) == ScanEnd(a + b, i) && ScanInt(a, i) == ScanInt(a + b, i)
  {
    var s := a + b;
    var q, d, e := SkipSpace(s, i), DigitsStart(s, i), ScanEnd(s, i);
    SkipSpaceStable(a, b, i);
    assert s[q] == a[q];
    DigitsEndStable(a, b, d);
    RestOfConcat(a, b, d, e);
  }

  // ---------- One message ----------

  /** The complete header of the first message, if it is there: the position after
      "Content-Length: " and the position after the blank line. */
  function Header(s: string): (r: Option<(nat, nat)>)
    ensures r.Some? ==> r.value.0 <= r.value.1 - 4 && r.value.1 <= |s|
  {
    match FindAfter(CONTENT_LENGTH, s, 0)
    case None => None
    case Some(p) =>
      match FindAfter(HEADER_END, s, p)
      case None => None
      case Some(h) => FindFromFirst(HEADER_END, s, p, p); Some((p, h))
  }

  function FirstFrame(s: string): (f: Frame)
    ensures f.Message? ==> 0 < f.len <= |s|
    ensures f.Backwards? ==> f.end <= 0
  {
    match Header(s)
    case None => NeedMore
    case Some((p, h)) =>
      match ScanInt(s, p)
      case None => Undefined
      case Some(n) => if h + n > |s| then NeedMore else if h + n <= 0 then Backwards(h + n) else Message(h + n)
  }

  /** If the header is complete, the declared length is a number inside it and does not point at or
      before the start of the message. */
  ghost predicate Framed(s: string) {
    Header(s).Some? ==>
      var (p, h) := Header(s).value;
      ScanInt(s, p).Some? && ScanEnd(s, p) <= h && h + ScanInt(s, p).value > 0
  }

  lemma {:induction false} HeaderStable(a: string, b: string)
    requires Header(a).Some?
    ensures Header(a + b) == Header(a)
  {
    var p := FindAfter(CONTENT_LENGTH, a, 0).value;
    FindFromStable(CONTENT_LENGTH, a, b, 0, 0);
    FindFromStable(HEADER_END, a, b, p, p);
  }

  /** A piece of a framed stream is framed, and either its first message is not complete or it is
      the stream's first message. */
  lemma {:induction false} FramePrefix(a: string, b: string)
    requires Framed(a + b)
    ensures Framed(a)
    ensures FirstFrame(a) == NeedMore || (FirstFrame(a).Message? && FirstFrame(a) == FirstFrame(a + b))
  {
    if Header(a).Some? {
      HeaderStable(a, b);
      ScanStable(a, b, Header(a).value.0);
    }
  }

  /** The condition of section 18.3 of RFC 3261: in a complete header the Content-Length is a
      decimal number followed by CRLF. */
  ghost predicate DecimalLength(s: string) {
    Header(s).Some? ==>
      var p := Header(s).value.0;
      var e := DigitsEnd(s, p);
      p < e && e + 1 < |s| && s[e] == '\r' && s[e + 1] == '\n' && DigitsValue(s[p..e]) <= INT_MAX
  }

  lemma {:induction false} HeaderEnds(s: string)
    requires Header(s).Some?
    ensures s[Header(s).value.1 - 1] == '\n'
  {
    var (p, h) := Header(s).value;
    FindFromFirst(HEADER_END, s, p, p);
    assert ToLower(s[h - 4 + 3]) == ToLower(HEADER_END[3]);
  }

  lemma {:induction false} DigitsEndIs(s: string, i: nat, e: nat)
    requires i <= e < |s| && !IsDigit(s[e]) && forall k :: i <= k < e ==> IsDigit(s[k])
    ensures DigitsEnd(s, i) == e
    decreases e - i
  {
    if i < e { DigitsEndIs(s, i + 1, e); }
  }

  lemma {:induction false} SkipSpaceIs(s: string, i: nat, q: nat)
    requires i <= q < |s| && AllSpace(s[i..q]) && !IsSpace(s[q])
    ensures SkipSpace(s, i) == q
    decreases q - i
  {
    if i < q {
      assert s[i] == s[i..q][0] && s[i..q][1..] == s[i + 1..q];
      ClassesAre(s[i]);
      SkipSpaceIs(s, i + 1, q);
    }
  }

  /** The scan from i of a number whose digits stand from d to e, behind white space up to q and perhaps a
      sign. */
  lemma {:induction false} ScanIs(s: string, i: nat, q: nat, d: nat, e: nat, digits: string)
    requires i <= q <= d <= q + 1 && d < e < |s| && AllSpace(s[i..q]) && (q < d ==> s[q] == '-' || s[q] == '+')
    requires digits == s[d..e] && (forall k :: d <= k < e ==> IsDigit(s[k])) && !IsDigit(s[e])
    requires DigitsValue(digits) <= INT_MAX
    ensures var v: int := DigitsValue(digits); ScanInt(s, i) == Some(if s[q] == '-' then -v else v)
    ensures ScanEnd(s, i) == e
  {
    assert IsDigit(s[d]);
    SkipSpaceIs(s, i, q);
    DigitsEndIs(s, d, e);
    assert DigitsStart(s, i) == d;
  }

  lemma {:induction false} DecimalLengthIsFramed(s: string)
    requires DecimalLength(s)
    ensures Framed(s)
  {
    if Header(s).Some? {
      var (p, h) := Header(s).value;
      var e := DigitsEnd(s, p);
      HeaderEnds(s);
      assert !IsDigit(s[h - 1]);
      ScanIs(s, p, p, p, e, s[p..e]);
    }
  }

  // ---------- Spelling does not matter ----------

  /** The same text up to the case of letters, but with every capital C where the other has one. */
  predicate SameButCase(s: string, s': string) {
    |s| == |s'| && forall k :: 0 <= k < |s| ==> SameButLowerC(s[k], s'[k])
  }

  predicate SameButLowerC(c: char, d: char) {
    SameLetter(c, d) && (c == 'C' <==> d == 'C')
  }

  lemma {:induction false} SameMatch(pat: string, s: string, s': string, i: nat)
    requires SameButCase(s, s')
    ensures MatchesAt(pat, s, i) == MatchesAt(pat, s', i)
  {
    if i + |pat| <= |s| {
      forall j | i <= j < i + |pat| ensures ToLower(s[j]) == ToLower(s'[j]) {
        assert SameButLowerC(s[j], s'[j]);
        ToLowerIff(s[j], s'[j]);
      }
    }
  }

  lemma {:induction false} SameFind(pat: string, s: string, s': string, start: nat, i: nat)
    requires SameButCase(s, s') && pat != [] && (pat[0] == 'C' || !IsLetter(pat[0]))
    ensures FindFrom(pat, s, start, i) == FindFrom(pat, s', start, i)
    decreases |s| - i
  {
    if i < |s| {
      SameMatch(pat, s, s', i);
      assert SameButLowerC(s[i], s'[i]);
      SameFind(pat, s, s', start, i + 1);
    }
  }

  lemma {:induction false} SameHeader(s: string, s': string)
    requires SameButCase(s, s')
    ensures Header(s) == Header(s')
  {
    SameFind(CONTENT_LENGTH, s, s', 0, 0);
    if FindAfter(CONTENT_LENGTH, s, 0).Some? {
      var p := FindAfter(CONTENT_LENGTH, s, 0).value;
      SameFind(HEADER_END, s, s', p, p);
    }
  }

  lemma {:induction false} SameSpace(s: string, s': string, i: nat)
    requires SameButCase(s, s')
    ensures SkipSpace(s, i) == SkipSpace(s', i)
    decreases |s| - i
  {
    if i < |s| {
      assert SameButLowerC(s[i], s'[i]);
      SameSpace(s, s', i + 1);
    }
  }

  lemma {:induction false} SameDigits(s: string, s': string, i: nat)
    requires SameButCase(s, s')
    ensures DigitsEnd(s, i) == DigitsEnd(s', i)
    ensures i <= |s| ==> s[i..DigitsEnd(s, i)] == s'[i..DigitsEnd(s, i)]
    decreases |s| - i
  {
    if i < |s| {
      assert SameButLowerC(s[i], s'[i]);
      SameDigits(s, s', i + 1);
      if IsDigit(s[i]) {
        var e := DigitsEnd(s, i);
        assert s[i..e] == [s[i]] + s[i + 1..e] && s'[i..e] == [s'[i]] + s'[i + 1..e];
      }
    }
  }

  lemma {:induction false} SameScan(s: string, s': string, i: nat)
    requires i <= |s| && SameButCase(s, s')
    ensures ScanInt(s, i) == ScanInt(s', i)
  {
    SameSpace(s, s', i);
    var q := SkipSpace(s, i);
    assert q < |s| ==> SameButLowerC(s[q], s'[q]);
    var d := DigitsStart(s, i);
    assert d == DigitsStart(s', i);
    SameDigits(s, s', d);
  }

  /** Changing the case of letters, capital C's aside, changes nothing about the first message. */
  lemma {:induction false} CaseDoesNotMatter(s: string, s': string)
    requires SameButCase(s, s')
    ensures FirstFrame(s) == FirstFrame(s')
  {
    SameHeader(s, s');
    if Header(s).Some? {
      SameScan(s, s', Header(s).value.0);
    }
  }

  /** Every spelling of the header's name after its leading C frames the message as the usual one does. */
  lemma {:induction false} AnySpelling(before: string, name: string, rest: string)
    requires |name| == 16 && name[0] == 'C' && forall k :: 0 <= k < 16 ==> SameLetter(name[k], "Content-Length: "[k])
    ensures FirstFrame(before + name + rest) == FirstFrame(before + "Content-Length: " + rest)
  {
    var s, s' := before + name + rest, before + CONTENT_LENGTH + rest;
    forall k | 0 <= k < |s| ensures SameButLowerC(s[k], s'[k]) {
      var i := k - |before|;
      if 0 <= i < 16 {
        assert s[k] == name[i] && s'[k] == CONTENT_LENGTH[i];
        if i > 0 { OnlyLeadingC(i); }
      }
    }
    CaseDoesNotMatter(s, s');
  }

  lemma {:induction false} OnlyLeadingC(i: nat)
    requires 0 < i < 16
    ensures !SameLetter('C', CONTENT_LENGTH[i])
  {
  }

  // ---------- The whole stream ----------

  /** The body of ParseSipStream's loop, up to the point where the message is handed on. */
  method NextFrame(message: string) returns (f: Frame)
    ensures f == FirstFrame(message)
  {
    var lengthStart := MemFindAfter(CONTENT_LENGTH, message, 0);
    if lengthStart == None {
      return NeedMore;
    }
    FindFromFirst(CONTENT_LENGTH, message, 0, 0);
    var contentLen := ScanInt(message, lengthStart.value);
    var headerEnd := MemFindAfter(HEADER_END, message, lengthStart.value);
    if headerEnd == None {
      return NeedMore;
    }
    if contentLen == None {
      return Undefined;
    }
    var end := headerEnd.value + contentLen.value;
    if end > |message| {
      return NeedMore;
    }
    f := if end <= 0 then Backwards(end) else Message(end);
  }

  lemma {:induction false} FirstFrameIsFramer()
    ensures IsFramer(FirstFrame)
  {
  }

  const SIP: Framer := (FirstFrameIsFramer(); FirstFrame)

  /** Called with the bytes from `start` to the end of the buffer; `offset` is where it stops, relative
      to start. After |buffer| moves it gives up as unended: by then the original has come to some
      message start twice and goes on for ever (EndlessIff). */
  method ParseSipStream(buffer: string, start: nat) returns (offset: int, messages: seq<string>, outcome: Outcome)
    requires start <= |buffer|
    ensures start + offset >= 0 && Parse(SIP, buffer, start) == Parsed(start + offset, messages, outcome)
  {
    var messageStart: nat, moves: nat := start, 0;
    messages := [];
    NothingAhead(SIP, buffer, start);
    var frame := NextFrame(buffer[start..]);
    while GoesOn(frame)
      invariant Ahead(SIP, buffer, start, moves, messageStart, messages) && frame == SIP(buffer[messageStart..])
      decreases |buffer| - moves
    {
      var messageEnd := EndAt(frame, messageStart);
      if messageEnd < 0 || moves == |buffer| {
        break;
      }
      OneMoveOn(SIP, buffer, start, moves, messageStart, messages, messageEnd, moves + 1);
      messages := messages + [Between(buffer, messageStart, messageEnd)];
      messageStart, moves := messageEnd, moves + 1;
      frame := NextFrame(buffer[messageStart..]);
    }
    AheadAtEnd(SIP, buffer, start, moves, messageStart, messages);
    offset, outcome := messageStart - start, EndOf(frame, messageStart);
  }

  lemma {:induction false} SipIsPrefixStable()
    ensures PrefixStable(SIP, Framed)
  {
    forall a: string, b: string | Framed(a + b)
      ensures Framed(a) && (SIP(a) == NeedMore || (SIP(a).Message? && SIP(a) == SIP(a + b)))
    {
      FramePrefix(a, b);
    }
  }

  /** However a SIP stream whose complete headers are all framed is cut into pieces, feeding the
      pieces one by one delivers the messages and consumes the bytes of one ParseSipStream call on
      the whole stream, and every call returns. */
  lemma {:induction false} AnyCutting(pieces: seq<string>)
    requires WellFramed(SIP, Framed, Concat(pieces), 0)
    ensures var x := ReceiveAll(SIP, NEW_FEED, pieces);
            var whole := Parse(SIP, Concat(pieces), 0);
            && x.delivered == whole.messages && x.offset == whole.end
            && whole.outcome == Returned && AllReturn(SIP, NEW_FEED, pieces)
  {
    SipIsPrefixStable();
    assert SIP("") == NeedMore;
    AnyCuttingFromEmpty(SIP, Framed, pieces);
  }

  // ---------- Framed is needed ----------

  /** No complete header declares a negative length. */
  ghost predicate NotNegative(s: string) {
    Header(s).Some? && ScanInt(s, Header(s).value.0).Some? ==> ScanInt(s, Header(s).value.0).value >= 0
  }

  /** A match that lies inside a is found there. */
  lemma {:induction false} FindFromInside(pat: string, a: string, b: string, start: nat, i: nat)
    requires pat != [] && FindFrom(pat, a + b, start, i).Some? && FindFrom(pat, a + b, start, i).value <= |a|
    ensures FindFrom(pat, a, start, i) == FindFrom(pat, a + b, start, i)
    decreases |a| - i
  {
    FindFromFirst(pat, a + b, start, i);
    assert (a + b)[i] == a[i];
    if Candidate(pat, a + b, start, i) {
      FindFromHere(pat, a + b, start, i);
      MatchStable(pat, a, b, i);
    } else {
      if i + |pat| <= |a| { MatchStable(pat, a, b, i); }
      FindFromInside(pat, a, b, start, i + 1);
    }
  }

  lemma {:induction false} FindFromHere(pat: string, s: string, start: nat, i: nat)
    requires Candidate(pat, s, start, i)
    ensures FindFrom(pat, s, start, i) == Some(i + |pat|)
  {
  }

  lemma {:induction false} HeaderInside(a: string, b: string)
    requires Header(a + b).Some? && Header(a + b).value.1 <= |a|
    ensures Header(a) == Header(a + b)
  {
    var (p, h) := Header(a + b).value;
    FindFromInside(CONTENT_LENGTH, a, b, 0, 0);
    FindFromInside(HEADER_END, a, b, p, p);
  }

  /** A length scanned beyond the header has all its digits there. */
  lemma {:induction false} CutAtHeader(a: string, b: string)
    requires Header(a + b).Some? && Header(a + b).value.1 == |a|
    requires ScanEnd(a + b, Header(a + b).value.0) > |a|
    ensures FirstFrame(a) == Undefined
  {
    HeaderInside(a, b);
    var (p, h) := Header(a).value;
    HeaderEnds(a);
    assert (a + b)[h - 1] == a[h - 1] == '\n';
    var q := SkipSpace(a + b, p);
    assert h <= q;
    SpacesOnly(a, b, p);
  }

  lemma {:induction false} SpacesOnly(a: string, b: string, i: nat)
    requires i <= |a| <= SkipSpace(a + b, i)
    ensures SkipSpace(a, i) == |a|
    decreases |a| - i
  {
    if i < |a| {
      assert (a + b)[i] == a[i];
      SpacesOnly(a, b, i + 1);
    }
  }

  /** If a complete header is not framed, the parse of some piece of s comes to an undefined length. */
  lemma {:induction false} BadCut(s: string, i: nat) returns (c: nat)
    requires i <= |s| && WellFramed(SIP, NotNegative, s, i) && !WellFramed(SIP, Framed, s, i)
    ensures i <= c <= |s| && Reading(SIP, s[..c], i).outcome == NoLength
    decreases |s| - i
  {
    var t := s[i..];
    if Framed(t) {
      var j := i + SIP(t).len;
      WellFramedOne(SIP, Framed, s, i, j);
      WellFramedOne(SIP, NotNegative, s, i, j);
      c := BadCut(s, j);
      BadCutOver(s, i, j, c);
    } else {
      var k := BadHeader(t);
      c := i + k;
      CutBehind(s, i, c);
      NoLengthAt(s[..c], i);
    }
  }

  lemma {:induction false} NoLengthAt(s: string, i: nat)
    requires i <= |s| && FirstFrame(s[i..]) == Undefined
    ensures Reading(SIP, s, i).outcome == NoLength
  {
  }

  lemma {:induction false} BadCutOver(s: string, i: nat, j: nat, c: nat)
    requires i <= j <= c <= |s| && Framed(s[i..]) && NotNegative(s[i..]) && FirstFrame(s[i..]) == Message(j - i)
    requires Reading(SIP, s[..c], j).outcome == NoLength
    ensures Reading(SIP, s[..c], i).outcome == NoLength
  {
    CutBehind(s, i, c);
    WholeMessageShown(s[i..c], s[c..], j - i);
    ReadOne(SIP, s[..c], i, j);
  }

  lemma {:induction false} BadHeader(t: string) returns (c: nat)
    requires NotNegative(t) && !Framed(t)
    ensures c <= |t| && FirstFrame(t[..c]) == Undefined
  {
    var (p, h) := Header(t).value;
    if ScanInt(t, p) == None {
      c := |t|;
      assert t[..c] == t;
    } else {
      c := h;
      assert t == t[..h] + t[h..];
      CutAtHeader(t[..h], t[h..]);
    }
  }

  lemma {:induction false} WholeMessageShown(a: string, b: string, n: nat)
    requires NotNegative(a + b) && Framed(a + b) && FirstFrame(a + b) == Message(n) && n <= |a|
    ensures FirstFrame(a) == Message(n)
  {
    HeaderInside(a, b);
    FramePrefix(a, b);
    ScanStable(a, b, Header(a).value.0);
  }

  lemma {:induction false} BadCutting(s: string) returns (pieces: seq<string>)
    requires WellFramed(SIP, NotNegative, s, 0) && !WellFramed(SIP, Framed, s, 0)
    ensures Concat(pieces) == s && !AllReturn(SIP, NEW_FEED, pieces)
  {
    var c := BadCut(s, 0);
    var a, b := s[..c], s[c..];
    pieces := [a, b];
    ParseReads(SIP, a, 0);
    FirstCallStuck(SIP, a, b);
    ConcatTwo(a, b);
    assert a + b == s;
  }

  /** The calls on the pieces all return and deliver what one call on the whole stream delivers. */
  ghost predicate CutsRight(s: string, pieces: seq<string>) {
    && AllReturn(SIP, NEW_FEED, pieces)
    && ReceiveAll(SIP, NEW_FEED, pieces).delivered == Parse(SIP, s, 0).messages
  }

  /** Where no length is negative, a stream may be cut in any way if and only if all its complete
      headers are framed. (A negative length can hide a header that is not framed from every cutting.) */
  lemma {:induction false} AnyCuttingIff(s: string)
    requires WellFramed(SIP, NotNegative, s, 0)
    ensures WellFramed(SIP, Framed, s, 0) <==>
              forall pieces: seq<string> :: Concat(pieces) == s ==> CutsRight(s, pieces)
  {
    if WellFramed(SIP, Framed, s, 0) {
      forall pieces: seq<string> | Concat(pieces) == s ensures CutsRight(s, pieces) {
        AnyCutting(pieces);
      }
    } else {
      var pieces := BadCutting(s);
      assert !CutsRight(s, pieces);
    }
  }

  lemma {:induction false} DecimalStreamIsWellFramed(s: string)
    requires WellFramed(SIP, DecimalLength, s, 0)
    ensures WellFramed(SIP, Framed, s, 0)
  {
    forall t: string | DecimalLength(t) ensures Framed(t) { DecimalLengthIsFramed(t); }
    WellFramedWeaken(SIP, DecimalLength, Framed, s, 0);
  }

  // ---------- Exactly when a complete message is safe from what follows ----------

  lemma {:induction false} DigitsEndExtends(s: string, c: char, i: nat)
    requires i <= |s| && DigitsEnd(s, i) == |s| && IsDigit(c)
    ensures DigitsEnd(s + [c], i) == |s| + 1
    decreases |s| - i
  {
    if i < |s| {
      assert (s + [c])[i] == s[i];
      DigitsEndExtends(s, c, i + 1);
    } else {
      assert (s + [c])[i] == c;
      assert DigitsEnd(s + [c], i + 1) == i + 1;
    }
  }

  lemma {:induction false} SkipSpaceExtends(s: string, b: string, i: nat)
    requires i <= |s| && SkipSpace(s, i) < |s|
    ensures SkipSpace(s + b, i) == SkipSpace(s, i)
    decreases |s| - i
  {
    assert (s + b)[i] == s[i];
    if IsSpace(s[i]) { SkipSpaceExtends(s, b, i + 1); }
  }

  lemma {:induction false} DigitsEndSettled(s: string, b: string, i: nat)
    requires i <= |s| && DigitsEnd(s, i) < |s|
    ensures DigitsEnd(s + b, i) == DigitsEnd(s, i)
    decreases |s| - i
  {
    assert (s + b)[i] == s[i];
    if IsDigit(s[i]) { DigitsEndSettled(s, b, i + 1); }
  }

  /** A number that ends before the end of the buffer reads the same whatever follows. */
  lemma {:induction false} ScanSettled(s: string, b: string, i: nat)
    requires i <= |s| && ScanInt(s, i).Some? && ScanEnd(s, i) < |s|
    ensures ScanInt(s + b, i) == ScanInt(s, i) && ScanEnd(s + b, i) == ScanEnd(s, i)
  {
    var q, d, e := SkipSpace(s, i), DigitsStart(s, i), ScanEnd(s, i);
    SkipSpaceExtends(s, b, i);
    assert (s + b)[q] == s[q];
    DigitsEndSettled(s, b, d);
    RestOfConcat(s, b, d, e);
  }

  /** A number that reaches the end of the buffer changes with one more digit. */
  lemma {:induction false} ScanUnsettled(s: string, i: nat)
    requires i <= |s| && ScanInt(s, i).Some? && ScanEnd(s, i) == |s|
    ensures ScanInt(s + "9", i) != ScanInt(s, i)
  {
    var q, d, e := SkipSpace(s, i), DigitsStart(s, i), ScanEnd(s, i);
    SkipSpaceExtends(s, "9", i);
    assert (s + "9")[q] == s[q];
    DigitsEndExtends(s, '9', d);
    RestWithNine(s, d);
    ValueWithNine(s[d..]);
  }

  lemma {:induction false} RestWithNine(s: string, d: nat)
    requires d <= |s|
    ensures (s + "9")[d..|s| + 1] == s[d..] + "9" && s[d..|s|] == s[d..]
  {
  }

  lemma {:induction false} ValueWithNine(digits: string)
    ensures DigitsValue(digits + "9") == DigitsValue(digits) * 10 + 9
  {
    var longer := digits + "9";
    assert longer[..|longer| - 1] == digits && longer[|longer| - 1] == '9';
  }

  lemma {:induction false} SettledFrame(s: string, b: string)
    requires FirstFrame(s).Message? && ScanEnd(s, Header(s).value.0) < |s|
    ensures FirstFrame(s + b) == FirstFrame(s)
  {
    HeaderStable(s, b);
    ScanSettled(s, b, Header(s).value.0);
  }

  lemma {:induction false} UnsettledFrame(s: string)
    requires FirstFrame(s).Message? && ScanEnd(s, Header(s).value.0) == |s|
    ensures FirstFrame(s + "9") != FirstFrame(s)
  {
    HeaderStable(s, "9");
    ScanUnsettled(s, Header(s).value.0);
    OtherLength(s, s + "9");
  }

  lemma {:induction false} OtherLength(s: string, t: string)
    requires FirstFrame(s).Message? && Header(t) == Header(s)
    requires ScanInt(t, Header(s).value.0) != ScanInt(s, Header(s).value.0)
    ensures FirstFrame(t) != FirstFrame(s)
  {
    FrameTells(s);
    if FirstFrame(t) == FirstFrame(s) { FrameTells(t); }
  }

  lemma {:induction false} FrameTells(s: string)
    requires FirstFrame(s).Message?
    ensures Header(s).Some? && ScanInt(s, Header(s).value.0) == Some(FirstFrame(s).len - Header(s).value.1)
  {
  }

  /** A complete message stays the first message under every continuation if and only if the
      declared length is followed by at least one more byte in the buffer. It is not when white
      space up to the buffer's end makes sscanf read the length out of the body. */
  lemma {:induction false} SafeFromContinuationIff(s: string)
    requires FirstFrame(s).Message?
    ensures (forall b: string :: FirstFrame(s + b) == FirstFrame(s)) <==> ScanEnd(s, Header(s).value.0) < |s|
  {
    if ScanEnd(s, Header(s).value.0) < |s| {
      forall b: string ensures FirstFrame(s + b) == FirstFrame(s) {
        SettledFrame(s, b);
      }
    } else {
      UnsettledFrame(s);
    }
  }

  // ---------- Messages end to end ----------

  /** A header of nothing but a Content-Length, and what follows it. */
  function Plain(length: string, rest: string): string {
    CONTENT_LENGTH + length + HEADER_END + rest
  }

  lemma {:induction false} HeaderOfPlain(length: string, rest: string)
    requires forall k :: 0 <= k < |length| ==> IsDigit(length[k]) || length[k] == '-'
    ensures Header(Plain(length, rest)) == Some((16, 20 + |length|))
  {
    var s := Plain(length, rest);
    var e := 16 + |length|;
    assert MatchesAt(CONTENT_LENGTH, s, 0) && MatchesAt(HEADER_END, s, e);
    forall k: nat | 16 <= k < e ensures !Candidate(HEADER_END, s, 16, k) {
      assert s[k] == length[k - 16];
      HeaderEndStarts(s, k);
    }
    FindFromSkips(HEADER_END, s, 16, 16, e);
    FindFromHere(HEADER_END, s, 16, e);
    FindFromHere(CONTENT_LENGTH, s, 0, 0);
  }

  lemma {:induction false} HeaderEndStarts(s: string, k: nat)
    requires k < |s|
    ensures MatchesAt(HEADER_END, s, k) ==> ToLower(s[k]) == '\r'
  {
    if MatchesAt(HEADER_END, s, k) {
      assert ToLower(s[k + 0]) == ToLower(HEADER_END[0]);
    }
  }

  lemma {:induction false} LengthOfPlain(length: string, rest: string, sign: nat)
    requires sign < |length| && sign <= 1 && (sign == 1 ==> length[0] == '-')
    requires forall k :: sign <= k < |length| ==> IsDigit(length[k])
    requires DigitsValue(length[sign..]) <= INT_MAX
    ensures var v: int := DigitsValue(length[sign..]);
            ScanInt(Plain(length, rest), 16) == Some(if sign == 1 then -v else v)
    ensures ScanEnd(Plain(length, rest), 16) == 16 + |length|
  {
    var s, d, e := Plain(length, rest), 16 + sign, 16 + |length|;
    PlainAt(length, rest);
    forall k | d <= k < e ensures IsDigit(s[k]) { assert s[16..e][k - 16] == s[k]; }
    assert s[16..e][sign..] == s[d..e] && s[16..e][0] == s[16];
    ScanIs(s, 16, 16, d, e, length[sign..]);
  }

  lemma {:induction false} PlainAt(length: string, rest: string)
    ensures var s, e := Plain(length, rest), 16 + |length|;
            e < |s| && s[16..e] == length && s[e] == '\r'
  {
    var s, e := Plain(length, rest), 16 + |length|;
    assert s == (CONTENT_LENGTH + length) + (HEADER_END + rest);
    assert s[e] == (HEADER_END + rest)[0] == '\r';
  }

  /** Its first frame; the digits of the length begin after `sign` characters. */
  lemma {:induction false} FrameOfPlain(length: string, rest: string, sign: nat)
    requires sign < |length| && sign <= 1 && (sign == 1 ==> length[0] == '-')
    requires forall k :: sign <= k < |length| ==> IsDigit(length[k])
    requires DigitsValue(length[sign..]) <= INT_MAX
    ensures var v: int := DigitsValue(length[sign..]);
            var end := 20 + |length| + if sign == 1 then -v else v;
            FirstFrame(Plain(length, rest)) ==
            if end > 20 + |length| + |rest| then NeedMore else if end <= 0 then Backwards(end) else Message(end)
  {
    HeaderOfPlain(length, rest);
    LengthOfPlain(length, rest, sign);
    assert |Plain(length, rest)| == 20 + |length| + |rest|;
  }

  /** A text that shows itself as one message, its length followed by something inside it. */
  ghost predicate WholeMessage(m: string) {
    FirstFrame(m) == Message(|m|) && ScanEnd(m, Header(m).value.0) < |m|
  }

  /** Whole messages sent one behind the other are handed on as they are, by one call or piece by piece. */
  lemma {:induction false} MessagesArrive(messages: seq<string>)
    requires forall i :: 0 <= i < |messages| ==> WholeMessage(messages[i])
    ensures Parse(SIP, Concat(messages), 0) == Parsed(|Concat(messages)|, messages, Returned)
  {
    forall i, rest: string | 0 <= i < |messages| ensures SIP(messages[i] + rest) == Message(|messages[i]|) {
      SettledFrame(messages[i], rest);
    }
    assert SIP("") == NeedMore;
    assert "" + Concat(messages) == Concat(messages);
    MessagesComeBack(SIP, "", messages);
  }

  /** A number in decimal. */
  function Decimal(n: nat): (d: string)
    ensures |d| > 0 && forall k :: 0 <= k < |d| ==> '0' <= d[k] <= '9'
  {
    var last := [('0' as int + n % 10) as char];
    if n < 10 then last else Decimal(n / 10) + last
  }

  lemma {:induction false} DecimalReads(n: nat)
    ensures DigitsValue(Decimal(n)) == n
  {
    var d := Decimal(n);
    if n < 10 {
      assert d[..0] == "";
    } else {
      DecimalReads(n / 10);
      assert d[..|d| - 1] == Decimal(n / 10);
    }
  }

  /** A header with the body's length in decimal and that body are a whole message. */
  lemma {:induction false} LengthInDecimal(body: string)
    requires |body| <= 0x7FFF_FFFF
    ensures WholeMessage(Plain(Decimal(|body|), body))
  {
    var length, n := Decimal(|body|), |body|;
    DecimalReads(n);
    assert length[0..] == length;
    FrameOfPlain(length, body, 0);
    HeaderOfPlain(length, body);
    LengthOfPlain(length, body, 0);
  }

  // ---------- Exactly when the loop returns ----------

  /** If the header is complete, the declared length is a number that does not point at or before the
      start of the message. */
  ghost predicate Ends(s: string) {
    Header(s).Some? ==>
      var (p, h) := Header(s).value;
      ScanInt(s, p).Some? && h + ScanInt(s, p).value > 0
  }

  lemma {:induction false} EndsTells()
    ensures TellsEnds(SIP, Ends)
  {
    forall t: string ensures Ends(t) <==> SIP(t) == NeedMore || SIP(t).Message? {
      EndsIff(t);
    }
  }

  lemma {:induction false} EndsIff(t: string)
    ensures Ends(t) <==> FirstFrame(t) == NeedMore || FirstFrame(t).Message?
  {
  }

  /** What a caller can check: a stream whose complete headers all declare such a length is read
      forwards to the end, and on no other. */
  lemma {:induction false} ReadsToEndIff(s: string)
    ensures Reading(SIP, s, 0).outcome == Returned <==> WellFramed(SIP, Ends, s, 0)
    ensures WellFramed(SIP, Ends, s, 0) ==> Parse(SIP, s, 0) == Reading(SIP, s, 0)
  {
    EndsTells();
    StreamCutting.ReadsToEndIff(SIP, Ends, s, 0);
    if WellFramed(SIP, Ends, s, 0) { ParseReads(SIP, s, 0); }
  }

  /** The loop returns if and only if one of its first |s| + 1 rounds finds no complete message, forwards
      or backwards as they may go; if not, it meets an undefined length, leaves the buffer at its front,
      or comes to some message start twice and goes on for ever. */
  lemma {:induction false} ReturnsIff(s: string)
    ensures Parse(SIP, s, 0).outcome == Returned <==> exists k: nat :: k <= |s| && ReturnsAt(SIP, s, 0, k)
    ensures Parse(SIP, s, 0).outcome == Unended <==>
              exists a: nat, b: nat :: a < b <= |s| + 1 && SameStart(SIP, s, 0, a, b)
    ensures Parse(SIP, s, 0).outcome == Unended <==> forall k: nat :: Place(SIP, s, 0, k).Some?
  {
    StreamCutting.ReturnsIff(SIP, s, 0);
    EndlessIff(SIP, s, 0);
  }

  lemma {:induction false} TwoDigits(d: string)
    requires |d| == 2 && IsDigit(d[0]) && IsDigit(d[1])
    ensures DigitsValue(d) == (d[0] as int - '0' as int) * 10 + (d[1] as int - '0' as int)
  {
    assert d[..1][..0] == "";
    assert DigitsValue(d[..1]) == d[0] as int - '0' as int;
  }

  lemma {:induction false} ThreeDigits(d: string)
    requires |d| == 3 && IsDigit(d[0]) && IsDigit(d[1]) && IsDigit(d[2])
    ensures DigitsValue(d) == DigitsValue(d[..2]) * 10 + (d[2] as int - '0' as int)
    ensures DigitsValue(d[..2]) == (d[0] as int - '0' as int) * 10 + (d[1] as int - '0' as int)
  {
    TwoDigits(d[..2]);
  }

  const NEGATIVE := Plain("-23", "")

  /** A negative length can send the loop back to the very message start it came from, where every
      later round starts too. */
  lemma {:induction false} NegativeLengthStandsStill()
    ensures forall k: nat :: Place(SIP, NEGATIVE, 0, k) == Some(0)
    ensures Parse(SIP, NEGATIVE, 0).outcome == Unended
  {
    FrameOfNegative();
    StandsStill(SIP, NEGATIVE);
  }

  lemma {:induction false} FrameOfNegative()
    ensures FirstFrame(NEGATIVE) == Backwards(0)
  {
    FrameOfMinus(NEGATIVE, "-23", "", 23);
  }

  /** A length of a minus sign and two digits with value v. */
  lemma {:induction false} FrameOfMinus(s: string, length: string, rest: string, v: nat)
    requires s == Plain(length, rest) && |length| == 3 && length[0] == '-' && IsDigit(length[1]) && IsDigit(length[2])
    requires v == (length[1] as int - '0' as int) * 10 + (length[2] as int - '0' as int) && 23 <= v
    ensures FirstFrame(s) == Backwards(23 - v)
  {
    TwoDigits(length[1..]);
    FrameOfPlain(length, rest, 1);
  }

  const BACK_LAST := Plain("-60", "")
  const BACK_MIDDLE := Plain("999", "xxxxxxxxxxxxxx" + BACK_LAST)
  const BACK := Plain("40", "abc" + BACK_MIDDLE)

  lemma {:induction false} PlainThen(length: string, rest: string, next: string, j: nat)
    requires j == 20 + |length| + |rest|
    ensures Plain(length, rest + next)[j..] == next && |Plain(length, rest + next)| == j + |next|
  {
    assert Plain(length, rest + next) == Plain(length, rest) + next;
  }

  lemma {:induction false} PiecesOfBack()
    ensures |BACK| == 85 && BACK[25..] == BACK_MIDDLE && BACK[62..] == BACK_LAST
  {
    PlainThen("40", "abc", BACK_MIDDLE, 25);
    PlainThen("999", "xxxxxxxxxxxxxx", BACK_LAST, 37);
    assert BACK[25..][37..] == BACK[62..];
  }

  lemma {:induction false} FirstOfBack(s: string, length: string, rest: string)
    requires length == "40" && |rest| >= 40 && s == Plain(length, rest)
    ensures FirstFrame(s) == Message(62)
  {
    TwoDigits(length[0..]);
    FrameOfPlain(length, rest, 0);
  }

  lemma {:induction false} MiddleOfBack(s: string, length: string, rest: string)
    requires length == "999" && |rest| < 999 && s == Plain(length, rest)
    ensures FirstFrame(s) == NeedMore
  {
    ThreeDigits(length[0..]);
    FrameOfPlain(length, rest, 0);
  }

  /** A negative length can also send the loop back into a message already handed on, and there it
      returns: from 0 to 62, back to 25, and out. */
  lemma {:induction false} TurnsBackAndReturns()
    ensures FirstFrame(BACK) == Message(62) && FirstFrame(BACK[62..]) == Backwards(-37)
    ensures Parse(SIP, BACK, 0) == Parsed(25, [BACK[..62], ""], Returned)
  {
    PiecesOfBack();
    FirstOfBack(BACK, "40", "abc" + BACK_MIDDLE);
    MiddleOfBack(BACK_MIDDLE, "999", "xxxxxxxxxxxxxx" + BACK_LAST);
    FrameOfMinus(BACK_LAST, "-60", "", 60);
    BackAndOut(SIP, BACK, 62, 25);
  }

  // ---------- A cut that changes the messages ----------

  const CUT_FIRST := "Content-Length: \r\n\r\n0"
  const CUT_WHOLE := "Content-Length: \r\n\r\n09"

  lemma {:induction false} HeaderOfCut(s: string)
    requires s == CUT_FIRST || s == CUT_WHOLE
    ensures Header(s) == Some((16, 20)) && SkipSpace(s, 16) == 20 && DigitsStart(s, 16) == 20
  {
    assert Candidate(CONTENT_LENGTH, s, 0, 0);
    assert s[16] == '\r' && s[17] == '\n' && s[18] == '\r' && s[19] == '\n' && s[20] == '0';
    assert Candidate(HEADER_END, s, 16, 16);
    assert SkipSpace(s, 20) == 20 && SkipSpace(s, 19) == 20 && SkipSpace(s, 18) == 20 && SkipSpace(s, 17) == 20;
  }

  lemma {:induction false} FirstOfCut()
    ensures FirstFrame(CUT_FIRST) == Message(20) && ScanEnd(CUT_FIRST, 16) == |CUT_FIRST|
  {
    var s := CUT_FIRST;
    HeaderOfCut(s);
    assert DigitsEnd(s, 21) == 21 && DigitsEnd(s, 20) == 21;
    assert s[20..21] == "0" && "0"[..0] == "";
    assert DigitsValue("0") == 0;
  }

  lemma {:induction false} WholeOfCut()
    ensures FirstFrame(CUT_WHOLE) == NeedMore
  {
    var s := CUT_WHOLE;
    HeaderOfCut(s);
    assert s[21] == '9';
    assert DigitsEnd(s, 22) == 22 && DigitsEnd(s, 21) == 22 && DigitsEnd(s, 20) == 22;
    var digits := s[20..22];
    assert digits == "09" && digits[..1] == "0" && "0"[..0] == "";
    assert DigitsValue("0") == 0;
    assert DigitsValue(digits) == 9;
  }

  /** White space before the length lets sscanf read it behind the header: cut after the "0" the stream
      shows a message, and in one piece none. */
  lemma {:induction false} CutChangesMessages()
    ensures FirstFrame(CUT_FIRST).Message? && ScanEnd(CUT_FIRST, Header(CUT_FIRST).value.0) == |CUT_FIRST|
    ensures ReceiveAll(SIP, NEW_FEED, [CUT_FIRST, "9"]).delivered == [CUT_FIRST[..20]]
    ensures Parse(SIP, Concat([CUT_FIRST, "9"]), 0).messages == []
  {
    FirstOfCut();
    HeaderOfCut(CUT_FIRST);
    CutDelivers();
    WholeDelivers();
  }

  lemma {:induction false} CutDelivers()
    ensures ReceiveAll(SIP, NEW_FEED, [CUT_FIRST, "9"]).delivered == [CUT_FIRST[..20]]
  {
    FirstOfCut();
    ShortNeedsMore(CUT_FIRST[20..]);
    ShortNeedsMore((CUT_FIRST + "9")[20..]);
    TwoPieces(SIP, CUT_FIRST, "9", 20);
  }

  lemma {:induction false} WholeDelivers()
    ensures Parse(SIP, Concat([CUT_FIRST, "9"]), 0).messages == []
  {
    WholeOfCut();
    ConcatOfCut();
    ParseReads(SIP, CUT_WHOLE, 0);
  }

  lemma {:induction false} ShortNeedsMore(s: string)
    requires |s| < |CONTENT_LENGTH|
    ensures SIP(s) == NeedMore
  {
    FindFromFirst(CONTENT_LENGTH, s, 0, 0);
  }

  lemma {:induction false} ConcatOfCut()
    ensures Concat([CUT_FIRST, "9"]) == CUT_WHOLE && CUT_WHOLE[0..] == CUT_WHOLE && CUT_FIRST[0..] == CUT_FIRST
  {
    ConcatTwo(CUT_FIRST, "9");
    assert CUT_FIRST + "9" == CUT_WHOLE;
  }
}
