/** Cutting a byte stream into messages with any framing rule, in one go or piece by piece. */
module StreamCutting {
  import opened AudioChunks

  /** What one round of ParseSipStream's loop makes of the bytes from the current message start.
      NeedMore: it returns. Message(n): the first n bytes are handed on. Undefined: the declared
      length has no defined value. Backwards(e): the message would end at e, not after its start. */
  datatype Frame = NeedMore | Message(len: nat) | Undefined | Backwards(end: int)

  ghost predicate IsFramer(f: string -> Frame) {
    forall s: string ::
      (f(s).Message? ==> 0 < f(s).len <= |s|) && (f(s).Backwards? ==> f(s).end <= 0)
  }

  /** A rule that tells the first message of a buffer. */
  type Framer = f: string -> Frame | IsFramer(f) witness (s: string) => NeedMore

  /** How a parse ends. Returned: the loop returns. NoLength: it goes on with an undefined length.
      BeforeBuffer: it goes on in front of the buffer. Unended: it goes on inside the buffer. */
  datatype Outcome = Returned | NoLength | BeforeBuffer | Unended

  /** Where a parse stopped, the messages handed on, and how it ended. */
  datatype Parsed = Parsed(end: nat, messages: seq<string>, outcome: Outcome)

  function Behind(messages: seq<string>, rest: Parsed): Parsed {
    rest.(messages := messages + rest.messages)
  }

  // ---------- The loop ----------

  predicate GoesOn(frame: Frame) {
    frame.Message? || frame.Backwards?
  }

  /** Where a round that starts at i ends the message and goes on. */
  function EndAt(frame: Frame, i: nat): int
    requires GoesOn(frame)
  {
    i + if frame.Message? then frame.len else frame.end
  }

  /** What a round that starts at i makes of the loop. */
  function EndOf(frame: Frame, i: nat): Outcome {
    match frame
    case NeedMore => Returned
    case Undefined => NoLength
    case _ => if EndAt(frame, i) >= 0 then Unended else BeforeBuffer
  }

  /** Where the round that starts at i leads, forwards or backwards, if the loop goes on inside the
      buffer. */
  function Next(f: Framer, s: string, i: nat): (r: Option<nat>)
    requires i <= |s|
    ensures r.Some? ==> r.value <= |s|
  {
    assert IsFramer(f);
    var frame := f(s[i..]);
    if GoesOn(frame) && EndAt(frame, i) >= 0 then Some(EndAt(frame, i)) else None
  }

  function Ending(f: Framer, s: string, i: nat): (r: Outcome)
    requires i <= |s|
    ensures r == Unended <==> Next(f, s, i).Some?
  {
    EndOf(f(s[i..]), i)
  }

  /** The bytes between two places; there are none if the second is not behind the first. */
  function Between(s: string, i: nat, j: nat): string
    requires i <= |s| && j <= |s|
  {
    if i <= j then s[i..j] else ""
  }

  /** The loop from position i on, for so many moves at most. */
  function Rounds(f: Framer, s: string, i: nat, moves: nat): (r: Parsed)
    requires i <= |s|
    ensures r.end <= |s|
    decreases moves
  {
    var next := Next(f, s, i);
    if next == None || moves == 0 then Parsed(i, [], Ending(f, s, i))
    else Behind([Between(s, i, next.value)], Rounds(f, s, next.value, moves - 1))
  }

  lemma {:induction false} RoundMoves(f: Framer, s: string, i: nat, j: nat, moves: nat)
    requires i <= |s| && moves > 0 && Next(f, s, i) == Some(j)
    ensures j <= |s| && Rounds(f, s, i, moves) == Behind([Between(s, i, j)], Rounds(f, s, j, moves - 1))
  {
  }

  /** Parsing s from position i on. A loop that has not ended after |s| moves never does (EndlessIff). */
  function Parse(f: Framer, s: string, i: nat): (r: Parsed)
    requires i <= |s|
    ensures r.end <= |s|
  {
    Rounds(f, s, i, |s|)
  }

  /** The message start that round number k comes to, if there is such a round. */
  function Place(f: Framer, s: string, i: nat, k: nat): (r: Option<nat>)
    requires i <= |s|
    ensures r.Some? ==> r.value <= |s|
  {
    if k == 0 then Some(i)
    else
      var last := Place(f, s, i, k - 1);
      if last == None then None else Next(f, s, last.value)
  }

  lemma {:induction false} PlaceFromNext(f: Framer, s: string, i: nat, k: nat)
    requires i <= |s| && Next(f, s, i).Some?
    ensures Place(f, s, i, k + 1) == Place(f, s, Next(f, s, i).value, k)
  {
    if k == 0 {
      assert Place(f, s, i, 0) == Some(i);
    } else {
      PlaceFromNext(f, s, i, k - 1);
    }
  }

  lemma {:induction false} NoneStays(f: Framer, s: string, i: nat, k: nat, m: nat)
    requires i <= |s| && k <= m && Place(f, s, i, k) == None
    ensures Place(f, s, i, m) == None
  {
    if k < m {
      NoneStays(f, s, i, k, m - 1);
    }
  }

  /** Round k is the last one. */
  ghost predicate LastRound(f: Framer, s: string, i: nat, k: nat)
    requires i <= |s|
  {
    Place(f, s, i, k).Some? && Next(f, s, Place(f, s, i, k).value) == None
  }

  lemma {:induction false} NoneBehind(f: Framer, s: string, i: nat, k: nat, m: nat)
    requires i <= |s| && LastRound(f, s, i, k) && m == k + 1
    ensures Place(f, s, i, m) == None
  {
  }

  lemma {:induction false} OneLastRound(f: Framer, s: string, i: nat, k: nat, m: nat)
    requires i <= |s| && LastRound(f, s, i, k) && Place(f, s, i, m).Some?
    ensures m <= k
  {
    if k < m {
      NoneBehind(f, s, i, k, k + 1);
      NoneStays(f, s, i, k + 1, m);
    }
  }

  /** Rounds stops at round k, the last one if it comes within so many moves. */
  ghost predicate StopsAt(f: Framer, s: string, i: nat, moves: nat, k: nat)
    requires i <= |s|
  {
    var r := Rounds(f, s, i, moves);
    && k <= moves && Place(f, s, i, k) == Some(r.end) && r.outcome == Ending(f, s, r.end)
    && (LastRound(f, s, i, k) || (k == moves && Next(f, s, r.end).Some?))
  }

  lemma {:induction false} StopsFromNext(f: Framer, s: string, i: nat, j: nat, moves: nat, k: nat, m: nat)
    requires i <= |s| && Next(f, s, i) == Some(j) && moves > 0 && StopsAt(f, s, j, moves - 1, k) && m == k + 1
    ensures StopsAt(f, s, i, moves, m)
  {
    PlaceFromNext(f, s, i, k);
  }

  lemma {:induction false} RoundsStop(f: Framer, s: string, i: nat, moves: nat) returns (k: nat)
    requires i <= |s|
    ensures StopsAt(f, s, i, moves, k)
    decreases moves
  {
    var next := Next(f, s, i);
    if next.Some? && moves > 0 {
      var m := RoundsStop(f, s, next.value, moves - 1);
      k := m + 1;
      StopsFromNext(f, s, i, next.value, moves, m, k);
    } else {
      k := 0;
    }
  }

  // ---------- When the loop ends ----------

  /** Round k finds no complete message. */
  ghost predicate ReturnsAt(f: Framer, s: string, i: nat, k: nat)
    requires i <= |s|
  {
    Place(f, s, i, k).Some? && f(s[Place(f, s, i, k).value..]) == NeedMore
  }

  /** Rounds a and b start at the same place. */
  ghost predicate SameStart(f: Framer, s: string, i: nat, a: nat, b: nat)
    requires i <= |s|
  {
    Place(f, s, i, a).Some? && Place(f, s, i, a) == Place(f, s, i, b)
  }

  lemma {:induction false} SameStartRepeats(f: Framer, s: string, i: nat, a: nat, b: nat, k: nat)
    requires i <= |s| && a < b && SameStart(f, s, i, a, b)
    ensures Place(f, s, i, k).Some?
    decreases k
  {
    if k <= b {
      if Place(f, s, i, k) == None { NoneStays(f, s, i, k, b); }
    } else {
      var m := k - b;
      InStep(f, s, i, a, b, m);
      SameStartRepeats(f, s, i, a, b, a + m);
    }
  }

  lemma {:induction false} InStep(f: Framer, s: string, i: nat, a: nat, b: nat, m: nat)
    requires i <= |s| && SameStart(f, s, i, a, b)
    ensures Place(f, s, i, a + m) == Place(f, s, i, b + m)
  {
    if m > 0 {
      InStep(f, s, i, a, b, m - 1);
    }
  }

  /** The starts of the first k rounds. */
  ghost function Starts(f: Framer, s: string, i: nat, k: nat): (r: set<nat>)
    requires i <= |s|
    ensures forall x :: x in r ==> x <= |s|
    ensures forall a: nat :: a < k && Place(f, s, i, a).Some? ==> Place(f, s, i, a).value in r
  {
    if k == 0 then {}
    else
      Starts(f, s, i, k - 1)
      + if Place(f, s, i, k - 1).Some? then {Place(f, s, i, k - 1).value} else {}
  }

  lemma {:induction false} StartsCome(f: Framer, s: string, i: nat, k: nat, x: nat) returns (a: nat)
    requires i <= |s| && x in Starts(f, s, i, k)
    ensures a < k && Place(f, s, i, a) == Some(x)
  {
    if Place(f, s, i, k - 1) == Some(x) {
      a := k - 1;
    } else {
      a := StartsCome(f, s, i, k - 1, x);
    }
  }

  lemma {:induction false} AtMost(starts: set<nat>, n: nat)
    requires forall x :: x in starts ==> x < n
    ensures |starts| <= n
  {
    if n > 0 {
      AtMost(starts - {n - 1}, n - 1);
    } else {
      assert starts == {};
    }
  }

  /** Either the first k rounds all start at different places, or two do not. */
  lemma {:induction false} StartsDiffer(f: Framer, s: string, i: nat, k: nat) returns (a: nat, b: nat)
    requires i <= |s| && (k > 0 ==> Place(f, s, i, k - 1).Some?)
    ensures (a < b < k && SameStart(f, s, i, a, b)) || |Starts(f, s, i, k)| == k
  {
    a, b := 0, 0;
    if k > 0 {
      var m := k - 1;
      a, b := StartsDiffer(f, s, i, m);
      var x := Place(f, s, i, m).value;
      StartsGrow(f, s, i, m, k);
      if !(a < b < m && SameStart(f, s, i, a, b)) && x in Starts(f, s, i, m) {
        b := m;
        a := StartsCome(f, s, i, m, x);
      }
    }
  }

  lemma {:induction false} StartsGrow(f: Framer, s: string, i: nat, m: nat, k: nat)
    requires i <= |s| && k == m + 1 && Place(f, s, i, m).Some?
    ensures Starts(f, s, i, k) == Starts(f, s, i, m) + {Place(f, s, i, m).value}
  {
  }

  /** There are |s| + 1 places, so more rounds than that start twice at one of them. */
  lemma {:induction false} Pigeonhole(f: Framer, s: string, i: nat) returns (a: nat, b: nat)
    requires i <= |s| && Place(f, s, i, |s| + 1).Some?
    ensures a < b <= |s| + 1 && SameStart(f, s, i, a, b)
  {
    a, b := StartsDiffer(f, s, i, |s| + 2);
    AtMost(Starts(f, s, i, |s| + 2), |s| + 1);
  }

  lemma {:induction false} UnendedIff(f: Framer, s: string, i: nat)
    requires i <= |s|
    ensures Parse(f, s, i).outcome == Unended <==> Place(f, s, i, |s| + 1).Some?
  {
    var last := RoundsStop(f, s, i, |s|);
    if Place(f, s, i, |s| + 1).Some? && LastRound(f, s, i, last) {
      OneLastRound(f, s, i, last, |s| + 1);
    }
    if LastRound(f, s, i, last) && last <= |s| {
      NoneStays(f, s, i, last + 1, |s| + 1);
    }
  }

  /** The loop goes on for ever if and only if it comes to some message start twice, and then it does
      so within the first |s| + 2 rounds. */
  lemma {:induction false} EndlessIff(f: Framer, s: string, i: nat)
    requires i <= |s|
    ensures Parse(f, s, i).outcome == Unended <==> forall k: nat :: Place(f, s, i, k).Some?
    ensures Parse(f, s, i).outcome == Unended <==> exists a: nat, b: nat :: a < b && SameStart(f, s, i, a, b)
    ensures Parse(f, s, i).outcome == Unended ==>
              exists a: nat, b: nat :: a < b <= |s| + 1 && SameStart(f, s, i, a, b)
  {
    UnendedIff(f, s, i);
    if Place(f, s, i, |s| + 1).Some? {
      var a, b := Pigeonhole(f, s, i);
      forall k: nat ensures Place(f, s, i, k).Some? { SameStartRepeats(f, s, i, a, b, k); }
    } else {
      forall a: nat, b: nat | a < b ensures !SameStart(f, s, i, a, b) {
        if SameStart(f, s, i, a, b) { SameStartRepeats(f, s, i, a, b, |s| + 1); }
      }
    }
  }

  /** A round that leads to its own start. */
  lemma {:induction false} StandsStill(f: Framer, s: string)
    requires f(s) == Backwards(0)
    ensures forall k: nat :: Place(f, s, 0, k) == Some(0)
    ensures Parse(f, s, 0).outcome == Unended
  {
    assert s[0..] == s;
    forall k: nat ensures Place(f, s, 0, k) == Some(0) { PlaceStays(f, s, 0, k); }
    EndlessIff(f, s, 0);
  }

  lemma {:induction false} PlaceStays(f: Framer, s: string, i: nat, k: nat)
    requires i <= |s| && Next(f, s, i) == Some(i)
    ensures Place(f, s, i, k) == Some(i)
  {
    if k > 0 {
      PlaceStays(f, s, i, k - 1);
    }
  }

  /** Forwards to j, back to k, and out. */
  lemma {:induction false} BackAndOut(f: Framer, s: string, j: nat, k: nat)
    requires k < j <= |s| && 2 <= |s|
    requires f(s) == Message(j) && f(s[j..]) == Backwards(k - j) && f(s[k..]) == NeedMore
    ensures Parse(f, s, 0) == Parsed(k, [s[..j], ""], Returned)
  {
    assert s[0..] == s && s[0..j] == s[..j];
    RoundMoves(f, s, 0, j, |s|);
    RoundMoves(f, s, j, k, |s| - 1);
    assert Rounds(f, s, k, |s| - 2) == Parsed(k, [], Returned);
    assert [s[..j]] + ([""] + []) == [s[..j], ""];
  }

  lemma {:induction false} LastRoundIsEnd(f: Framer, s: string, i: nat, k: nat)
    requires i <= |s| && LastRound(f, s, i, k)
    ensures var r := Parse(f, s, i); Place(f, s, i, k) == Some(r.end) && r.outcome == Ending(f, s, r.end)
  {
    NoneBehind(f, s, i, k, k + 1);
    EndlessIff(f, s, i);
    var last := RoundsStop(f, s, i, |s|);
    OneLastRound(f, s, i, k, last);
    OneLastRound(f, s, i, last, k);
  }

  /** The loop returns if and only if some round finds no complete message, and then one of the first
      |s| + 1 rounds does. */
  lemma {:induction false} ReturnsIff(f: Framer, s: string, i: nat)
    requires i <= |s|
    ensures Parse(f, s, i).outcome == Returned <==> exists k: nat :: ReturnsAt(f, s, i, k)
    ensures Parse(f, s, i).outcome == Returned ==>
              exists k: nat :: k <= |s| && ReturnsAt(f, s, i, k) && Place(f, s, i, k) == Some(Parse(f, s, i).end)
  {
    var last := RoundsStop(f, s, i, |s|);
    if Parse(f, s, i).outcome == Returned {
      assert ReturnsAt(f, s, i, last);
    }
    forall k: nat | ReturnsAt(f, s, i, k) ensures Parse(f, s, i).outcome == Returned {
      LastRoundIsEnd(f, s, i, k);
    }
  }

  // ---------- Reading forwards ----------

  /** Reading the messages from position i on one behind the other. Where the loop would not go
      forwards the reading is unended. */
  function Reading(f: Framer, s: string, i: nat): (r: Parsed)
    requires i <= |s|
    ensures i <= r.end <= |s|
    decreases |s| - i
  {
    match f(s[i..])
    case NeedMore => Parsed(i, [], Returned)
    case Message(n) => assert IsFramer(f); Behind([s[i..i + n]], Reading(f, s, i + n))
    case Undefined => Parsed(i, [], NoLength)
    case Backwards(_) => Parsed(i, [], Unended)
  }

  /** A reading that meets a message. */
  lemma {:induction false} ReadOne(f: Framer, s: string, i: nat, j: nat)
    requires i <= |s| && f(s[i..]).Message? && j == i + f(s[i..]).len
    ensures i < j <= |s| && Reading(f, s, i) == Behind([s[i..j]], Reading(f, s, j))
  {
    assert IsFramer(f);
  }

  /** A round that meets a message goes on as the reading does. */
  lemma {:induction false} RoundOne(f: Framer, s: string, i: nat, moves: nat, j: nat)
    requires i <= |s| && f(s[i..]).Message? && moves > 0 && j == i + f(s[i..]).len && j <= |s|
    requires Rounds(f, s, j, moves - 1) == Reading(f, s, j)
    ensures Rounds(f, s, i, moves) == Reading(f, s, i)
  {
    ReadOne(f, s, i, j);
    assert Next(f, s, i) == Some(j);
    RoundMoves(f, s, i, j, moves);
  }

  lemma {:induction false} RoundNone(f: Framer, s: string, i: nat, moves: nat)
    requires i <= |s| && !GoesOn(f(s[i..]))
    ensures Rounds(f, s, i, moves) == Reading(f, s, i) == Parsed(i, [], EndOf(f(s[i..]), i))
  {
  }

  /** As long as it goes forwards only, the loop does what the reading says. */
  lemma {:induction false} RoundsRead(f: Framer, s: string, i: nat, moves: nat)
    requires i <= |s| && Reading(f, s, i).outcome != Unended && |s| - i <= moves
    ensures Rounds(f, s, i, moves) == Reading(f, s, i)
    decreases |s| - i
  {
    if f(s[i..]).Message? {
      var j := i + f(s[i..]).len;
      ReadOne(f, s, i, j);
      RoundsRead(f, s, j, moves - 1);
      RoundOne(f, s, i, moves, j);
    } else {
      RoundNone(f, s, i, moves);
    }
  }

  lemma {:induction false} ParseReads(f: Framer, s: string, i: nat)
    requires i <= |s| && Reading(f, s, i).outcome != Unended
    ensures Parse(f, s, i) == Reading(f, s, i)
  {
    RoundsRead(f, s, i, |s|);
  }

  /** `good` holds of the rest of s at every message start the reading from i on reaches. */
  ghost predicate WellFramed(f: Framer, good: string -> bool, s: string, i: nat)
    requires i <= |s|
    decreases |s| - i
  {
    good(s[i..]) && (f(s[i..]).Message? ==> (assert IsFramer(f); WellFramed(f, good, s, i + f(s[i..]).len)))
  }

  lemma {:induction false} WellFramedOne(f: Framer, good: string -> bool, s: string, i: nat, j: nat)
    requires i <= |s| && f(s[i..]).Message? && j == i + f(s[i..]).len
    ensures j <= |s| && (WellFramed(f, good, s, i) <==> good(s[i..]) && WellFramed(f, good, s, j))
  {
    assert IsFramer(f);
  }

  /** On good streams a piece of the stream is good and shows either no complete message or the
      stream's first message. */
  ghost predicate PrefixStable(f: Framer, good: string -> bool) {
    forall a: string, b: string :: good(a + b) ==>
      good(a) && (f(a) == NeedMore || (f(a).Message? && f(a) == f(a + b)))
  }

  function Concat(pieces: seq<string>): string {
    if pieces == [] then "" else pieces[0] + Concat(pieces[1..])
  }

  lemma {:induction false} ConcatCons(piece: string, pieces: seq<string>)
    ensures Concat([piece] + pieces) == piece + Concat(pieces)
  {
    assert ([piece] + pieces)[1..] == pieces;
  }

  lemma {:induction false} CutBehind(s: string, i: nat, c: nat)
    requires i <= c <= |s|
    ensures s[..c][i..] == s[i..c] == s[i..][..c - i] && s[i..] == s[i..c] + s[c..]
  {
  }

  lemma {:induction false} ConcatTwo(a: string, b: string)
    ensures Concat([a, b]) == a + b
  {
    assert [a, b][1..] == [b] && [b][1..] == [];
    assert Concat([b]) == b + "" == b;
  }

  lemma {:induction false} SliceOn(s: string, i: nat, j: nat, k: nat)
    requires i <= j <= k <= |s|
    ensures s[i..j] + s[j..k] == s[i..k]
  {
  }

  /** The messages read are the consumed bytes cut into pieces. */
  lemma {:induction false} ReadingIsPartition(f: Framer, s: string, i: nat)
    requires i <= |s|
    ensures Concat(Reading(f, s, i).messages) == s[i..Reading(f, s, i).end]
    decreases |s| - i
  {
    if f(s[i..]).Message? {
      var j := i + f(s[i..]).len;
      ReadOne(f, s, i, j);
      ReadingIsPartition(f, s, j);
      var rest := Reading(f, s, j);
      ConcatCons(s[i..j], rest.messages);
      SliceOn(s, i, j, rest.end);
    }
  }

  /** Messages laid end to end are read back, if the rule shows each whatever follows it. */
  lemma {:induction false} MessagesComeBack(f: Framer, before: string, messages: seq<string>)
    requires f("") == NeedMore
    requires forall i, rest: string :: 0 <= i < |messages| ==> f(messages[i] + rest) == Message(|messages[i]|)
    ensures var s := before + Concat(messages);
            && Reading(f, s, |before|) == Parsed(|s|, messages, Returned)
            && Parse(f, s, |before|) == Reading(f, s, |before|)
    decreases |messages|
  {
    var s := before + Concat(messages);
    if messages == [] {
      assert s[|before|..] == "";
    } else {
      var m, later := messages[0], messages[1..];
      assert forall i :: 0 <= i < |later| ==> later[i] == messages[i + 1];
      MessagesComeBack(f, before + m, later);
      MessageFirst(f, before, m, Concat(later));
      assert [m] + later == messages;
    }
    ParseReads(f, s, |before|);
  }

  lemma {:induction false} MessageFirst(f: Framer, before: string, m: string, tail: string)
    requires f(m + tail) == Message(|m|)
    ensures var s := before + (m + tail);
            s == (before + m) + tail && Reading(f, s, |before|) == Behind([m], Reading(f, s, |before + m|))
  {
    var s, i, j := before + (m + tail), |before|, |before + m|;
    assert s == (before + m) + tail;
    assert s[i..] == m + tail && s[i..j] == m;
    ReadOne(f, s, i, j);
  }

  /** As long as the loop goes forwards only, the messages handed on are the consumed bytes cut into pieces. */
  lemma {:induction false} ParseIsPartition(f: Framer, s: string, i: nat)
    requires i <= |s| && Reading(f, s, i).outcome != Unended
    ensures i <= Parse(f, s, i).end && Concat(Parse(f, s, i).messages) == s[i..Parse(f, s, i).end]
  {
    ParseReads(f, s, i);
    ReadingIsPartition(f, s, i);
  }

  /** The loop returns only where no further message is complete. */
  lemma {:induction false} ParseIsMaximal(f: Framer, s: string, i: nat)
    requires i <= |s|
    ensures Parse(f, s, i).outcome == Returned <==> f(s[Parse(f, s, i).end..]) == NeedMore
  {
    var last := RoundsStop(f, s, i, |s|);
  }

  /** `ends` tells where a round returns or goes forwards. */
  ghost predicate TellsEnds(f: Framer, ends: string -> bool) {
    forall t: string :: ends(t) <==> f(t) == NeedMore || f(t).Message?
  }

  /** The loop returns having only gone forwards exactly if `ends` holds at every message start. */
  lemma {:induction false} ReadsToEndIff(f: Framer, ends: string -> bool, s: string, i: nat)
    requires i <= |s| && TellsEnds(f, ends)
    ensures Reading(f, s, i).outcome == Returned <==> WellFramed(f, ends, s, i)
    decreases |s| - i
  {
    if f(s[i..]).Message? {
      assert IsFramer(f);
      ReadsToEndIff(f, ends, s, i + f(s[i..]).len);
    }
  }

  lemma {:induction false} WellFramedReads(f: Framer, good: string -> bool, s: string, i: nat)
    requires i <= |s| && PrefixStable(f, good) && WellFramed(f, good, s, i)
    ensures Reading(f, s, i).outcome == Returned && Parse(f, s, i) == Reading(f, s, i)
    decreases |s| - i
  {
    assert s[i..] + "" == s[i..];
    if f(s[i..]).Message? {
      var j := i + f(s[i..]).len;
      ReadOne(f, s, i, j);
      WellFramedReads(f, good, s, j);
    }
    ParseReads(f, s, i);
  }

  lemma {:induction false} WellFramedWeaken(f: Framer, good: string -> bool, weaker: string -> bool, s: string, i: nat)
    requires i <= |s| && WellFramed(f, good, s, i)
    requires forall t: string :: good(t) ==> weaker(t)
    ensures WellFramed(f, weaker, s, i)
    decreases |s| - i
  {
    if f(s[i..]).Message? {
      assert IsFramer(f);
      WellFramedWeaken(f, good, weaker, s, i + f(s[i..]).len);
    }
  }

  lemma {:induction false} RestOfConcat(a: string, b: string, i: nat, j: nat)
    requires i <= j <= |a|
    ensures (a + b)[i..] == a[i..] + b && (a + b)[i..j] == a[i..j]
  {
  }

  lemma {:induction false} WellFramedPrefix(f: Framer, good: string -> bool, a: string, b: string, i: nat)
    requires i <= |a| && PrefixStable(f, good) && WellFramed(f, good, a + b, i)
    ensures WellFramed(f, good, a, i)
    decreases |a| - i
  {
    RestOfConcat(a, b, i, i);
    assert good(a[i..] + b);
    if f(a[i..]).Message? {
      assert IsFramer(f);
      WellFramedPrefix(f, good, a, b, i + f(a[i..]).len);
    }
  }

  lemma {:induction false} BehindTwice(first: seq<string>, second: seq<string>, rest: Parsed)
    ensures Behind(first, Behind(second, rest)) == Behind(first + second, rest)
  {
    assert first + (second + rest.messages) == (first + second) + rest.messages;
  }

  lemma {:induction false} NothingFirst(rest: Parsed)
    ensures Behind([], rest) == rest
  {
    assert [] + rest.messages == rest.messages;
  }

  /** Resumption carries over one message. */
  lemma {:induction false} ResumesOver(f: Framer, a: string, b: string, i: nat, n: nat)
    requires i <= |a| && f(a[i..]) == f((a + b)[i..]) == Message(n)
    requires i + n <= |a|
    requires var first := Reading(f, a, i + n);
             Reading(f, a + b, i + n) == Behind(first.messages, Reading(f, a + b, first.end))
    ensures var first := Reading(f, a, i);
            Reading(f, a + b, i) == Behind(first.messages, Reading(f, a + b, first.end))
  {
    ReadOne(f, a, i, i + n);
    ReadOne(f, a + b, i, i + n);
    RestOfConcat(a, b, i, i + n);
    var first := Reading(f, a, i + n);
    BehindTwice([a[i..i + n]], first.messages, Reading(f, a + b, first.end));
  }

  lemma {:induction false} ReadingResumes(f: Framer, good: string -> bool, a: string, b: string, i: nat)
    requires i <= |a| && PrefixStable(f, good) && WellFramed(f, good, a + b, i)
    ensures var first := Reading(f, a, i);
            Reading(f, a + b, i) == Behind(first.messages, Reading(f, a + b, first.end))
    decreases |a| - i
  {
    RestOfConcat(a, b, i, i);
    assert good(a[i..] + b);
    if f(a[i..]).Message? {
      var n := f(a[i..]).len;
      ReadOne(f, a, i, i + n);
      ReadingResumes(f, good, a, b, i + n);
      ResumesOver(f, a, b, i, n);
    } else {
      ResumesAtOnce(f, a, b, i);
    }
  }

  lemma {:induction false} ResumesAtOnce(f: Framer, a: string, b: string, i: nat)
    requires i <= |a| && f(a[i..]) == NeedMore
    ensures var first := Reading(f, a, i);
            Reading(f, a + b, i) == Behind(first.messages, Reading(f, a + b, first.end))
  {
    assert Reading(f, a, i) == Parsed(i, [], Returned);
    NothingFirst(Reading(f, a + b, i));
  }

  /** Parsing a and going on in a + b where that parse stopped is parsing a + b, and all of it returns. */
  lemma {:induction false} ParseResumes(f: Framer, good: string -> bool, a: string, b: string, i: nat)
    requires i <= |a| && PrefixStable(f, good) && WellFramed(f, good, a + b, i)
    ensures var first := Parse(f, a, i);
            var second := Parse(f, a + b, first.end);
            && Parse(f, a + b, i) == Behind(first.messages, second)
            && first.outcome == second.outcome == Returned
  {
    WellFramedPrefix(f, good, a, b, i);
    WellFramedReads(f, good, a, i);
    WellFramedReads(f, good, a + b, i);
    ReadingResumes(f, good, a, b, i);
    ParseReads(f, a + b, Reading(f, a, i).end);
  }

  // ---------- Following the loop ----------

  /** After `moves` moves from start the loop has handed on `messages` and comes to i. */
  ghost predicate Ahead(f: Framer, s: string, start: nat, moves: nat, i: nat, messages: seq<string>) {
    && start <= |s| && i <= |s| && moves <= |s|
    && Parse(f, s, start) == Behind(messages, Rounds(f, s, i, |s| - moves))
  }

  lemma {:induction false} NothingAhead(f: Framer, s: string, start: nat)
    requires start <= |s|
    ensures Ahead(f, s, start, 0, start, [])
  {
    NothingFirst(Parse(f, s, start));
  }

  lemma {:induction false} AheadAtEnd(f: Framer, s: string, start: nat, moves: nat, i: nat, messages: seq<string>)
    requires Ahead(f, s, start, moves, i, messages) && (moves == |s| || Next(f, s, i) == None)
    ensures Parse(f, s, start) == Parsed(i, messages, Ending(f, s, i))
  {
    assert messages + [] == messages;
  }

  /** One move further, j is the next message's start. */
  lemma {:induction false} OneMoveOn(f: Framer, s: string, start: nat, moves: nat, i: nat, messages: seq<string>,
                                     j: nat, moved: nat)
    requires Ahead(f, s, start, moves, i, messages) && moves < |s| && moved == moves + 1
    requires GoesOn(f(s[i..])) && j == EndAt(f(s[i..]), i)
    ensures j <= |s| && Ahead(f, s, start, moved, j, messages + [Between(s, i, j)])
  {
    BehindTwice(messages, [Between(s, i, j)], Rounds(f, s, j, |s| - moved));
  }

  // ---------- Piece by piece ----------

  /** A stream's buffer, resume offset and the messages handed on so far. */
  datatype Feed = Feed(buffer: string, offset: nat, delivered: seq<string>) {
    predicate Valid() { offset <= |buffer| }
  }

  const NEW_FEED := Feed("", 0, [])

  /** One more piece arrives: it is appended and parsing resumes at the offset. (If that parse does not
      return, nothing further happens in the original.) */
  function Receive(f: Framer, x: Feed, piece: string): (x': Feed)
    requires x.Valid()
    ensures x'.Valid() && x'.buffer == x.buffer + piece
  {
    var r := Parse(f, x.buffer + piece, x.offset);
    Feed(x.buffer + piece, r.end, x.delivered + r.messages)
  }

  function ReceiveAll(f: Framer, x: Feed, pieces: seq<string>): (x': Feed)
    requires x.Valid()
    ensures x'.Valid()
    decreases |pieces|
  {
    if pieces == [] then x else ReceiveAll(f, Receive(f, x, pieces[0]), pieces[1..])
  }

  /** Every one of the calls that receive the pieces returns. */
  ghost predicate AllReturn(f: Framer, x: Feed, pieces: seq<string>)
    requires x.Valid()
    decreases |pieces|
  {
    pieces != [] ==>
      && Parse(f, x.buffer + pieces[0], x.offset).outcome == Returned
      && AllReturn(f, Receive(f, x, pieces[0]), pieces[1..])
  }

  /** The state a single parse of the whole buffer leaves. */
  ghost predicate UpToDate(f: Framer, x: Feed) {
    x.offset == Parse(f, x.buffer, 0).end && x.delivered == Parse(f, x.buffer, 0).messages
  }

  lemma {:induction false} ReceiveKeepsUpToDate(f: Framer, good: string -> bool, x: Feed, piece: string)
    requires x.Valid() && UpToDate(f, x) && PrefixStable(f, good) && WellFramed(f, good, x.buffer + piece, 0)
    ensures UpToDate(f, Receive(f, x, piece)) && Parse(f, x.buffer + piece, x.offset).outcome == Returned
  {
    ParseResumes(f, good, x.buffer, piece, 0);
  }

  /** However a well-framed stream is cut into pieces, feeding the pieces one by one delivers the
      same messages and consumes the same bytes as one parse of the whole stream, every call returning. */
  lemma {:induction false} AnyCutting(f: Framer, good: string -> bool, x: Feed, pieces: seq<string>)
    requires x.Valid() && UpToDate(f, x)
    requires PrefixStable(f, good) && WellFramed(f, good, x.buffer + Concat(pieces), 0)
    ensures var x' := ReceiveAll(f, x, pieces);
            x'.buffer == x.buffer + Concat(pieces) && UpToDate(f, x') && AllReturn(f, x, pieces)
    decreases |pieces|
  {
    if pieces == [] {
      assert x.buffer + "" == x.buffer;
    } else {
      var first := x.buffer + pieces[0];
      assert first + Concat(pieces[1..]) == x.buffer + Concat(pieces);
      WellFramedPrefix(f, good, first, Concat(pieces[1..]), 0);
      ReceiveKeepsUpToDate(f, good, x, pieces[0]);
      AnyCutting(f, good, Receive(f, x, pieces[0]), pieces[1..]);
    }
  }

  lemma {:induction false} AnyCuttingFromEmpty(f: Framer, good: string -> bool, pieces: seq<string>)
    requires f("") == NeedMore && PrefixStable(f, good) && WellFramed(f, good, Concat(pieces), 0)
    ensures var x' := ReceiveAll(f, NEW_FEED, pieces);
            var whole := Parse(f, Concat(pieces), 0);
            && x'.delivered == whole.messages && x'.offset == whole.end
            && whole.outcome == Returned && AllReturn(f, NEW_FEED, pieces)
  {
    assert "" + Concat(pieces) == Concat(pieces);
    assert ""[0..] == "";
    AnyCutting(f, good, NEW_FEED, pieces);
    WellFramedReads(f, good, Concat(pieces), 0);
  }

  /** A first piece on which the call does not return. */
  lemma {:induction false} FirstCallStuck(f: Framer, a: string, b: string)
    requires Parse(f, a, 0).outcome != Returned
    ensures !AllReturn(f, NEW_FEED, [a, b])
  {
    assert "" + a == a;
  }

  /** Two pieces, of which the first shows a message and what is left of it never another. */
  lemma {:induction false} TwoPieces(f: Framer, a: string, b: string, n: nat)
    requires n <= |a| && f(a) == Message(n) && f(a[n..]) == NeedMore && f((a + b)[n..]) == NeedMore
    ensures ReceiveAll(f, NEW_FEED, [a, b]).delivered == [a[..n]]
  {
    assert "" + a == a && a[0..] == a;
    ReadOne(f, a, 0, n);
    ParseReads(f, a, 0);
    var x := Receive(f, NEW_FEED, a);
    assert x == Feed(a, n, [a[..n]]);
    ParseReads(f, a + b, n);
    assert [a, b][1..] == [b] && [b][1..] == [];
    assert ReceiveAll(f, x, [b]) == ReceiveAll(f, Receive(f, x, b), []);
    assert [a[..n]] + [] == [a[..n]];
  }
}
