/** A capture port in voice-activity mode (CapturePort.cpp), fed as the plugin proxy feeds it
    (CapturePluginProxy.cpp). */
module CapturePorts {
  import opened AudioChunks

  /** Of a chunk: its level in dB and its duration, as far as a decoder gives them, and its content. */
  datatype Chunk = Chunk(level: Option<real>, duration: real, audio: seq<byte>)

  /** EtOrkUid keeps the segment number that a replay appends to its value. */
  datatype Event =
    | EtStart
    | EtStop
    | EtHold
    | EtResume
    | EtEndMetadata
    | EtOrkUid(value: string, segment: Option<nat>)
    | EtOther(tag: string)

  datatype Config = Config(lowDb: real, highDb: real, holdOnSec: real, reportHolds: bool)

  /** What a tape has been given. signals counts the times it was passed to ImmediateProcessing. */
  datatype Tape = Tape(events: seq<Event>, chunks: seq<Chunk>, signals: nat, lastHoldTs: int, holdDuration: int)

  const NEW_TAPE := Tape([], [], 0, 0, 0)

  /** released are the tapes the port has let go of after a voice stop, in order. */
  datatype Port = Port(
    tape: Option<Tape>,
    capturing: bool,
    vadUp: bool,
    belowSec: real,
    queue: seq<Event>,
    segment: nat,
    released: seq<Tape>)

  const NEW_PORT := Port(None, false, false, 0.0, [], 0, [])

  // ---------- One step ----------

  function Noted(t: Tape, e: Event): Tape {
    t.(events := t.events + [e])
  }

  /** The switch of AddCaptureEvent, as far as it concerns the tape. */
  function OnTape(cfg: Config, t: Tape, e: Event, now: int): Tape {
    match e
    case EtStart => t
    case EtStop => Noted(t, e).(signals := t.signals + 1)
    case EtHold =>
      if t.lastHoldTs != 0 then t
      else (if cfg.reportHolds then Noted(t, e) else t).(lastHoldTs := now)
    case EtResume =>
      if t.lastHoldTs > 0 then
        var held := t.holdDuration + (now - t.lastHoldTs);
        (if cfg.reportHolds then Noted(t, e) else t).(holdDuration := held, lastHoldTs := 0)
      else t.(lastHoldTs := 0)
    case EtEndMetadata => t
    case EtOrkUid(_, _) => Noted(t, e)
    case EtOther(_) => Noted(t, e)
  }

  /** AddCaptureEvent. */
  function Delivered(cfg: Config, p: Port, e: Event, now: int): Port {
    var p := if e.EtStart? then p.(capturing := true, tape := Some(Noted(NEW_TAPE, e))) else p;
    if p.tape == None then p
    else p.(tape := Some(OnTape(cfg, p.tape.value, e, now)), capturing := p.capturing && !e.EtStop?)
  }

  /** A tracking id counts the segment up. */
  function Advanced(p: Port, e: Event): Port {
    if e.EtOrkUid? then p.(segment := p.segment + 1) else p
  }

  /** It is sent under the new segment number. */
  function Sent(p: Port, e: Event): Event {
    if e.EtOrkUid? then EtOrkUid(e.value, Some(p.segment + 1)) else e
  }

  /** One round of ReportEventBacklog. */
  function ReplayOne(cfg: Config, p: Port, e: Event, now: int): Port {
    Delivered(cfg, Advanced(p, e), Sent(p, e), now)
  }

  function Replay(cfg: Config, p: Port, q: seq<Event>, now: int): Port
    decreases |q|
  {
    if q == [] then p else ReplayOne(cfg, Replay(cfg, p, q[..|q| - 1], now), q[|q| - 1], now)
  }

  /** Voice found: a fresh tape, the start event, the backlog. */
  function VoiceStart(cfg: Config, p: Port, now: int): Port {
    var p := p.(belowSec := 0.0, vadUp := true);
    if p.tape.Some? then p
    else Replay(cfg, Delivered(cfg, p.(tape := Some(NEW_TAPE)), EtStart, now), p.queue, now)
  }

  function VoiceStop(cfg: Config, p: Port, now: int): Port {
    var p := Delivered(cfg, p.(vadUp := false), EtStop, now);
    p.(tape := None, released := if p.tape.Some? then p.released + [p.tape.value] else p.released)
  }

  /** The voice-activity branch of AddAudioChunk. */
  function Judge(cfg: Config, p: Port, c: Chunk, now: int): Port {
    if c.level == None then p
    else if p.vadUp then
      var p := p.(belowSec := if c.level.value < cfg.lowDb then p.belowSec + c.duration else 0.0);
      if p.belowSec > cfg.holdOnSec then VoiceStop(cfg, p, now) else p
    else if c.level.value > cfg.highDb then VoiceStart(cfg, p, now)
    else p
  }

  function Record(p: Port, c: Chunk): Port {
    if p.tape.Some? && p.capturing then
      var t := p.tape.value;
      p.(tape := Some(t.(chunks := t.chunks + [c], signals := t.signals + 1)))
    else p
  }

  /** What reaches a port, and when. */
  datatype Input = Audio(chunk: Chunk, now: int) | Plugin(event: Event, now: int)

  /** AudioChunkCallBack and, for events, CaptureEventCallBack. */
  function Step(cfg: Config, p: Port, i: Input): Port {
    match i
    case Audio(c, now) => Record(Judge(cfg, p, c, now), c)
    case Plugin(EtStart, _) => p
    case Plugin(EtStop, now) => Delivered(cfg, p.(queue := []), EtStop, now)
    case Plugin(e, now) => Delivered(cfg, p.(queue := p.queue + [e]), e, now)
  }

  function Run(cfg: Config, inputs: seq<Input>): Port {
    if inputs == [] then NEW_PORT else Step(cfg, Run(cfg, inputs[..|inputs| - 1]), inputs[|inputs| - 1])
  }

  // ---------- Starts and stops ----------

  /** A chunk whose level is known. */
  predicate Judged(i: Input) {
    i.Audio? && i.chunk.level.Some?
  }

  predicate Loud(cfg: Config, i: Input) {
    Judged(i) && i.chunk.level.value > cfg.highDb
  }

  predicate Quiet(cfg: Config, i: Input) {
    Judged(i) && i.chunk.level.value < cfg.lowDb
  }

  /** Total duration of the chunks at the end that are all below the low threshold. */
  function Trailing(cfg: Config, inputs: seq<Input>): real {
    if inputs == [] then 0.0
    else
      var front, last := inputs[..|inputs| - 1], inputs[|inputs| - 1];
      if !Judged(last) then Trailing(cfg, front)
      else if Quiet(cfg, last) then Trailing(cfg, front) + last.chunk.duration
      else 0.0
  }

  /** Number of inputs up to and with the latest voice start. */
  function Began(cfg: Config, inputs: seq<Input>): (n: nat)
    ensures n <= |inputs|
  {
    if inputs == [] then 0
    else
      var front := inputs[..|inputs| - 1];
      if Run(cfg, inputs).vadUp && !Run(cfg, front).vadUp then |inputs| else Began(cfg, front)
  }

  /** The chunks up to the plugin's first stop, and whether there has been none yet. */
  function Heard(inputs: seq<Input>): (seq<Chunk>, bool) {
    if inputs == [] then ([], true)
    else
      var (chunks, open) := Heard(inputs[..|inputs| - 1]);
      match inputs[|inputs| - 1]
      case Audio(c, _) => (if open then chunks + [c] else chunks, open)
      case Plugin(e, _) => (chunks, open && !e.EtStop?)
  }

  predicate NoEnds(q: seq<Event>) {
    forall i :: 0 <= i < |q| ==> !q[i].EtStart? && !q[i].EtStop?
  }

  /** A tape is attached exactly while voice is up, and recording needs a tape. */
  predicate Inv(p: Port) {
    (p.vadUp <==> p.tape.Some?) && (p.capturing ==> p.vadUp) && NoEnds(p.queue)
  }

  /** p and p' differ in what events put on the tape, and in the segment count, at most. */
  predicate SameButEvents(p: Port, p': Port) {
    && p'.capturing == p.capturing && p'.vadUp == p.vadUp && p'.belowSec == p.belowSec && p'.queue == p.queue
    && p'.released == p.released && p'.tape.Some? == p.tape.Some?
    && (p.tape.Some? ==> p'.tape.value.chunks == p.tape.value.chunks && p'.tape.value.signals == p.tape.value.signals)
  }

  lemma {:induction false} EventKeeps(cfg: Config, p: Port, e: Event, now: int)
    requires !e.EtStart? && !e.EtStop?
    ensures SameButEvents(p, Delivered(cfg, p, e, now))
  {
  }

  lemma {:induction false} ReplayOneKeeps(cfg: Config, p: Port, e: Event, now: int)
    requires !e.EtStart? && !e.EtStop?
    ensures SameButEvents(p, ReplayOne(cfg, p, e, now))
  {
    EventKeeps(cfg, Advanced(p, e), Sent(p, e), now);
  }

  lemma {:induction false} ReplayKeeps(cfg: Config, p: Port, q: seq<Event>, now: int)
    requires NoEnds(q)
    ensures SameButEvents(p, Replay(cfg, p, q, now))
    decreases |q|
  {
    if q != [] {
      var n := |q| - 1;
      ReplayKeeps(cfg, p, q[..n], now);
      ReplayOneKeeps(cfg, Replay(cfg, p, q[..n], now), q[n], now);
    }
  }

  /** A voice start, chunk included. */
  lemma {:induction false} StartIs(cfg: Config, p: Port, c: Chunk, now: int)
    requires Inv(p) && !p.vadUp
    ensures var p' := Record(VoiceStart(cfg, p, now), c);
            && Inv(p') && p'.vadUp && p'.capturing && p'.belowSec == 0.0
            && p'.queue == p.queue && p'.released == p.released
            && p'.tape.value.chunks == [c] && p'.tape.value.signals == 1
  {
    var p1 := p.(belowSec := 0.0, vadUp := true);
    var p2 := Delivered(cfg, p1.(tape := Some(NEW_TAPE)), EtStart, now);
    ReplayKeeps(cfg, p2, p.queue, now);
    assert [] + [c] == [c];
  }

  /** The level counter after a chunk. */
  function Counted(cfg: Config, below: real, i: Input): real {
    if !Judged(i) then below else if Quiet(cfg, i) then below + i.chunk.duration else 0.0
  }

  /** The plugin's events kept for the next tape. */
  function Queued(q: seq<Event>, i: Input): seq<Event> {
    if i.Audio? || i.event.EtStart? then q else if i.event.EtStop? then [] else q + [i.event]
  }

  /** What an input that does not end the voice makes of the attached tape. */
  function Taken(cfg: Config, t: Tape, i: Input, capturing: bool): Tape {
    match i
    case Audio(c, _) => if capturing then t.(chunks := t.chunks + [c], signals := t.signals + 1) else t
    case Plugin(e, now) => OnTape(cfg, t, e, now)
  }

  /** With voice up: the chunk or event is taken by the same tape, or voice stops. */
  lemma {:induction false} StepWhileUp(cfg: Config, p: Port, i: Input)
    requires Inv(p) && p.vadUp
    ensures var p' := Step(cfg, p, i);
            && Inv(p') && p'.vadUp == !(Judged(i) && Counted(cfg, p.belowSec, i) > cfg.holdOnSec)
            && p'.belowSec == Counted(cfg, p.belowSec, i) && p'.queue == Queued(p.queue, i) && p'.segment == p.segment
            && (p'.vadUp ==>
                  && p'.tape.value == Taken(cfg, p.tape.value, i, p.capturing) && p'.released == p.released
                  && p'.tape.value.chunks == p.tape.value.chunks + (if i.Audio? && p.capturing then [i.chunk] else [])
                  && p'.tape.value.signals == p.tape.value.signals + Signals(i, p.capturing)
                  && p'.capturing == (p.capturing && !(i.Plugin? && i.event.EtStop?)))
            && (!p'.vadUp ==>
                  p'.released == p.released + [Noted(p.tape.value, EtStop).(signals := p.tape.value.signals + 1)])
  {
    assert p.tape.value.chunks + [] == p.tape.value.chunks;
    if i.Plugin? && !i.event.EtStart? && !i.event.EtStop? {
      EventKeeps(cfg, p.(queue := p.queue + [i.event]), i.event, i.now);
    }
  }

  /** How often a step hands the tape to ImmediateProcessing. */
  function Signals(i: Input, capturing: bool): nat {
    if i.Audio? then (if capturing then 1 else 0) else if i.event.EtStop? then 1 else 0
  }

  lemma {:induction false} StepWhileDown(cfg: Config, p: Port, i: Input)
    requires Inv(p) && !p.vadUp
    ensures var p' := Step(cfg, p, i);
            && Inv(p') && p'.vadUp == Loud(cfg, i) && p'.queue == Queued(p.queue, i) && p'.released == p.released
            && (!p'.vadUp ==> p' == p.(queue := Queued(p.queue, i)))
            && (p'.vadUp ==>
                  && p'.belowSec == 0.0 && p'.capturing
                  && p'.tape.value.chunks == [i.chunk] && p'.tape.value.signals == 1)
  {
    if Loud(cfg, i) {
      StartIs(cfg, p, i.chunk, i.now);
    }
  }

  lemma {:induction false} StepKeepsInv(cfg: Config, p: Port, i: Input)
    requires Inv(p)
    ensures Inv(Step(cfg, p, i))
  {
    if p.vadUp { StepWhileUp(cfg, p, i); } else { StepWhileDown(cfg, p, i); }
  }

  function AllSignals(inputs: seq<Input>): nat {
    if inputs == [] then 0
    else
      var front := inputs[..|inputs| - 1];
      AllSignals(front) + Signals(inputs[|inputs| - 1], Heard(front).1)
  }

  /** While voice is up the port's fields tell about the inputs since the voice start: input number a
      started the voice, and b is the next one's number. */
  ghost predicate TracksSince(cfg: Config, p: Port, inputs: seq<Input>, a: nat, b: nat) {
    && b == a + 1 <= |inputs| && Loud(cfg, inputs[a]) && p.tape.Some?
    && p.belowSec == Trailing(cfg, inputs[b..])
    && (p.tape.value.chunks, p.capturing) == Heard(inputs[a..])
    && p.tape.value.signals == AllSignals(inputs[a..])
  }

  ghost predicate Tracks(cfg: Config, inputs: seq<Input>) {
    var p, b := Run(cfg, inputs), Began(cfg, inputs);
    && Inv(p)
    && (p.vadUp ==> 1 <= b && TracksSince(cfg, p, inputs, b - 1, b))
  }

  lemma {:induction false} SinceSnoc(cfg: Config, inputs: seq<Input>, b: nat)
    requires b < |inputs|
    ensures var front, last := inputs[..|inputs| - 1], inputs[|inputs| - 1];
            && Trailing(cfg, inputs[b..]) == Counted(cfg, Trailing(cfg, front[b..]), last)
            && Heard(inputs[b..]).1 == (Heard(front[b..]).1 && !(last.Plugin? && last.event.EtStop?))
            && Heard(inputs[b..]).0 ==
               Heard(front[b..]).0 + (if last.Audio? && Heard(front[b..]).1 then [last.chunk] else [])
            && AllSignals(inputs[b..]) == AllSignals(front[b..]) + Signals(last, Heard(front[b..]).1)
  {
    var since := inputs[b..];
    assert since[..|since| - 1] == inputs[..|inputs| - 1][b..];
  }

  lemma {:induction false} TracksOn(cfg: Config, p: Port, front: seq<Input>, last: Input, a: nat, b: nat)
    requires Inv(p) && p.vadUp && Step(cfg, p, last).vadUp && TracksSince(cfg, p, front, a, b)
    ensures TracksSince(cfg, Step(cfg, p, last), front + [last], a, b)
  {
    StepWhileUp(cfg, p, last);
    var inputs := front + [last];
    assert inputs[..|inputs| - 1] == front;
    SinceSnoc(cfg, inputs, b);
    SinceSnoc(cfg, inputs, a);
  }

  lemma {:induction false} TracksStart(cfg: Config, p: Port, front: seq<Input>, last: Input)
    requires Inv(p) && !p.vadUp && Loud(cfg, last)
    ensures TracksSince(cfg, Step(cfg, p, last), front + [last], |front|, |front| + 1)
  {
    StepWhileDown(cfg, p, last);
    var inputs := front + [last];
    SinceSnoc(cfg, inputs, |front|);
    assert inputs[..|front|] == front && front[|front|..] == [] && inputs[|inputs|..] == [];
    assert [] + [last.chunk] == [last.chunk];
  }

  lemma {:induction false} RunSnoc(cfg: Config, inputs: seq<Input>, i: Input)
    ensures Run(cfg, inputs + [i]) == Step(cfg, Run(cfg, inputs), i)
    ensures Began(cfg, inputs + [i]) ==
            if Run(cfg, inputs + [i]).vadUp && !Run(cfg, inputs).vadUp then |inputs| + 1 else Began(cfg, inputs)
  {
    assert (inputs + [i])[..|inputs|] == inputs;
  }

  /** Over every sequence of chunks and plugin events. */
  lemma {:induction false} EveryRun(cfg: Config, inputs: seq<Input>)
    ensures Tracks(cfg, inputs)
  {
    if inputs != [] {
      var n := |inputs| - 1;
      var front, last := inputs[..n], inputs[n];
      assert front + [last] == inputs;
      EveryRun(cfg, front);
      TracksNext(cfg, front, last);
    }
  }

  lemma {:induction false} TracksNext(cfg: Config, front: seq<Input>, last: Input)
    requires Tracks(cfg, front)
    ensures Tracks(cfg, front + [last])
  {
    RunSnoc(cfg, front, last);
    var p, b := Run(cfg, front), Began(cfg, front);
    if p.vadUp {
      StepWhileUp(cfg, p, last);
      if Step(cfg, p, last).vadUp { TracksOn(cfg, p, front, last, b - 1, b); }
    } else {
      StepWhileDown(cfg, p, last);
      if Loud(cfg, last) { TracksStart(cfg, p, front, last); }
    }
  }

  /** Recording stops at the first judged chunk with which the silence since the voice start exceeds
      the hold-on time; the tape let go of holds the chunks before it, up to a plugin stop. */
  lemma {:induction false} StopsWhen(cfg: Config, inputs: seq<Input>, i: Input)
    requires Run(cfg, inputs).vadUp
    ensures var p, b := Run(cfg, inputs), Began(cfg, inputs);
            var p' := Run(cfg, inputs + [i]);
            && 1 <= b
            && (p'.tape == None <==> Judged(i) && Trailing(cfg, inputs[b..] + [i]) > cfg.holdOnSec)
            && (p'.tape == None ==>
                  && |p'.released| == |p.released| + 1 && p'.released[..|p.released|] == p.released
                  && var t := p'.released[|p.released|];
                  && t.chunks == Heard(inputs[b - 1..]).0 && t.events == p.tape.value.events + [EtStop]
                  && t.signals == AllSignals(inputs[b - 1..]) + 1)
  {
    EveryRun(cfg, inputs);
    RunSnoc(cfg, inputs, i);
    var b := Began(cfg, inputs);
    StopsSince(cfg, Run(cfg, inputs), inputs, i, b - 1, b);
  }

  lemma {:induction false} StopsSince(cfg: Config, p: Port, inputs: seq<Input>, i: Input, a: nat, b: nat)
    requires Inv(p) && p.vadUp && TracksSince(cfg, p, inputs, a, b)
    ensures var p' := Step(cfg, p, i);
            && (p'.tape == None <==> Judged(i) && Trailing(cfg, inputs[b..] + [i]) > cfg.holdOnSec)
            && (p'.tape == None ==>
                  && |p'.released| == |p.released| + 1 && p'.released[..|p.released|] == p.released
                  && var t := p'.released[|p.released|];
                  && t.chunks == Heard(inputs[a..]).0 && t.events == p.tape.value.events + [EtStop]
                  && t.signals == AllSignals(inputs[a..]) + 1)
  {
    TrailingSnoc(cfg, inputs[b..], i);
    StopIs(cfg, p, i);
  }

  lemma {:induction false} TrailingSnoc(cfg: Config, inputs: seq<Input>, i: Input)
    ensures Trailing(cfg, inputs + [i]) == Counted(cfg, Trailing(cfg, inputs), i)
  {
    assert (inputs + [i])[..|inputs|] == inputs;
  }

  /** A tape let go of gets EtStop and is signalled once more. */
  lemma {:induction false} StopIs(cfg: Config, p: Port, i: Input)
    requires Inv(p) && p.vadUp
    ensures var p' := Step(cfg, p, i);
            && (p'.tape == None <==> Judged(i) && Counted(cfg, p.belowSec, i) > cfg.holdOnSec)
            && (p'.tape == None ==>
                  && |p'.released| == |p.released| + 1 && p'.released[..|p.released|] == p.released
                  && var t := p'.released[|p.released|];
                  && t.chunks == p.tape.value.chunks && t.events == p.tape.value.events + [EtStop]
                  && t.signals == p.tape.value.signals + 1)
  {
    StepWhileUp(cfg, p, i);
  }

  // ---------- Hysteresis, told from the chunks alone ----------

  /** The chunk at k is loud, and no judged chunk after it ends a silence longer than the hold-on time. */
  ghost predicate VoiceFrom(cfg: Config, inputs: seq<Input>, k: nat) {
    && k < |inputs| && Loud(cfg, inputs[k])
    && forall j :: k < j < |inputs| && Judged(inputs[j]) ==> Trailing(cfg, inputs[..j + 1]) <= cfg.holdOnSec
  }

  /** A silence does not reach back over a loud chunk. */
  lemma {:induction false} TrailingSince(cfg: Config, inputs: seq<Input>, b: nat)
    requires 1 <= b <= |inputs| && cfg.lowDb <= cfg.highDb && Loud(cfg, inputs[b - 1])
    ensures Trailing(cfg, inputs) == Trailing(cfg, inputs[b..])
  {
    var n := |inputs| - 1;
    if b <= n {
      TrailingSince(cfg, inputs[..n], b);
      assert inputs[..n][b - 1] == inputs[b - 1];
      assert inputs[b..][..n - b] == inputs[..n][b..];
    } else {
      assert inputs[b..] == [];
    }
  }

  lemma {:induction false} VoiceFromSnoc(cfg: Config, front: seq<Input>, last: Input, k: nat)
    requires k < |front|
    ensures VoiceFrom(cfg, front + [last], k) <==>
            VoiceFrom(cfg, front, k) && (Judged(last) ==> Trailing(cfg, front + [last]) <= cfg.holdOnSec)
  {
    var all := front + [last];
    assert all[..|front| + 1] == all;
    forall j | k < j < |front| ensures all[..j + 1] == front[..j + 1] && all[j] == front[j] {
    }
  }

  /** With thresholds in order, a tape is attached exactly if some chunk was above the high threshold
      and no silence since has exceeded the hold-on time, wherever that chunk stands. */
  lemma {:induction false} UpIff(cfg: Config, inputs: seq<Input>)
    requires cfg.lowDb <= cfg.highDb && 0.0 <= cfg.holdOnSec
    ensures Run(cfg, inputs).tape.Some? <==> exists k: nat :: VoiceFrom(cfg, inputs, k)
  {
    EveryRun(cfg, inputs);
    if inputs != [] {
      var n := |inputs| - 1;
      var front, last := inputs[..n], inputs[n];
      assert front + [last] == inputs;
      UpIff(cfg, front);
      EveryRun(cfg, front);
      var p := Run(cfg, front);
      if Loud(cfg, last) {
        assert VoiceFrom(cfg, inputs, n);
        if p.vadUp {
          StepWhileUp(cfg, p, last);
        } else {
          StepWhileDown(cfg, p, last);
        }
      } else {
        forall k: nat | k < n ensures VoiceFrom(cfg, inputs, k) <==>
                        VoiceFrom(cfg, front, k) && (Judged(last) ==> Trailing(cfg, inputs) <= cfg.holdOnSec) {
          VoiceFromSnoc(cfg, front, last, k);
        }
        if p.vadUp {
          StepWhileUp(cfg, p, last);
          TrailingSince(cfg, front, Began(cfg, front));
        } else {
          StepWhileDown(cfg, p, last);
        }
      }
    }
  }

  // ---------- What the tape is told ----------

  /** The metadata an event brings; segment numbers left aside. */
  function Piece(e: Event): seq<Event> {
    match e
    case EtOrkUid(v, _) => [EtOrkUid(v, None)]
    case EtOther(_) => [e]
    case _ => []
  }

  function Metadata(es: seq<Event>): seq<Event> {
    if es == [] then [] else Metadata(es[..|es| - 1]) + Piece(es[|es| - 1])
  }

  /** Both lists bring the same metadata in the same order. */
  predicate Alike(a: seq<Event>, b: seq<Event>) {
    Metadata(a) == Metadata(b)
  }

  lemma {:induction false} AlikeSnoc(a: seq<Event>, b: seq<Event>, e: Event, e': Event)
    requires Alike(a, b) && Piece(e) == Piece(e')
    ensures Alike(a + [e], b + [e'])
  {
    assert (a + [e])[..|a|] == a && (b + [e'])[..|b|] == b;
  }

  lemma {:induction false} AlikeSkip(a: seq<Event>, b: seq<Event>, e: Event)
    requires Alike(a, b) && Piece(e) == []
    ensures Alike(a + [e], b) && Alike(a, b + [e])
  {
    assert (a + [e])[..|a|] == a && (b + [e])[..|b|] == b;
    assert Metadata(a) + [] == Metadata(a);
  }

  /** The attached tape has been told what `told` brings. */
  ghost predicate Told(p: Port, told: seq<Event>) {
    p.tape.Some? && Alike(p.tape.value.events, told)
  }

  lemma {:induction false} OnTapeAdds(cfg: Config, t: Tape, e: Event, now: int)
    requires !e.EtStart?
    ensures OnTape(cfg, t, e, now).events in {t.events, t.events + [e]}
    ensures OnTape(cfg, t, e, now).events == t.events + [e] || Piece(e) == []
  {
  }

  lemma {:induction false} TapeTold(cfg: Config, t: Tape, told: seq<Event>, e: Event, e': Event, now: int)
    requires Alike(t.events, told) && !e.EtStart? && Piece(e) == Piece(e')
    ensures Alike(OnTape(cfg, t, e, now).events, told + [e'])
  {
    OnTapeAdds(cfg, t, e, now);
    var after := OnTape(cfg, t, e, now).events;
    if after == t.events + [e] {
      AlikeSnoc(t.events, told, e, e');
    } else {
      AlikeSkip(t.events, told, e');
    }
  }

  lemma {:induction false} TapeAfter(cfg: Config, p: Port, e: Event, now: int)
    requires p.tape.Some? && !e.EtStart?
    ensures Delivered(cfg, p, e, now).tape == Some(OnTape(cfg, p.tape.value, e, now))
  {
  }

  lemma {:induction false} EventTold(cfg: Config, p: Port, told: seq<Event>, e: Event, e': Event, now: int)
    requires Told(p, told) && !e.EtStart? && Piece(e) == Piece(e')
    ensures Told(Delivered(cfg, p, e, now), told + [e'])
  {
    TapeAfter(cfg, p, e, now);
    TapeTold(cfg, p.tape.value, told, e, e', now);
  }

  lemma {:induction false} ReplayOneTold(cfg: Config, p: Port, told: seq<Event>, e: Event, now: int)
    requires Told(p, told) && !e.EtStart?
    ensures Told(ReplayOne(cfg, p, e, now), told + [e])
  {
    EventTold(cfg, Advanced(p, e), told, Sent(p, e), e, now);
  }

  lemma {:induction false} ReplayTold(cfg: Config, p: Port, q: seq<Event>, now: int)
    requires Told(p, []) && NoEnds(q)
    ensures Told(Replay(cfg, p, q, now), q)
    decreases |q|
  {
    if q != [] {
      var n := |q| - 1;
      var front, last := q[..n], q[n];
      ReplayTold(cfg, p, front, now);
      ReplayOneTold(cfg, Replay(cfg, p, front, now), front, last, now);
      assert front + [last] == q;
    }
  }

  lemma {:induction false} StartTold(cfg: Config, p: Port, now: int)
    requires Inv(p) && !p.vadUp
    ensures Told(VoiceStart(cfg, p, now), p.queue)
  {
    var p2 := Delivered(cfg, p.(belowSec := 0.0, vadUp := true, tape := Some(NEW_TAPE)), EtStart, now);
    AlikeSkip([], [], EtStart);
    assert p2.tape.value.events == [] + [EtStart];
    ReplayTold(cfg, p2, p.queue, now);
  }

  /** The plugin's events since its last stop. */
  function SinceStop(inputs: seq<Input>): seq<Event> {
    if inputs == [] then []
    else
      var before := SinceStop(inputs[..|inputs| - 1]);
      match inputs[|inputs| - 1]
      case Audio(_, _) => before
      case Plugin(e, _) => if e.EtStop? then [] else if e.EtStart? then before else before + [e]
  }

  /** A tape being recorded carries all metadata the plugin has sent since its last stop, in order,
      whether it came before the voice or after. */
  lemma {:induction false} MetadataComplete(cfg: Config, inputs: seq<Input>)
    ensures var p := Run(cfg, inputs);
            p.queue == SinceStop(inputs) && (p.capturing ==> Told(p, SinceStop(inputs)))
  {
    if inputs != [] {
      var n := |inputs| - 1;
      var front, last := inputs[..n], inputs[n];
      MetadataComplete(cfg, front);
      EveryRun(cfg, front);
      StepTold(cfg, Run(cfg, front), last);
    }
  }

  lemma {:induction false} StepTold(cfg: Config, p: Port, i: Input)
    requires Inv(p) && (p.capturing ==> Told(p, p.queue))
    ensures var p' := Step(cfg, p, i);
            && p'.queue == Queued(p.queue, i)
            && (p'.capturing ==> Told(p', p'.queue))
  {
    if p.vadUp {
      StepWhileUp(cfg, p, i);
      if i.Plugin? && !i.event.EtStart? && !i.event.EtStop? {
        var q := p.(queue := p.queue + [i.event]);
        EventKeeps(cfg, q, i.event, i.now);
        if p.capturing {
          EventTold(cfg, q, p.queue, i.event, i.event, i.now);
        }
      }
    } else {
      StepWhileDown(cfg, p, i);
      if Loud(cfg, i) {
        StartIs(cfg, p, i.chunk, i.now);
        StartTold(cfg, p, i.now);
      }
    }
  }

  predicate Numbered(e: Event) {
    e.EtOrkUid? && e.segment.Some?
  }

  /** Segment numbers rise along the events, all above lo and none above hi. */
  ghost predicate Rising(es: seq<Event>, lo: nat, hi: nat) {
    && (forall i :: 0 <= i < |es| && Numbered(es[i]) ==> lo < es[i].segment.value <= hi)
    && (forall i, j :: 0 <= i < j < |es| && Numbered(es[i]) && Numbered(es[j]) ==>
          es[i].segment.value < es[j].segment.value)
  }

  lemma {:induction false} RisingOne(cfg: Config, p: Port, e: Event, now: int, lo: nat)
    requires p.tape.Some? && !e.EtStart? && lo <= p.segment && Rising(p.tape.value.events, lo, p.segment)
    ensures var p' := ReplayOne(cfg, p, e, now);
            p'.tape.Some? && p'.segment == p.segment + (if e.EtOrkUid? then 1 else 0)
            && Rising(p'.tape.value.events, lo, p'.segment)
  {
    TapeAfter(cfg, Advanced(p, e), Sent(p, e), now);
    OnTapeAdds(cfg, p.tape.value, Sent(p, e), now);
  }

  lemma {:induction false} RisingReplay(cfg: Config, p: Port, q: seq<Event>, now: int, lo: nat)
    requires p.tape.Some? && NoEnds(q) && lo <= p.segment && Rising(p.tape.value.events, lo, p.segment)
    ensures var p' := Replay(cfg, p, q, now);
            p'.tape.Some? && p.segment <= p'.segment && Rising(p'.tape.value.events, lo, p'.segment)
    decreases |q|
  {
    if q != [] {
      var n := |q| - 1;
      RisingReplay(cfg, p, q[..n], now, lo);
      RisingOne(cfg, Replay(cfg, p, q[..n], now), q[n], now, lo);
    }
  }

  lemma {:induction false} StartSegments(cfg: Config, p: Port, now: int)
    requires Inv(p) && !p.vadUp
    ensures var p' := VoiceStart(cfg, p, now);
            p'.tape.Some? && p.segment <= p'.segment && Rising(p'.tape.value.events, p.segment, p'.segment)
  {
    var p2 := Delivered(cfg, p.(belowSec := 0.0, vadUp := true, tape := Some(NEW_TAPE)), EtStart, now);
    assert p2.tape.value.events == [] + [EtStart];
    RisingReplay(cfg, p2, p.queue, now, p.segment);
  }

  /** All events on the tapes, in the order of the tapes. */
  function EventsOf(tapes: seq<Tape>): seq<Event> {
    if tapes == [] then [] else EventsOf(tapes[..|tapes| - 1]) + tapes[|tapes| - 1].events
  }

  /** All events on all tapes the port has ever recorded. */
  function AllEvents(p: Port): seq<Event> {
    EventsOf(p.released) + (if p.tape.Some? then p.tape.value.events else [])
  }

  /** The plugin itself sends tracking ids without numbers. */
  predicate PluginUnnumbered(inputs: seq<Input>) {
    forall i :: 0 <= i < |inputs| && inputs[i].Plugin? ==> !Numbered(inputs[i].event)
  }

  lemma {:induction false} RisingConcat(a: seq<Event>, b: seq<Event>, lo: nat, mid: nat, hi: nat)
    requires lo <= mid <= hi && Rising(a, lo, mid) && Rising(b, mid, hi)
    ensures Rising(a + b, lo, hi)
  {
  }

  lemma {:induction false} RisingSnoc(es: seq<Event>, e: Event, lo: nat, hi: nat)
    requires Rising(es, lo, hi) && !Numbered(e)
    ensures Rising(es + [e], lo, hi)
  {
  }

  /** The events on all tapes are the same, or one without a number has come. */
  ghost predicate OneMore(es: seq<Event>, es': seq<Event>) {
    es' == es || exists e :: !Numbered(e) && es' == es + [e]
  }

  /** While voice is up the events on all tapes stay or gain one without a number. */
  lemma {:induction false} EventsWhileUp(cfg: Config, p: Port, i: Input)
    requires Inv(p) && p.vadUp && (i.Plugin? ==> !Numbered(i.event))
    ensures OneMore(AllEvents(p), AllEvents(Step(cfg, p, i)))
  {
    StepWhileUp(cfg, p, i);
    var p' := Step(cfg, p, i);
    if p'.vadUp {
      TakenEvents(cfg, p.tape.value, i, p.capturing);
      MoreAttached(EventsOf(p.released), p.tape.value.events, p'.tape.value.events);
    } else {
      var t := Noted(p.tape.value, EtStop).(signals := p.tape.value.signals + 1);
      ReleasedEvents(p.released, t);
      MoreAttached(EventsOf(p.released), p.tape.value.events, t.events);
      assert AllEvents(p') == EventsOf(p'.released);
    }
  }

  lemma {:induction false} TakenEvents(cfg: Config, t: Tape, i: Input, capturing: bool)
    requires i.Plugin? ==> !Numbered(i.event)
    ensures OneMore(t.events, Taken(cfg, t, i, capturing).events)
  {
    if i.Plugin? && !i.event.EtStart? {
      OnTapeAdds(cfg, t, i.event, i.now);
    }
  }

  lemma {:induction false} MoreAttached(before: seq<Event>, es: seq<Event>, es': seq<Event>)
    requires OneMore(es, es')
    ensures OneMore(before + es, before + es')
  {
    if es' != es {
      var e :| !Numbered(e) && es' == es + [e];
      assert before + es' == (before + es) + [e];
    }
  }

  lemma {:induction false} RisingMore(es: seq<Event>, es': seq<Event>, lo: nat, hi: nat)
    requires Rising(es, lo, hi) && OneMore(es, es')
    ensures Rising(es', lo, hi)
  {
    if es' != es {
      var e :| !Numbered(e) && es' == es + [e];
      RisingSnoc(es, e, lo, hi);
    }
  }

  lemma {:induction false} ReleasedEvents(tapes: seq<Tape>, t: Tape)
    ensures EventsOf(tapes + [t]) == EventsOf(tapes) + t.events
  {
    assert (tapes + [t])[..|tapes|] == tapes;
  }

  /** Along all tapes a port ever records, released or attached, the segment numbers of the tracking ids
      rise strictly: no number is ever given twice, on one tape or on two. */
  lemma {:induction false} FreshSegments(cfg: Config, inputs: seq<Input>)
    requires PluginUnnumbered(inputs)
    ensures Rising(AllEvents(Run(cfg, inputs)), 0, Run(cfg, inputs).segment)
  {
    if inputs != [] {
      var front, last := inputs[..|inputs| - 1], inputs[|inputs| - 1];
      FreshSegments(cfg, front);
      EveryRun(cfg, front);
      var p := Run(cfg, front);
      if p.vadUp {
        StepWhileUp(cfg, p, last);
        EventsWhileUp(cfg, p, last);
        RisingMore(AllEvents(p), AllEvents(Step(cfg, p, last)), 0, p.segment);
      } else {
        SegmentsWhileDown(cfg, p, last);
      }
    }
  }

  lemma {:induction false} SegmentsWhileDown(cfg: Config, p: Port, i: Input)
    requires Inv(p) && !p.vadUp && Rising(AllEvents(p), 0, p.segment)
    ensures Rising(AllEvents(Step(cfg, p, i)), 0, Step(cfg, p, i).segment)
  {
    StepWhileDown(cfg, p, i);
    EventsDetached(p);
    if Loud(cfg, i) {
      var started := VoiceStart(cfg, p, i.now);
      var p' := Record(started, i.chunk);
      StartSegments(cfg, p, i.now);
      StartIs(cfg, p, i.chunk, i.now);
      EventsAttached(p');
      RisingConcat(EventsOf(p.released), started.tape.value.events, 0, p.segment, started.segment);
      assert Step(cfg, p, i) == p';
    }
  }

  lemma {:induction false} EventsDetached(p: Port)
    requires p.tape == None
    ensures AllEvents(p) == EventsOf(p.released)
  {
  }

  lemma {:induction false} EventsAttached(p: Port)
    requires p.tape.Some?
    ensures AllEvents(p) == EventsOf(p.released) + p.tape.value.events
  {
  }

  predicate AllNumbered(es: seq<Event>) {
    forall i :: 0 <= i < |es| && es[i].EtOrkUid? ==> es[i].segment.Some?
  }

  function CountUids(q: seq<Event>): nat {
    if q == [] then 0 else CountUids(q[..|q| - 1]) + if q[|q| - 1].EtOrkUid? then 1 else 0
  }

  lemma {:induction false} NumbersOne(cfg: Config, p: Port, e: Event, now: int)
    requires p.tape.Some? && !e.EtStart? && AllNumbered(p.tape.value.events)
    ensures var p' := ReplayOne(cfg, p, e, now);
            && p'.tape.Some? && AllNumbered(p'.tape.value.events)
            && p'.segment == p.segment + if e.EtOrkUid? then 1 else 0
  {
    TapeAfter(cfg, Advanced(p, e), Sent(p, e), now);
    OnTapeAdds(cfg, p.tape.value, Sent(p, e), now);
  }

  lemma {:induction false} NumbersAll(cfg: Config, p: Port, q: seq<Event>, now: int)
    requires p.tape.Some? && NoEnds(q) && AllNumbered(p.tape.value.events)
    ensures var p' := Replay(cfg, p, q, now);
            p'.tape.Some? && AllNumbered(p'.tape.value.events) && p'.segment == p.segment + CountUids(q)
    decreases |q|
  {
    if q != [] {
      var front, last := q[..|q| - 1], q[|q| - 1];
      NumbersAll(cfg, p, front, now);
      NumbersOne(cfg, Replay(cfg, p, front, now), last, now);
    }
  }

  /** On a tape that voice has just started every tracking id has a segment number, and the port's number
      has gone up by how many there are. */
  lemma {:induction false} StartNumbers(cfg: Config, p: Port, c: Chunk, now: int)
    requires Inv(p) && !p.vadUp
    ensures var p' := Record(VoiceStart(cfg, p, now), c);
            p'.tape.Some? && AllNumbered(p'.tape.value.events) && p'.segment == p.segment + CountUids(p.queue)
  {
    var p2 := Delivered(cfg, p.(belowSec := 0.0, vadUp := true, tape := Some(NEW_TAPE)), EtStart, now);
    assert p2.tape.value.events == [] + [EtStart];
    NumbersAll(cfg, p2, p.queue, now);
  }

  // ---------- Start first, stop last ----------

  /** A start event comes first, and there is no other. */
  predicate StartsOnce(es: seq<Event>) {
    es != [] && es[0] == EtStart && forall i :: 0 < i < |es| ==> es[i] != EtStart
  }

  lemma {:induction false} OnTapeStartsOnce(cfg: Config, t: Tape, e: Event, now: int)
    requires StartsOnce(t.events) && !e.EtStart?
    ensures StartsOnce(OnTape(cfg, t, e, now).events)
  {
    OnTapeAdds(cfg, t, e, now);
  }

  lemma {:induction false} ReplayStartsOnce(cfg: Config, p: Port, q: seq<Event>, now: int)
    requires p.tape.Some? && NoEnds(q) && StartsOnce(p.tape.value.events)
    ensures var p' := Replay(cfg, p, q, now); p'.tape.Some? && StartsOnce(p'.tape.value.events)
    decreases |q|
  {
    if q != [] {
      var front, last := q[..|q| - 1], q[|q| - 1];
      ReplayStartsOnce(cfg, p, front, now);
      ReplayOneStartsOnce(cfg, Replay(cfg, p, front, now), last, now);
    }
  }

  lemma {:induction false} ReplayOneStartsOnce(cfg: Config, p: Port, e: Event, now: int)
    requires p.tape.Some? && !e.EtStart? && StartsOnce(p.tape.value.events)
    ensures var p' := ReplayOne(cfg, p, e, now); p'.tape.Some? && StartsOnce(p'.tape.value.events)
  {
    TapeAfter(cfg, Advanced(p, e), Sent(p, e), now);
    OnTapeStartsOnce(cfg, p.tape.value, Sent(p, e), now);
  }

  lemma {:induction false} VoiceStartsOnce(cfg: Config, p: Port, c: Chunk, now: int)
    requires Inv(p) && !p.vadUp
    ensures var p' := Record(VoiceStart(cfg, p, now), c); p'.tape.Some? && StartsOnce(p'.tape.value.events)
  {
    var p2 := Delivered(cfg, p.(belowSec := 0.0, vadUp := true, tape := Some(NEW_TAPE)), EtStart, now);
    assert p2.tape.value.events == [EtStart];
    ReplayStartsOnce(cfg, p2, p.queue, now);
  }

  ghost predicate TapesFramed(p: Port) {
    && (p.tape.Some? ==> StartsOnce(p.tape.value.events))
    && forall i :: 0 <= i < |p.released| ==>
         var es := p.released[i].events; StartsOnce(es) && es[|es| - 1] == EtStop
  }

  /** Over every run: a start event stands first on every tape and nowhere else, and a stop event last on
      every tape the port has let go of. */
  lemma {:induction false} EveryTapeFramed(cfg: Config, inputs: seq<Input>)
    ensures TapesFramed(Run(cfg, inputs))
  {
    if inputs != [] {
      var front, last := inputs[..|inputs| - 1], inputs[|inputs| - 1];
      EveryTapeFramed(cfg, front);
      EveryRun(cfg, front);
      StepFramed(cfg, Run(cfg, front), last);
    }
  }

  lemma {:induction false} StepFramed(cfg: Config, p: Port, i: Input)
    requires Inv(p) && TapesFramed(p)
    ensures TapesFramed(Step(cfg, p, i))
  {
    if p.vadUp {
      StepWhileUp(cfg, p, i);
      if i.Plugin? && !i.event.EtStart? { OnTapeStartsOnce(cfg, p.tape.value, i.event, i.now); }
    } else {
      StepWhileDown(cfg, p, i);
      if Loud(cfg, i) { VoiceStartsOnce(cfg, p, i.chunk, i.now); }
    }
  }

  // ---------- After a plugin stop ----------

  /** Chunks that all reach the low threshold. */
  predicate AllAbove(cfg: Config, later: seq<Input>) {
    forall i :: 0 <= i < |later| ==> Judged(later[i]) && !Quiet(cfg, later[i])
  }

  /** Voice is still up at p', and nothing has reached the tape attached at p. */
  predicate Unheard(p: Port, p': Port) {
    p'.vadUp && !p'.capturing && p.tape.Some? && p'.tape == p.tape && p'.released == p.released
  }

  /** A tape the plugin has stopped takes no further chunk, however long the voice goes on. */
  lemma {:induction false} StoppedTapeHearsNothing(cfg: Config, inputs: seq<Input>, later: seq<Input>)
    requires 0.0 <= cfg.holdOnSec && AllAbove(cfg, later)
    requires Run(cfg, inputs).vadUp && !Run(cfg, inputs).capturing
    ensures Unheard(Run(cfg, inputs), Run(cfg, inputs + later))
    decreases |later|
  {
    if later == [] {
      EveryRun(cfg, inputs);
      assert inputs + later == inputs;
    } else {
      var n := |later| - 1;
      var front, last := later[..n], later[n];
      var before := inputs + front;
      StoppedTapeHearsNothing(cfg, inputs, front);
      UnheardOn(cfg, Run(cfg, inputs), before, last);
      assert before + [last] == inputs + later;
    }
  }

  lemma {:induction false} UnheardOn(cfg: Config, p: Port, before: seq<Input>, last: Input)
    requires 0.0 <= cfg.holdOnSec && Judged(last) && !Quiet(cfg, last) && Unheard(p, Run(cfg, before))
    ensures Unheard(p, Run(cfg, before + [last]))
  {
    EveryRun(cfg, before);
    UnheardStep(cfg, Run(cfg, before), last);
    RunSnoc(cfg, before, last);
  }

  lemma {:induction false} UnheardStep(cfg: Config, p: Port, i: Input)
    requires Inv(p) && p.vadUp && !p.capturing && Judged(i) && !Quiet(cfg, i) && 0.0 <= cfg.holdOnSec
    ensures var p' := Step(cfg, p, i);
            p'.vadUp && !p'.capturing && p'.tape == p.tape && p'.released == p.released
  {
    StepWhileUp(cfg, p, i);
  }

  /** A voice, a plugin stop, and loud chunks for as long as one likes: only the first is recorded. */
  lemma {:induction false} LoudButUnrecorded(cfg: Config, first: Input, now: int, later: seq<Input>)
    requires 0.0 <= cfg.holdOnSec && Loud(cfg, first) && AllAbove(cfg, later)
    ensures var p := Run(cfg, [first, Plugin(EtStop, now)] + later);
            p.tape.Some? && p.tape.value.chunks == [first.chunk] && p.released == []
  {
    var one, two := [first], [first, Plugin(EtStop, now)];
    assert one[..0] == [] && two[..1] == one;
    StepWhileDown(cfg, NEW_PORT, first);
    assert Run(cfg, one) == Step(cfg, Run(cfg, []), first);
    StepWhileUp(cfg, Run(cfg, one), Plugin(EtStop, now));
    assert [first.chunk] + [] == [first.chunk];
    StoppedTapeHearsNothing(cfg, two, later);
  }

  // ---------- Time on hold ----------

  /** A tape's history: the hold and resume events it was given, with their times. */
  function AfterHolds(cfg: Config, h: seq<(Event, int)>): Tape {
    if h == [] then NEW_TAPE
    else OnTape(cfg, AfterHolds(cfg, h[..|h| - 1]), h[|h| - 1].0, h[|h| - 1].1)
  }

  function LastTime(h: seq<(Event, int)>): nat {
    if h == [] || h[|h| - 1].1 < 0 then 0 else h[|h| - 1].1
  }

  /** Positive times that do not go back. */
  ghost predicate InTime(h: seq<(Event, int)>) {
    h != [] ==> InTime(h[..|h| - 1]) && h[|h| - 1].1 > 0 && LastTime(h[..|h| - 1]) <= h[|h| - 1].1
  }

  /** Whether the call is on hold in second t: the latest hold or resume by then was a hold. */
  predicate OnHoldAt(h: seq<(Event, int)>, t: int) {
    h != [] &&
      var (e, at) := h[|h| - 1];
      if at <= t && (e.EtHold? || e.EtResume?) then e.EtHold? else OnHoldAt(h[..|h| - 1], t)
  }

  function SecondsOnHold(h: seq<(Event, int)>, until: nat): nat {
    if until == 0 then 0 else SecondsOnHold(h, until - 1) + (if OnHoldAt(h, until - 1) then 1 else 0)
  }

  /** A later event does not change the seconds before it. */
  lemma {:induction false} EarlierSeconds(h: seq<(Event, int)>, last: (Event, int), until: nat)
    requires until <= last.1
    ensures SecondsOnHold(h + [last], until) == SecondsOnHold(h, until)
  {
    if until > 0 {
      EarlierSeconds(h, last, until - 1);
      assert (h + [last])[..|h|] == h;
    }
  }

  lemma {:induction false} OnHoldLater(h: seq<(Event, int)>, t: int, t': int)
    requires InTime(h) && LastTime(h) <= t <= t'
    ensures OnHoldAt(h, t) == OnHoldAt(h, t')
  {
    if h != [] {
      OnHoldLater(h[..|h| - 1], t, t');
    }
  }

  lemma {:induction false} LaterSeconds(h: seq<(Event, int)>, from: nat, until: nat)
    requires InTime(h) && LastTime(h) <= from <= until
    ensures SecondsOnHold(h, until) == SecondsOnHold(h, from) + (if OnHoldAt(h, from) then until - from else 0)
  {
    if from < until {
      LaterSeconds(h, from, until - 1);
      OnHoldLater(h, from, until - 1);
    }
  }

  /** m_holdDuration, with the hold going on counted up to now, is the number of seconds on hold. */
  lemma {:induction false} HoldDurationIs(cfg: Config, h: seq<(Event, int)>, now: nat)
    requires InTime(h) && LastTime(h) <= now
    ensures var t := AfterHolds(cfg, h);
            && (t.lastHoldTs > 0 <==> OnHoldAt(h, now)) && 0 <= t.lastHoldTs <= now
            && t.holdDuration + (if t.lastHoldTs > 0 then now - t.lastHoldTs else 0) == SecondsOnHold(h, now)
    decreases |h|
  {
    if h == [] {
      NoHold(now);
    } else {
      var front, last := h[..|h| - 1], h[|h| - 1];
      assert front + [last] == h;
      HoldDurationIs(cfg, front, last.1);
      EarlierSeconds(front, last, last.1);
      OnHoldLater(front, last.1, now);
      LaterSeconds(h, last.1, now);
      OnHoldLater(h, last.1, now);
    }
  }

  /** The events of a history that put the call on hold or take it off. */
  function Changes(h: seq<(Event, int)>): seq<Event> {
    if h == [] then []
    else
      var front, (e, at) := h[..|h| - 1], h[|h| - 1];
      Changes(front) + if (e.EtHold? && !OnHoldAt(front, at)) || (e.EtResume? && OnHoldAt(front, at)) then [e] else []
  }

  /** If holds are to be reported the tape is told of exactly those, and else of none. */
  lemma {:induction false} HoldsReported(cfg: Config, h: seq<(Event, int)>)
    requires InTime(h) && forall i :: 0 <= i < |h| ==> h[i].0.EtHold? || h[i].0.EtResume?
    ensures AfterHolds(cfg, h).events == if cfg.reportHolds then Changes(h) else []
    decreases |h|
  {
    if h != [] {
      var front, last := h[..|h| - 1], h[|h| - 1];
      assert forall i :: 0 <= i < |front| ==> front[i] == h[i];
      HoldsReported(cfg, front);
      HoldDurationIs(cfg, front, last.1);
    }
  }

  lemma {:induction false} NoHold(until: nat)
    ensures SecondsOnHold([], until) == 0
  {
    if until > 0 {
      NoHold(until - 1);
    }
  }

  // ---------- The classes ----------

  /** An AudioTape as the port sees it: what it is given. The module AudioTapes has what it does with that. */
  class PortTape {
    var events: seq<Event>
    var chunks: seq<Chunk>
    var signals: nat
    var lastHoldTs: int
    var holdDuration: int
    var shouldStop: bool

    function Value(): Tape
      reads this
    {
      Tape(events, chunks, signals, lastHoldTs, holdDuration)
    }

    constructor ()
      ensures Value() == NEW_TAPE && !shouldStop
    {
      events, chunks, signals, lastHoldTs, holdDuration, shouldStop := [], [], 0, 0, 0, false;
    }

    /** The switch of CapturePort::AddCaptureEvent. */
    method Take(cfg: Config, e: Event, now: int)
      modifies this
      ensures Value() == OnTape(cfg, old(Value()), e, now) && shouldStop == old(shouldStop)
    {
      match e {
        case EtStart =>
        case EtStop =>
          events := events + [e];
          signals := signals + 1;
        case EtHold =>
          if lastHoldTs == 0 {
            lastHoldTs := now;
            if cfg.reportHolds {
              events := events + [e];
            }
          }
        case EtResume =>
          if lastHoldTs > 0 {
            holdDuration := holdDuration + (now - lastHoldTs);
          }
          if cfg.reportHolds && lastHoldTs > 0 {
            events := events + [e];
          }
          lastHoldTs := 0;
        case EtEndMetadata =>
        case EtOrkUid(_, _) => events := events + [e];
        case EtOther(_) => events := events + [e];
      }
    }
  }

  class CapturePort {
    const cfg: Config
    var tape: PortTape?
    var capturing: bool
    var vadUp: bool
    var belowSec: real
    var queue: seq<Event>
    var segment: nat
    ghost var released: seq<Tape>

    ghost function State(): Port
      reads this, tape
    {
      Port(if tape == null then None else Some(tape.Value()), capturing, vadUp, belowSec, queue, segment, released)
    }

    constructor (cfg: Config)
      ensures this.cfg == cfg && State() == NEW_PORT
    {
      this.cfg, tape, capturing, vadUp, belowSec, queue, segment := cfg, null, false, false, 0.0, [], 0;
      released := [];
    }

    method AddCaptureEvent(e: Event, now: int)
      modifies this, tape
      ensures State() == Delivered(cfg, old(State()), e, now)
      ensures if e.EtStart? then fresh(tape) && (old(tape) != null ==> old(tape).shouldStop) else tape == old(tape)
    {
      if e.EtStart? {
        capturing := true;
        if tape != null {
          tape.shouldStop := true;
        }
        tape := new PortTape();
        tape.events := tape.events + [e];
      }
      if tape != null {
        if e.EtStop? {
          capturing := false;
        }
        tape.Take(cfg, e, now);
      }
    }

    method ReportAgain(e: Event, now: int)
      requires !e.EtStart? && !e.EtStop?
      modifies this, tape
      ensures State() == ReplayOne(cfg, old(State()), e, now) && tape == old(tape)
    {
      if e.EtOrkUid? {
        segment := segment + 1;
        AddCaptureEvent(EtOrkUid(e.value, Some(segment)), now);
      } else {
        AddCaptureEvent(e, now);
      }
    }

    method ReportEventBacklog(now: int)
      requires NoEnds(queue)
      modifies this, tape
      ensures State() == Replay(cfg, old(State()), queue, now)
      ensures tape == old(tape) && queue == old(queue)
    {
      ghost var start := State();
      assert queue[..0] == [];
      for i := 0 to |queue|
        invariant queue == old(queue) && tape == old(tape)
        invariant State() == Replay(cfg, start, queue[..i], now)
      {
        ReplayNext(cfg, start, queue, i, i + 1, now);
        ReportAgain(queue[i], now);
      }
      assert queue[..|queue|] == queue;
    }

    method StartVoice(now: int)
      requires Inv(State()) && !vadUp
      modifies this, tape
      ensures State() == VoiceStart(cfg, old(State()), now) && fresh(tape)
    {
      belowSec := 0.0;
      vadUp := true;
      if tape == null {
        tape := new PortTape();
        AddCaptureEvent(EtStart, now);
        ReportEventBacklog(now);
      }
    }

    method StopVoice(now: int)
      requires Inv(State()) && vadUp
      modifies this, tape
      ensures State() == VoiceStop(cfg, old(State()), now) && tape == null
      ensures State().released == old(released) + [old(tape).Value()]
    {
      vadUp := false;
      AddCaptureEvent(EtStop, now);
      released := released + [tape.Value()];
      tape := null;
    }

    method AddAudioChunk(c: Chunk, now: int)
      requires Inv(State())
      modifies this, tape
      ensures State() == Step(cfg, old(State()), Audio(c, now)) && Inv(State())
    {
      ghost var start := State();
      if c.level.Some? {
        if vadUp {
          if c.level.value < cfg.lowDb {
            belowSec := belowSec + c.duration;
          } else {
            belowSec := 0.0;
          }
          if belowSec > cfg.holdOnSec {
            StopVoice(now);
          }
        } else if c.level.value > cfg.highDb {
          StartVoice(now);
        }
      }
      if tape != null && capturing {
        tape.chunks := tape.chunks + [c];
        tape.signals := tape.signals + 1;
      }
      StepKeepsInv(cfg, start, Audio(c, now));
    }

    /** CapturePluginProxy::CaptureEventCallBack for this port. */
    method CaptureEventCallBack(e: Event, now: int)
      requires Inv(State())
      modifies this, tape
      ensures State() == Step(cfg, old(State()), Plugin(e, now)) && Inv(State())
    {
      ghost var start := State();
      if e.EtStart? || e.EtStop? {
        if e.EtStop? {
          queue := [];
          AddCaptureEvent(e, now);
        }
      } else {
        queue := queue + [e];
        AddCaptureEvent(e, now);
      }
      if start.vadUp {
        StepWhileUp(cfg, start, Plugin(e, now));
      } else {
        StepWhileDown(cfg, start, Plugin(e, now));
      }
    }
  }

  lemma {:induction false} ReplayNext(cfg: Config, p: Port, q: seq<Event>, i: nat, j: nat, now: int)
    requires i < |q| && j == i + 1 && NoEnds(q)
    ensures SameButEvents(p, Replay(cfg, p, q[..i], now))
    ensures Replay(cfg, p, q[..j], now) == ReplayOne(cfg, Replay(cfg, p, q[..i], now), q[i], now)
  {
    assert q[..j][..i] == q[..i];
    ReplayKeeps(cfg, p, q[..i], now);
  }
}
