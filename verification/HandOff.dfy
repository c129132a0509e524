/** The hand-off of tapes from the capture threads to the disk thread (ImmediateProcessing.cpp),
    as interleaved steps. Every critical section, every semaphore operation and every unlocked
    read or write of shared tape state is a step of its own. */
module HandOff {
  import opened AudioChunks
  import opened AudioTapes

  /** Where a capture thread stands.
      Admitted: AddAudioChunk has read an accepting m_state and is about to lock the tape.
      MustPush: back from AddAudioChunk or from setting m_shouldStop, about to call Push.
      InPush: inside Push, the tape enqueued, m_semaphore not yet released, m_mutex held. */
  datatype Producer = Idle | Admitted(tape: nat, chunk: AudioChunk) | MustPush(tape: nat) | InPush(tape: nat)

  /** Where the single consumer stands in Pop, Write and IsReadyForBatchProcessing. */
  datatype Consumer =
    | Blocked
    | HasPermit
    | Popped(tape: nat)
    | Discarding(tape: nat)
    | Writing(tape: nat)
    | Finishing(tape: nat)
    | Checking(tape: nat)

  /** `duplicates` counts pushes that found the tape already queued, `empties` pops that found
      nothing. */
  datatype State = State(
    tapes: seq<Tape>,
    deque: seq<nat>,
    permits: nat,
    mutexHeld: bool,
    producers: seq<Producer>,
    consumer: Consumer,
    duplicates: nat,
    empties: nat)

  datatype Step =
    // the environment: capture threads deciding to do something
    | CreateTape
    | Offer(p: nat, t: nat, c: AudioChunk)
    | StopEvent(p: nat, t: nat)
    | ForceStop(t: nat)
    | PassFilter(t: nat)
    // the rest of what a capture thread has begun
    | AppendChunk(p: nat)
    | Enqueue(p: nat)
    | Release(p: nat)
    // the consumer
    | Acquire
    | Pop
    | BeginWrite
    | Drain(ok: bool)
    | EndWrite
    | CheckBatch

  function Init(threads: nat): State {
    State([], [], 0, false, seq(threads, _ => Idle), Blocked, 0, 0)
  }

  ghost predicate Enabled(s: State, step: Step) {
    match step
    case CreateTape => true
    case Offer(p, t, c) => p < |s.producers| && s.producers[p].Idle? && t < |s.tapes|
    case StopEvent(p, t) => p < |s.producers| && s.producers[p].Idle? && t < |s.tapes|
    case ForceStop(t) => t < |s.tapes|
    case PassFilter(t) => t < |s.tapes|
    case AppendChunk(p) => p < |s.producers| && s.producers[p].Admitted? && s.producers[p].tape < |s.tapes|
    case Enqueue(p) =>
      p < |s.producers| && s.producers[p].MustPush? && s.producers[p].tape < |s.tapes| && !s.mutexHeld
    case Release(p) => p < |s.producers| && s.producers[p].InPush?
    case Acquire => s.consumer.Blocked? && s.permits > 0
    case Pop => s.consumer.HasPermit? && !s.mutexHeld && (s.deque != [] ==> s.deque[0] < |s.tapes|)
    case BeginWrite => s.consumer.Popped? && s.consumer.tape < |s.tapes|
    case Drain(_) => (s.consumer.Discarding? || s.consumer.Writing?) && s.consumer.tape < |s.tapes|
    case EndWrite => s.consumer.Finishing? && s.consumer.tape < |s.tapes|
    case CheckBatch => s.consumer.Checking? && s.consumer.tape < |s.tapes|
  }

  /** Push under m_mutex, before the semaphore is released. */
  function PushQueue<T>(deque: seq<T>, isQueued: bool, t: T): seq<T> {
    if isQueued then deque else deque + [t]
  }

  function Apply(cfg: Config, s: State, step: Step): State
    requires Enabled(s, step)
  {
    match step
    case CreateTape =>
      s.(tapes := s.tapes + [NEW_TAPE])
    case Offer(p, t, c) =>
      // an unlocked read of m_state decides whether AddAudioChunk does anything; Push follows either way
      s.(producers := s.producers[p := if Accepting(s.tapes[t]) then Admitted(t, c) else MustPush(t)])
    case StopEvent(p, t) =>
      s.(tapes := s.tapes[t := s.tapes[t].(shouldStop := true)],
         producers := s.producers[p := MustPush(t)])
    case ForceStop(t) =>
      s.(tapes := s.tapes[t := s.tapes[t].(shouldStop := true)])
    case PassFilter(t) =>
      s.(tapes := s.tapes[t := s.tapes[t].(passedFilter := true)])
    case AppendChunk(p) =>
      var t := s.producers[p].tape;
      var q := Append(cfg, s.tapes[t].queue, s.producers[p].chunk);
      s.(tapes := s.tapes[t := s.tapes[t].(queue := q)],
         producers := s.producers[p := MustPush(t)])
    case Enqueue(p) =>
      var t := s.producers[p].tape;
      s.(deque := PushQueue(s.deque, s.tapes[t].isQueued, t),
         tapes := s.tapes[t := s.tapes[t].(isQueued := true)],
         mutexHeld := true,
         duplicates := s.duplicates + (if s.tapes[t].isQueued then 1 else 0),
         producers := s.producers[p := InPush(t)])
    case Release(p) =>
      s.(permits := s.permits + 1, mutexHeld := false, producers := s.producers[p := Idle])
    case Acquire =>
      s.(permits := s.permits - 1, consumer := HasPermit)
    case Pop =>
      if s.deque == [] then s.(consumer := Blocked, empties := s.empties + 1)
      else
        var t := s.deque[0];
        s.(deque := s.deque[1..], tapes := s.tapes[t := s.tapes[t].(isQueued := false)], consumer := Consumer.Popped(t))
    case BeginWrite =>
      var t := s.consumer.tape;
      if Rejected(cfg, s.tapes[t]) then
        s.(tapes := s.tapes[t := if s.tapes[t].state == Created then s.tapes[t].(state := Active) else s.tapes[t]],
           consumer := Discarding(t))
      else s.(consumer := Writing(t))
    case Drain(ok) =>
      var t := s.consumer.tape;
      if s.consumer.Discarding? then
        if s.tapes[t].queue.chunks == [] then
          s.(consumer := Checking(t))
        else s.(tapes := s.tapes[t := s.tapes[t].(queue := Take(s.tapes[t].queue))])
      else
        if !LoopGoesOn(s.tapes[t]) then s.(consumer := Finishing(t))
        else if s.tapes[t].queue.chunks == [] then
          s.(consumer := Finishing(t))
        else s.(tapes := s.tapes[t := WriteOne(cfg, s.tapes[t], ok)])
    case EndWrite =>
      var t := s.consumer.tape;
      s.(tapes := s.tapes[t := Finish(s.tapes[t])], consumer := Checking(t))
    case CheckBatch =>
      var t := s.consumer.tape;
      s.(tapes := s.tapes[t := CheckReady(s.tapes[t])], consumer := Blocked)
  }

  ghost predicate Run(cfg: Config, s: State, steps: seq<Step>)
    decreases |steps|
  {
    steps == [] || (Enabled(s, steps[0]) && Run(cfg, Apply(cfg, s, steps[0]), steps[1..]))
  }

  ghost function After(cfg: Config, s: State, steps: seq<Step>): State
    requires Run(cfg, s, steps)
    decreases |steps|
  {
    if steps == [] then s else After(cfg, Apply(cfg, s, steps[0]), steps[1..])
  }

  // ---------- The invariant ----------

  ghost predicate Typed(s: State) {
    && (forall p :: 0 <= p < |s.producers| && !s.producers[p].Idle? ==> s.producers[p].tape < |s.tapes|)
    && (!s.consumer.Blocked? && !s.consumer.HasPermit? ==> s.consumer.tape < |s.tapes|)
    && (forall i :: 0 <= i < |s.deque| ==> s.deque[i] < |s.tapes|)
  }

  ghost predicate TapesOk(cfg: Config, s: State) {
    forall t :: 0 <= t < |s.tapes| ==> Inv(cfg, s.tapes[t])
  }

  /** m_isQueued holds exactly of the tapes in the deque, and each is there once. */
  ghost predicate FlagIsMembership(s: State) {
    && (forall i, j :: 0 <= i < j < |s.deque| ==> s.deque[i] != s.deque[j])
    && (forall t :: 0 <= t < |s.tapes| ==> (s.tapes[t].isQueued <==> t in s.deque))
  }

  /** m_mutex is held over a step boundary exactly by one capture thread inside Push. */
  ghost predicate MutexOk(s: State) {
    && (s.mutexHeld <==> exists p :: 0 <= p < |s.producers| && s.producers[p].InPush?)
    && (forall p, r :: 0 <= p < |s.producers| && 0 <= r < |s.producers|
          && s.producers[p].InPush? && s.producers[r].InPush?
          ==> p == r)
  }

  /** The semaphore's books: what has been released and not yet matched by a finished Pop. */
  ghost predicate PermitsBalance(s: State) {
    && s.permits + (if s.consumer.HasPermit? then 1 else 0) + (if s.mutexHeld then 1 else 0)
       == |s.deque| + s.duplicates - s.empties
    && s.empties <= s.duplicates
  }

  ghost predicate PushPending(s: State, t: nat) {
    MustPush(t) in s.producers
  }

  /** Someone will look at tape t's queue again. */
  ghost predicate WillDrain(s: State, t: nat) {
    t in s.deque || PushPending(s, t)
    || s.consumer == Consumer.Popped(t) || s.consumer == Discarding(t) || s.consumer == Writing(t)
  }

  /** Someone will look at tape t's stop request again. */
  ghost predicate WillFinish(s: State, t: nat) {
    t in s.deque || PushPending(s, t)
    || s.consumer == Consumer.Popped(t) || s.consumer == Writing(t) || s.consumer == Finishing(t)
  }

  ghost predicate NoChunkStranded(s: State) {
    forall t :: 0 <= t < |s.tapes| && s.tapes[t].state != Stopped && s.tapes[t].queue.chunks != [] ==> WillDrain(s, t)
  }

  /** Write's main loop is only entered for tapes the filter does not reject, and only it stops one. */
  ghost predicate ModeOkAt(cfg: Config, s: State, t: nat)
    requires t < |s.tapes|
  {
    (s.tapes[t].state == Stopped || s.consumer == Writing(t) || s.consumer == Finishing(t)) ==>
      !Rejected(cfg, s.tapes[t]) && s.consumer != Discarding(t)
  }

  ghost predicate ModeOk(cfg: Config, s: State) {
    forall t :: 0 <= t < |s.tapes| ==> ModeOkAt(cfg, s, t)
  }

  /** A tape is ready for batch processing only until the consumer, right after its Write, asks. */
  ghost predicate ReadyAsked(s: State) {
    forall t :: 0 <= t < |s.tapes| && s.tapes[t].ready ==> s.consumer == Checking(t)
  }

  ghost predicate Safe(cfg: Config, s: State) {
    && Typed(s) && TapesOk(cfg, s) && FlagIsMembership(s) && MutexOk(s) && PermitsBalance(s)
    && NoChunkStranded(s) && ModeOk(cfg, s) && ReadyAsked(s)
  }

  lemma {:induction false} TypedKeeps(cfg: Config, s: State, step: Step)
    requires Typed(s) && Enabled(s, step)
    ensures Typed(Apply(cfg, s, step))
  {
  }

  lemma {:induction false} DrainKeeps(cfg: Config, s: State, ok: bool)
    requires Typed(s) && TapesOk(cfg, s) && Enabled(s, Drain(ok))
    ensures TapesOk(cfg, Apply(cfg, s, Drain(ok)))
  {
    var t := s.consumer.tape;
    var tape := s.tapes[t];
    if tape.queue.chunks != [] {
      if s.consumer.Discarding? {
        DiscardOneKeeps(cfg, tape);
      } else if LoopGoesOn(tape) {
        WriteOneKeeps(cfg, tape, ok);
      }
    }
  }

  /** A tape changed only in what Inv does not speak of. */
  lemma {:induction false} FlagsDoNotMatter(cfg: Config, t: Tape, t': Tape)
    requires Inv(cfg, t)
    requires t'.queue == t.queue && t'.media == t.media && t'.state == t.state && t'.ready == t.ready
             && t'.batched == t.batched
    ensures Inv(cfg, t')
  {
  }

  lemma {:induction false} TapeKeeps(cfg: Config, s: State, step: Step, t: nat)
    requires Enabled(s, step) && !step.Drain? && t < |s.tapes| && Inv(cfg, s.tapes[t])
    ensures Inv(cfg, Apply(cfg, s, step).tapes[t])
  {
    if step.AppendChunk? {
      AppendKeeps(cfg, s.tapes[t].queue, s.producers[step.p].chunk);
    } else if !step.BeginWrite? && !step.EndWrite? && !step.CheckBatch? {
      FlagsDoNotMatter(cfg, s.tapes[t], Apply(cfg, s, step).tapes[t]);
    }
  }

  lemma {:induction false} TapesKeep(cfg: Config, s: State, step: Step)
    requires Typed(s) && TapesOk(cfg, s) && Enabled(s, step)
    ensures TapesOk(cfg, Apply(cfg, s, step))
  {
    if step.Drain? {
      DrainKeeps(cfg, s, step.ok);
    } else {
      var s' := Apply(cfg, s, step);
      forall t | 0 <= t < |s'.tapes| ensures Inv(cfg, s'.tapes[t]) {
        if t < |s.tapes| { TapeKeeps(cfg, s, step, t); }
      }
    }
  }

  lemma {:induction false} FlagUntouched(cfg: Config, s: State, step: Step, t: nat)
    requires Enabled(s, step) && !step.Enqueue? && !step.Pop? && t < |s.tapes|
    ensures Apply(cfg, s, step).deque == s.deque && Apply(cfg, s, step).tapes[t].isQueued == s.tapes[t].isQueued
  {
  }

  lemma {:induction false} EnqueueKeepsFlag(cfg: Config, s: State, p: nat)
    requires Typed(s) && FlagIsMembership(s) && Enabled(s, Enqueue(p))
    ensures FlagIsMembership(Apply(cfg, s, Enqueue(p)))
  {
  }

  lemma {:induction false} PopKeepsFlag(cfg: Config, s: State)
    requires Typed(s) && FlagIsMembership(s) && Enabled(s, Pop)
    ensures FlagIsMembership(Apply(cfg, s, Pop))
  {
  }

  lemma {:induction false} FlagKeeps(cfg: Config, s: State, step: Step)
    requires Typed(s) && FlagIsMembership(s) && Enabled(s, step)
    ensures FlagIsMembership(Apply(cfg, s, step))
  {
    if step.Enqueue? {
      EnqueueKeepsFlag(cfg, s, step.p);
    } else if step.Pop? {
      PopKeepsFlag(cfg, s);
    } else {
      var s' := Apply(cfg, s, step);
      forall t | 0 <= t < |s'.tapes| ensures s'.tapes[t].isQueued <==> t in s'.deque {
        if t < |s.tapes| { FlagUntouched(cfg, s, step, t); }
      }
    }
  }

  lemma {:induction false} MutexKeeps(cfg: Config, s: State, step: Step)
    requires MutexOk(s) && Enabled(s, step)
    ensures MutexOk(Apply(cfg, s, step))
  {
    var s' := Apply(cfg, s, step);
    if q :| 0 <= q < |s.producers| && s.producers[q].InPush? && step != Release(q) {
      assert s'.producers[q].InPush?;
    }
    if step.Enqueue? {
      assert s'.producers[step.p].InPush?;
    }
  }

  lemma {:induction false} PermitsKeep(cfg: Config, s: State, step: Step)
    requires PermitsBalance(s) && MutexOk(s) && Enabled(s, step)
    ensures PermitsBalance(Apply(cfg, s, step))
  {
  }

  lemma {:induction false} InUpdate<T>(xs: seq<T>, p: nat, y: T)
    requires p < |xs|
    ensures y in xs[p := y]
    ensures forall x :: x in xs && x != xs[p] ==> x in xs[p := y]
  {
    assert xs[p := y][p] == y;
    forall x | x in xs && x != xs[p] ensures x in xs[p := y] {
      var i :| 0 <= i < |xs| && xs[i] == x;
      assert xs[p := y][i] == x;
    }
  }

  /** Which thread a step belongs to, if any. */
  function Thread(step: Step): Option<nat> {
    match step
    case Offer(p, _, _) => Some(p)
    case StopEvent(p, _) => Some(p)
    case AppendChunk(p) => Some(p)
    case Enqueue(p) => Some(p)
    case Release(p) => Some(p)
    case _ => None
  }

  /** A pending push of t stays pending until it is enqueued. */
  lemma {:induction false} PushStaysPending(cfg: Config, s: State, step: Step, t: nat)
    requires Typed(s) && FlagIsMembership(s) && Enabled(s, step) && t < |s.tapes|
    requires PushPending(s, t) || t in s.deque
    ensures var s' := Apply(cfg, s, step);
            PushPending(s', t) || t in s'.deque || s'.consumer == Consumer.Popped(t)
  {
    var s' := Apply(cfg, s, step);
    if Thread(step).Some? {
      InUpdate(s.producers, step.p, s'.producers[step.p]);
    }
  }

  lemma {:induction false} ChunksKeep(cfg: Config, s: State, step: Step)
    requires Typed(s) && TapesOk(cfg, s) && FlagIsMembership(s) && NoChunkStranded(s) && Enabled(s, step)
    ensures NoChunkStranded(Apply(cfg, s, step))
  {
    var s' := Apply(cfg, s, step);
    forall t | 0 <= t < |s'.tapes| && s'.tapes[t].state != Stopped && s'.tapes[t].queue.chunks != []
      ensures WillDrain(s', t)
    {
      if step == CreateTape && t == |s.tapes| {
      } else if step.AppendChunk? && s.producers[step.p].tape == t {
        InUpdate(s.producers, step.p, MustPush(t));
      } else {
        ChunkWatched(cfg, s, step, t);
      }
    }
  }

  lemma {:induction false} ChunkWatched(cfg: Config, s: State, step: Step, t: nat)
    requires Typed(s) && TapesOk(cfg, s) && FlagIsMembership(s) && Enabled(s, step) && t < |s.tapes|
    requires s.tapes[t].state != Stopped && s.tapes[t].queue.chunks != [] ==> WillDrain(s, t)
    requires !(step.AppendChunk? && s.producers[step.p].tape == t)
    ensures var s' := Apply(cfg, s, step);
            s'.tapes[t].state != Stopped && s'.tapes[t].queue.chunks != [] ==> WillDrain(s', t)
  {
    if PushPending(s, t) || t in s.deque {
      PushStaysPending(cfg, s, step, t);
    }
  }

  /** Requests and filter matches are never taken back, and Stopped is never left. */
  lemma {:induction false} TapeOnlyAdvances(cfg: Config, s: State, step: Step, t: nat)
    requires Enabled(s, step) && t < |s.tapes|
    ensures var tape, tape' := s.tapes[t], Apply(cfg, s, step).tapes[t];
            && (tape.shouldStop ==> tape'.shouldStop)
            && (tape.passedFilter ==> tape'.passedFilter)
            && (tape.state == Stopped ==> tape'.state == Stopped)
            && (step == EndWrite && s.consumer.tape == t && tape.shouldStop ==> tape'.state == Stopped)
  {
  }

  lemma {:induction false} FinishStaysDue(cfg: Config, s: State, step: Step, t: nat)
    requires Typed(s) && FlagIsMembership(s) && Enabled(s, step) && t < |s.tapes|
    requires !Rejected(cfg, s.tapes[t]) && WillFinish(s, t)
    ensures var s' := Apply(cfg, s, step);
            WillFinish(s', t) || (step == EndWrite && s.consumer.tape == t)
  {
    if PushPending(s, t) || t in s.deque {
      PushStaysPending(cfg, s, step, t);
    }
  }

  lemma {:induction false} ModeKeeps(cfg: Config, s: State, step: Step)
    requires Typed(s) && ModeOk(cfg, s) && Enabled(s, step)
    ensures ModeOk(cfg, Apply(cfg, s, step))
  {
    var s' := Apply(cfg, s, step);
    forall t | 0 <= t < |s'.tapes| ensures ModeOkAt(cfg, s', t) {
      if t < |s.tapes| {
        assert ModeOkAt(cfg, s, t);
        TapeOnlyAdvances(cfg, s, step, t);
      }
    }
  }

  lemma {:induction false} ReadyKeeps(cfg: Config, s: State, step: Step)
    requires ReadyAsked(s) && Enabled(s, step)
    ensures ReadyAsked(Apply(cfg, s, step))
  {
    var s' := Apply(cfg, s, step);
    forall t | 0 <= t < |s'.tapes| && s'.tapes[t].ready ensures s'.consumer == Checking(t) {
      if t < |s.tapes| { ReadyOnce(cfg, s, step, t); }
    }
  }

  lemma {:induction false} ReadyOnce(cfg: Config, s: State, step: Step, t: nat)
    requires Enabled(s, step) && t < |s.tapes| && (s.tapes[t].ready ==> s.consumer == Checking(t))
    ensures var s' := Apply(cfg, s, step); s'.tapes[t].ready ==> s'.consumer == Checking(t)
  {
  }

  lemma {:induction false} StepKeepsSafe(cfg: Config, s: State, step: Step)
    requires Safe(cfg, s) && Enabled(s, step)
    ensures Safe(cfg, Apply(cfg, s, step))
  {
    TypedKeeps(cfg, s, step);
    TapesKeep(cfg, s, step);
    FlagKeeps(cfg, s, step);
    MutexKeeps(cfg, s, step);
    PermitsKeep(cfg, s, step);
    ChunksKeep(cfg, s, step);
    ModeKeeps(cfg, s, step);
    ReadyKeeps(cfg, s, step);
  }

  /** The invariant holds after every interleaving, for any number of capture threads. */
  lemma {:induction false} SafeAlong(cfg: Config, s: State, steps: seq<Step>)
    requires Safe(cfg, s) && Run(cfg, s, steps)
    ensures Safe(cfg, After(cfg, s, steps))
    decreases |steps|
  {
    if steps != [] {
      StepKeepsSafe(cfg, s, steps[0]);
      SafeAlong(cfg, Apply(cfg, s, steps[0]), steps[1..]);
    }
  }

  /** Every queue within its bound, and every chunk on its way no larger than `limit`. */
  ghost predicate Bounded(cfg: Config, s: State, limit: nat) {
    && (forall t :: 0 <= t < |s.tapes| ==> Within(cfg, s.tapes[t].queue.dataSize, limit))
    && (forall p :: 0 <= p < |s.producers| && s.producers[p].Admitted? ==>
          s.producers[p].chunk.details.numBytes <= limit)
  }

  ghost predicate OffersAtMost(steps: seq<Step>, limit: nat) {
    forall i :: 0 <= i < |steps| && steps[i].Offer? ==> steps[i].c.details.numBytes <= limit
  }

  lemma {:induction false} BoundKeepsAt(cfg: Config, s: State, step: Step, limit: nat, t: nat)
    requires Typed(s) && Enabled(s, step) && Bounded(cfg, s, limit) && t < |s.tapes| && Inv(cfg, s.tapes[t])
    ensures t < |Apply(cfg, s, step).tapes| && Within(cfg, Apply(cfg, s, step).tapes[t].queue.dataSize, limit)
  {
    var q := s.tapes[t].queue;
    if step.Drain? && q.chunks != [] {
      TakeKeeps(q);
    }
  }

  lemma {:induction false} BoundKeeps(cfg: Config, s: State, step: Step, limit: nat)
    requires Safe(cfg, s) && Enabled(s, step) && Bounded(cfg, s, limit)
    requires step.Offer? ==> step.c.details.numBytes <= limit
    ensures Bounded(cfg, Apply(cfg, s, step), limit)
  {
    var s' := Apply(cfg, s, step);
    forall t | 0 <= t < |s'.tapes| ensures Within(cfg, s'.tapes[t].queue.dataSize, limit) {
      if t < |s.tapes| {
        BoundKeepsAt(cfg, s, step, limit, t);
      }
    }
  }

  /** In every interleaving every tape's queue stays below three batches plus one chunk. */
  lemma {:induction false} QueuesStayBounded(cfg: Config, s: State, steps: seq<Step>, limit: nat)
    requires Safe(cfg, s) && Run(cfg, s, steps) && Bounded(cfg, s, limit) && OffersAtMost(steps, limit)
    ensures Bounded(cfg, After(cfg, s, steps), limit)
    decreases |steps|
  {
    if steps != [] {
      BoundKeeps(cfg, s, steps[0], limit);
      StepKeepsSafe(cfg, s, steps[0]);
      assert forall i :: 0 <= i < |steps| - 1 ==> steps[1..][i] == steps[i + 1];
      QueuesStayBounded(cfg, Apply(cfg, s, steps[0]), steps[1..], limit);
    }
  }

  ghost predicate Reachable(cfg: Config, s: State) {
    exists threads: nat, steps :: Run(cfg, Init(threads), steps) && After(cfg, Init(threads), steps) == s
  }

  lemma {:induction false} AlwaysSafe(cfg: Config, s: State)
    requires Reachable(cfg, s)
    ensures Safe(cfg, s)
  {
    var threads: nat, steps :| Run(cfg, Init(threads), steps) && After(cfg, Init(threads), steps) == s;
    SafeAlong(cfg, Init(threads), steps);
  }

  // ---------- First come, first served ----------

  /** The tape a step puts into the deque, if any. */
  ghost function PutBy(s: State, step: Step): seq<nat>
    requires Enabled(s, step)
  {
    if step.Enqueue? && !s.tapes[s.producers[step.p].tape].isQueued then [s.producers[step.p].tape] else []
  }

  /** The tape the consumer gets by a step, if any. */
  ghost function TakenBy(cfg: Config, s: State, step: Step): seq<nat>
    requires Enabled(s, step)
  {
    var consumer := Apply(cfg, s, step).consumer;
    if step == Pop && consumer.Popped? then [consumer.tape] else []
  }

  ghost function PutIn(cfg: Config, s: State, steps: seq<Step>): seq<nat>
    requires Run(cfg, s, steps)
    decreases |steps|
  {
    if steps == [] then [] else PutBy(s, steps[0]) + PutIn(cfg, Apply(cfg, s, steps[0]), steps[1..])
  }

  ghost function TakenOut(cfg: Config, s: State, steps: seq<Step>): seq<nat>
    requires Run(cfg, s, steps)
    decreases |steps|
  {
    if steps == [] then [] else TakenBy(cfg, s, steps[0]) + TakenOut(cfg, Apply(cfg, s, steps[0]), steps[1..])
  }

  /** In every interleaving the consumer gets the tapes in the order in which they were put in. */
  lemma {:induction false} FirstComeFirstServed(cfg: Config, s: State, steps: seq<Step>)
    requires Run(cfg, s, steps)
    ensures TakenOut(cfg, s, steps) + After(cfg, s, steps).deque == s.deque + PutIn(cfg, s, steps)
    decreases |steps|
  {
    if steps == [] {
      assert [] + s.deque == s.deque + [];
    } else {
      var s', rest := Apply(cfg, s, steps[0]), steps[1..];
      FirstComeFirstServed(cfg, s', rest);
      DequeStep(cfg, s, steps[0]);
      QueueOn(TakenBy(cfg, s, steps[0]), s'.deque, s.deque, PutBy(s, steps[0]), TakenOut(cfg, s', rest),
              After(cfg, s', rest).deque, PutIn(cfg, s', rest));
    }
  }

  lemma {:induction false} DequeStep(cfg: Config, s: State, step: Step)
    requires Enabled(s, step)
    ensures TakenBy(cfg, s, step) + Apply(cfg, s, step).deque == s.deque + PutBy(s, step)
  {
  }

  lemma {:induction false} QueueOn(a: seq<nat>, next: seq<nat>, now: seq<nat>, b: seq<nat>, taken: seq<nat>,
                                   last: seq<nat>, put: seq<nat>)
    requires a + next == now + b && taken + last == next + put
    ensures (a + taken) + last == now + (b + put)
  {
    assert (a + taken) + last == a + (taken + last);
    assert now + (b + put) == (now + b) + put;
    assert a + (next + put) == (a + next) + put;
  }

  // ---------- At rest ----------

  /** Steps that finish what has been begun, as opposed to new decisions of the capture threads. */
  predicate Internal(step: Step) {
    step.AppendChunk? || step.Enqueue? || step.Release? || step.Acquire? || step.Pop?
    || step.BeginWrite? || step.Drain? || step.EndWrite? || step.CheckBatch?
  }

  /** The consumer is blocked on the semaphore and no capture thread is inside AddAudioChunk or Push. */
  ghost predicate Quiet(s: State) {
    && s.consumer == Blocked && s.permits == 0
    && forall p :: 0 <= p < |s.producers| ==> s.producers[p] == Idle
  }

  /** The part that looks at the last state alone: no tape is queued, and every tape that is not
      stopped has an empty queue. */
  lemma {:induction false} RestIsClean(cfg: Config, s: State)
    requires Safe(cfg, s) && Quiet(s)
    ensures s.deque == []
    ensures forall t :: 0 <= t < |s.tapes| ==> !s.tapes[t].isQueued
    ensures forall t :: 0 <= t < |s.tapes| && s.tapes[t].state != Stopped ==> s.tapes[t].queue.chunks == []
  {
  }

  /** At rest every tape stopped with bytes in its file has been announced for batch processing exactly
      once, and no other tape has. */
  lemma {:induction false} AnnouncedAtRest(cfg: Config, s: State, t: nat)
    requires Reachable(cfg, s) && Quiet(s) && t < |s.tapes|
    ensures var tape := s.tapes[t];
            && !tape.ready
            && tape.batched == if tape.state == Stopped && SumBytes(tape.media.file) > 0 then 1 else 0
  {
    AlwaysSafe(cfg, s);
    assert Inv(cfg, s.tapes[t]);
  }

  /** How often the consumer has got a positive answer for tape t. */
  ghost function PositiveAnswers(cfg: Config, s: State, steps: seq<Step>, t: nat): nat
    requires Run(cfg, s, steps)
    decreases |steps|
  {
    if steps == [] then 0 else
      (if steps[0] == CheckBatch && s.consumer.tape == t && s.tapes[t].ready then 1 else 0)
      + PositiveAnswers(cfg, Apply(cfg, s, steps[0]), steps[1..], t)
  }

  ghost function BatchedOf(s: State, t: nat): nat {
    if t < |s.tapes| then s.tapes[t].batched else 0
  }

  lemma {:induction false} AnswersCounted(cfg: Config, s: State, steps: seq<Step>, t: nat)
    requires Run(cfg, s, steps)
    ensures BatchedOf(After(cfg, s, steps), t) == BatchedOf(s, t) + PositiveAnswers(cfg, s, steps, t)
    decreases |steps|
  {
    if steps != [] {
      AnswerCounted(cfg, s, steps[0], t);
      AnswersCounted(cfg, Apply(cfg, s, steps[0]), steps[1..], t);
    }
  }

  lemma {:induction false} AnswerCounted(cfg: Config, s: State, step: Step, t: nat)
    requires Enabled(s, step)
    ensures BatchedOf(Apply(cfg, s, step), t)
         == BatchedOf(s, t) + if step == CheckBatch && s.consumer.tape == t && s.tapes[t].ready then 1 else 0
  {
  }

  /** Over every run that has come to rest: the consumer has got exactly one positive answer for every
      tape stopped with bytes in its file, and none for any other. */
  lemma {:induction false} AnsweredOnce(cfg: Config, threads: nat, steps: seq<Step>, t: nat)
    requires Run(cfg, Init(threads), steps) && Quiet(After(cfg, Init(threads), steps))
    requires t < |After(cfg, Init(threads), steps).tapes|
    ensures var tape := After(cfg, Init(threads), steps).tapes[t];
            PositiveAnswers(cfg, Init(threads), steps, t)
            == if tape.state == Stopped && SumBytes(tape.media.file) > 0 then 1 else 0
  {
    AnswersCounted(cfg, Init(threads), steps, t);
    AnnouncedAtRest(cfg, After(cfg, Init(threads), steps), t);
  }

  // ---------- Which tapes get stopped ----------

  /** The stop request of tape t is going to be acted on: it is set, the party filter does not reject
      the tape, and someone will come to the end of Write. */
  ghost predicate Attended(cfg: Config, s: State, t: nat) {
    t < |s.tapes| && s.tapes[t].shouldStop && !Rejected(cfg, s.tapes[t]) && WillFinish(s, t)
  }

  /** At some moment of the run the request was attended. */
  ghost predicate Heard(cfg: Config, s: State, steps: seq<Step>, t: nat)
    requires Run(cfg, s, steps)
    decreases |steps|
  {
    Attended(cfg, s, t) || (steps != [] && Heard(cfg, Apply(cfg, s, steps[0]), steps[1..], t))
  }

  /** An attended request stays attended until the tape is stopped. */
  lemma {:induction false} StopsKeep(cfg: Config, s: State, step: Step, t: nat)
    requires Safe(cfg, s) && Enabled(s, step) && t < |s.tapes|
    requires Attended(cfg, s, t) || s.tapes[t].state == Stopped
    ensures var s' := Apply(cfg, s, step);
            t < |s'.tapes| && (Attended(cfg, s', t) || s'.tapes[t].state == Stopped)
  {
    TapeOnlyAdvances(cfg, s, step, t);
    if s.tapes[t].state != Stopped {
      FinishStaysDue(cfg, s, step, t);
    }
  }

  lemma {:induction false} AttendedStops(cfg: Config, s: State, steps: seq<Step>, t: nat)
    requires Safe(cfg, s) && Run(cfg, s, steps) && Quiet(After(cfg, s, steps)) && t < |s.tapes|
    requires Attended(cfg, s, t) || s.tapes[t].state == Stopped
    ensures var s' := After(cfg, s, steps);
            t < |s'.tapes| && s'.tapes[t].state == Stopped
    decreases |steps|
  {
    if steps == [] {
      RestIsClean(cfg, s);
    } else {
      StopsKeep(cfg, s, steps[0], t);
      StepKeepsSafe(cfg, s, steps[0]);
      AttendedStops(cfg, Apply(cfg, s, steps[0]), steps[1..], t);
    }
  }

  /** The consumer is about to stop tape t. */
  ghost predicate Stopping(s: State, t: nat) {
    t < |s.tapes| && s.consumer == Finishing(t) && s.tapes[t].shouldStop && s.tapes[t].state != Stopped
  }

  ghost predicate IsStopped(s: State, t: nat) {
    t < |s.tapes| && s.tapes[t].state == Stopped
  }

  /** Only the end of Write stops a tape, and only one whose request is attended. */
  lemma {:induction false} StoppedByEndWrite(cfg: Config, s: State, step: Step, t: nat)
    requires Safe(cfg, s) && Enabled(s, step) && !IsStopped(s, t)
    ensures IsStopped(Apply(cfg, s, step), t) <==> step == EndWrite && Stopping(s, t)
    ensures Stopping(s, t) ==> Attended(cfg, s, t)
  {
    if t < |s.tapes| {
      assert Inv(cfg, s.tapes[t]) && ModeOkAt(cfg, s, t);
    }
  }

  lemma {:induction false} StoppedIffHeard(cfg: Config, s: State, steps: seq<Step>, t: nat)
    requires Safe(cfg, s) && Run(cfg, s, steps) && Quiet(After(cfg, s, steps)) && !IsStopped(s, t)
    ensures IsStopped(After(cfg, s, steps), t) <==> Heard(cfg, s, steps, t)
    decreases |steps|
  {
    if Attended(cfg, s, t) {
      AttendedStops(cfg, s, steps, t);
    } else if steps != [] {
      StoppedByEndWrite(cfg, s, steps[0], t);
      StepKeepsSafe(cfg, s, steps[0]);
      StoppedIffHeard(cfg, Apply(cfg, s, steps[0]), steps[1..], t);
    }
  }

  /** A stop event is heard at once unless the party filter rejects the tape. */
  lemma {:induction false} StopEventHeardIff(cfg: Config, s: State, p: nat, t: nat)
    requires Enabled(s, StopEvent(p, t))
    ensures Attended(cfg, Apply(cfg, s, StopEvent(p, t)), t) <==> !Rejected(cfg, s.tapes[t])
  {
    InUpdate(s.producers, p, MustPush(t));
  }

  /** A forced stop, which pushes nothing, is heard at once exactly if the filter does not reject the
      tape and somebody is on the way to the end of its Write already. */
  lemma {:induction false} ForcedStopHeardIff(cfg: Config, s: State, t: nat)
    requires Enabled(s, ForceStop(t))
    ensures Attended(cfg, Apply(cfg, s, ForceStop(t)), t) <==> !Rejected(cfg, s.tapes[t]) && WillFinish(s, t)
  {
  }

  // ---------- Which chunks a stopped tape keeps ----------

  /** A capture thread has been let in to tape t by the unlocked test and has not appended yet. */
  ghost predicate AdmittedTo(s: State, t: nat) {
    exists p :: 0 <= p < |s.producers| && s.producers[p].Admitted? && s.producers[p].tape == t
  }

  predicate AppendsTo(s: State, step: Step, t: nat) {
    step.AppendChunk? && step.p < |s.producers| && s.producers[step.p].Admitted? && s.producers[step.p].tape == t
  }

  /** Threads come to be admitted by an accepted offer only and cease to be by appending only. */
  lemma {:induction false} AdmittedStep(cfg: Config, s: State, step: Step, t: nat)
    requires Enabled(s, step)
    ensures AdmittedTo(Apply(cfg, s, step), t) ==>
              AdmittedTo(s, t) || (step.Offer? && step.t == t && Accepting(s.tapes[t]))
    ensures AdmittedTo(s, t) ==> AdmittedTo(Apply(cfg, s, step), t) || AppendsTo(s, step, t)
  {
    var s' := Apply(cfg, s, step);
    if AdmittedTo(s, t) && !AppendsTo(s, step, t) {
      var p :| 0 <= p < |s.producers| && s.producers[p].Admitted? && s.producers[p].tape == t;
      assert s'.producers[p] == s.producers[p];
    }
  }

  /** Nobody takes chunks off a stopped tape; a chunk appended to its empty queue stays unless there
      is no room at all. */
  lemma {:induction false} StoppedQueueOnce(cfg: Config, s: State, step: Step, t: nat)
    requires Enabled(s, step) && IsStopped(s, t) && ModeOkAt(cfg, s, t) && Inv(cfg, s.tapes[t])
    ensures var q, q' := s.tapes[t].queue.chunks, Apply(cfg, s, step).tapes[t].queue.chunks;
            && q <= q' && (!AppendsTo(s, step, t) ==> q' == q)
            && (AppendsTo(s, step, t) && q == [] ==> (q' != [] <==> cfg.batchSizeKByte > 0))
  {
  }

  /** Chunks in the queue, or on their way into it past the test. */
  ghost predicate WillHold(cfg: Config, s: State, t: nat)
    requires t < |s.tapes|
  {
    s.tapes[t].queue.chunks != [] || (cfg.batchSizeKByte > 0 && AdmittedTo(s, t))
  }

  lemma {:induction false} StoppedQueueStep(cfg: Config, s: State, step: Step, t: nat)
    requires Safe(cfg, s) && Enabled(s, step) && IsStopped(s, t)
    ensures var s' := Apply(cfg, s, step);
            && IsStopped(s', t) && s.tapes[t].queue.chunks <= s'.tapes[t].queue.chunks
            && (WillHold(cfg, s', t) <==> WillHold(cfg, s, t))
  {
    TapeOnlyAdvances(cfg, s, step, t);
    assert ModeOkAt(cfg, s, t) && Inv(cfg, s.tapes[t]);
    StoppedQueueOnce(cfg, s, step, t);
    AdmittedStep(cfg, s, step, t);
    assert AppendsTo(s, step, t) ==> AdmittedTo(s, t);
  }

  /** Stopping t now leaves chunks behind: some came after the last empty look, or will still come. */
  ghost predicate StopLoses(cfg: Config, s: State, t: nat) {
    Stopping(s, t) && WillHold(cfg, s, t)
  }

  /** Somewhere in the run the end of Write stops t and thereby leaves chunks behind. */
  ghost predicate LostAtStop(cfg: Config, s: State, steps: seq<Step>, t: nat)
    requires Run(cfg, s, steps)
    decreases |steps|
  {
    steps != [] &&
      ((steps[0] == EndWrite && StopLoses(cfg, s, t)) || LostAtStop(cfg, Apply(cfg, s, steps[0]), steps[1..], t))
  }

  lemma {:induction false} NeverStoppedTwice(cfg: Config, s: State, steps: seq<Step>, t: nat)
    requires Run(cfg, s, steps) && IsStopped(s, t)
    ensures !LostAtStop(cfg, s, steps, t)
    decreases |steps|
  {
    if steps != [] {
      TapeOnlyAdvances(cfg, s, steps[0], t);
      NeverStoppedTwice(cfg, Apply(cfg, s, steps[0]), steps[1..], t);
    }
  }

  /** A stopped tape at rest still has all it had, and has chunks exactly if it had some or a thread
      was still admitted. */
  lemma {:induction false} StoppedQueue(cfg: Config, s: State, steps: seq<Step>, t: nat)
    requires Safe(cfg, s) && Run(cfg, s, steps) && Quiet(After(cfg, s, steps)) && IsStopped(s, t)
    ensures var s' := After(cfg, s, steps);
            && IsStopped(s', t) && s.tapes[t].queue.chunks <= s'.tapes[t].queue.chunks
            && (s'.tapes[t].queue.chunks != [] <==> WillHold(cfg, s, t))
    decreases |steps|
  {
    if steps != [] {
      StoppedQueueStep(cfg, s, steps[0], t);
      StepKeepsSafe(cfg, s, steps[0]);
      StoppedQueue(cfg, Apply(cfg, s, steps[0]), steps[1..], t);
    }
  }

  lemma {:induction false} HoldsIffLost(cfg: Config, s: State, steps: seq<Step>, t: nat)
    requires Safe(cfg, s) && Run(cfg, s, steps) && Quiet(After(cfg, s, steps)) && !IsStopped(s, t)
    requires t < |After(cfg, s, steps).tapes|
    ensures After(cfg, s, steps).tapes[t].queue.chunks != [] <==> LostAtStop(cfg, s, steps, t)
    decreases |steps|
  {
    if steps == [] {
      RestIsClean(cfg, s);
    } else {
      var s1 := Apply(cfg, s, steps[0]);
      StoppedByEndWrite(cfg, s, steps[0], t);
      StepKeepsSafe(cfg, s, steps[0]);
      if IsStopped(s1, t) {
        StoppedQueue(cfg, s1, steps[1..], t);
        NeverStoppedTwice(cfg, s1, steps[1..], t);
      } else {
        HoldsIffLost(cfg, s1, steps[1..], t);
      }
    }
  }

  /** The main theorem, over every run from the start that has come to rest: no tape is queued; a
      tape is stopped exactly if its stop request was attended at some moment; and a tape still holds
      chunks exactly if the end of Write that stopped it found its queue not empty or a thread still
      admitted to it. */
  lemma {:induction false} NothingLeftBehind(cfg: Config, threads: nat, steps: seq<Step>)
    requires Run(cfg, Init(threads), steps) && Quiet(After(cfg, Init(threads), steps))
    ensures var s := After(cfg, Init(threads), steps);
            && s.deque == []
            && (forall t :: 0 <= t < |s.tapes| ==> !s.tapes[t].isQueued)
            && (forall t :: 0 <= t < |s.tapes| ==>
                  (s.tapes[t].state == Stopped <==> Heard(cfg, Init(threads), steps, t)))
            && (forall t :: 0 <= t < |s.tapes| ==>
                  (s.tapes[t].queue.chunks != [] <==> LostAtStop(cfg, Init(threads), steps, t)))
  {
    var s0 := Init(threads);
    var s := After(cfg, s0, steps);
    SafeAlong(cfg, s0, steps);
    RestIsClean(cfg, s);
    forall t | 0 <= t < |s.tapes|
      ensures s.tapes[t].state == Stopped <==> Heard(cfg, s0, steps, t)
      ensures s.tapes[t].queue.chunks != [] <==> LostAtStop(cfg, s0, steps, t)
    {
      StoppedIffHeard(cfg, s0, steps, t);
      HoldsIffLost(cfg, s0, steps, t);
    }
  }

  /** No chunk offered to t from here on gets past the unlocked test. */
  ghost predicate NoneAdmitted(cfg: Config, s: State, steps: seq<Step>, t: nat)
    requires Run(cfg, s, steps)
    decreases |steps|
  {
    steps != [] ==>
      && (steps[0].Offer? && steps[0].t == t ==> !Accepting(s.tapes[t]))
      && NoneAdmitted(cfg, Apply(cfg, s, steps[0]), steps[1..], t)
  }

  /** Nobody is between the test and the append, and the consumer is not past its last empty look
      unless the queue is empty. */
  ghost predicate CalmAt(s: State, t: nat)
    requires t < |s.tapes|
  {
    !AdmittedTo(s, t) && (s.consumer == Finishing(t) || s.tapes[t].state == Stopped ==> s.tapes[t].queue.chunks == [])
  }

  lemma {:induction false} CalmStep(cfg: Config, s: State, step: Step, t: nat)
    requires Safe(cfg, s) && Enabled(s, step) && t < |s.tapes| && CalmAt(s, t)
    requires step.Offer? && step.t == t ==> !Accepting(s.tapes[t])
    ensures t < |Apply(cfg, s, step).tapes| && CalmAt(Apply(cfg, s, step), t)
  {
    assert ModeOkAt(cfg, s, t) && Inv(cfg, s.tapes[t]);
    AdmittedStep(cfg, s, step, t);
    assert AppendsTo(s, step, t) ==> AdmittedTo(s, t);
    CalmQueueOnce(cfg, s, step, t);
  }

  lemma {:induction false} CalmQueueOnce(cfg: Config, s: State, step: Step, t: nat)
    requires Enabled(s, step) && t < |s.tapes| && ModeOkAt(cfg, s, t) && Inv(cfg, s.tapes[t]) && !AppendsTo(s, step, t)
    requires s.consumer == Finishing(t) || s.tapes[t].state == Stopped ==> s.tapes[t].queue.chunks == []
    ensures var s' := Apply(cfg, s, step);
            && t < |s'.tapes|
            && (s'.consumer == Finishing(t) || s'.tapes[t].state == Stopped ==> s'.tapes[t].queue.chunks == [])
  {
  }

  /** What a caller can rely on: if no thread is between test and append when no further chunk will be
      let in, and the consumer is not just finishing the tape, then nothing is left in it. */
  lemma {:induction false} CalmStopLosesNothing(cfg: Config, s: State, steps: seq<Step>, t: nat)
    requires Safe(cfg, s) && Run(cfg, s, steps) && Quiet(After(cfg, s, steps))
    requires t < |s.tapes| && CalmAt(s, t) && NoneAdmitted(cfg, s, steps, t)
    ensures var s' := After(cfg, s, steps);
            t < |s'.tapes| && s'.tapes[t].queue.chunks == []
    decreases |steps|
  {
    if steps == [] {
      RestIsClean(cfg, s);
    } else {
      CalmStep(cfg, s, steps[0], t);
      StepKeepsSafe(cfg, s, steps[0]);
      CalmStopLosesNothing(cfg, Apply(cfg, s, steps[0]), steps[1..], t);
    }
  }

  // ---------- Work in flight runs out ----------

  function ProducerWeight(p: Producer): nat {
    match p
    case Idle => 0
    case Admitted(_, _) => 10
    case MustPush(_) => 8
    case InPush(_) => 7
  }

  function ConsumerWeight(c: Consumer): nat {
    match c
    case Blocked => 0
    case Checking(_) => 1
    case Finishing(_) => 2
    case Discarding(_) => 3
    case Writing(_) => 3
    case Popped(_) => 4
    case HasPermit => 5
  }

  function ProducersWeight(ps: seq<Producer>): nat {
    if ps == [] then 0 else ProducerWeight(ps[0]) + ProducersWeight(ps[1..])
  }

  function QueuedChunks(ts: seq<Tape>): nat {
    if ts == [] then 0 else |ts[0].queue.chunks| + QueuedChunks(ts[1..])
  }

  function Work(s: State): nat {
    ProducersWeight(s.producers) + 6 * s.permits + ConsumerWeight(s.consumer) + QueuedChunks(s.tapes)
  }

  lemma {:induction false} ProducersWeightUpdate(ps: seq<Producer>, p: nat, x: Producer)
    requires p < |ps|
    ensures ProducersWeight(ps[p := x]) == ProducersWeight(ps) - ProducerWeight(ps[p]) + ProducerWeight(x)
  {
    if p > 0 {
      assert ps[p := x][1..] == ps[1..][p - 1 := x];
      ProducersWeightUpdate(ps[1..], p - 1, x);
    } else {
      assert ps[0 := x][1..] == ps[1..];
    }
  }

  lemma {:induction false} QueuedChunksUpdate(ts: seq<Tape>, t: nat, x: Tape)
    requires t < |ts|
    ensures QueuedChunks(ts[t := x]) == QueuedChunks(ts) - |ts[t].queue.chunks| + |x.queue.chunks|
  {
    if t > 0 {
      assert ts[t := x][1..] == ts[1..][t - 1 := x];
      QueuedChunksUpdate(ts[1..], t - 1, x);
    } else {
      assert ts[0 := x][1..] == ts[1..];
    }
  }

  lemma {:induction false} ProducerWorkDecreases(cfg: Config, s: State, step: Step)
    requires Typed(s) && Enabled(s, step) && (step.AppendChunk? || step.Enqueue? || step.Release?)
    ensures Work(Apply(cfg, s, step)) < Work(s)
  {
    var s' := Apply(cfg, s, step);
    ProducersWeightUpdate(s.producers, step.p, s'.producers[step.p]);
    if !step.Release? {
      var t := s.producers[step.p].tape;
      QueuedChunksUpdate(s.tapes, t, s'.tapes[t]);
    }
  }

  lemma {:induction false} ConsumerWorkDecreases(cfg: Config, s: State, step: Step)
    requires Typed(s) && Enabled(s, step) && (step.BeginWrite? || step.Drain? || step.EndWrite? || step.CheckBatch?)
    ensures Work(Apply(cfg, s, step)) < Work(s)
  {
    var s', t := Apply(cfg, s, step), s.consumer.tape;
    QueuedChunksUpdate(s.tapes, t, s'.tapes[t]);
    assert s'.tapes == s.tapes[t := s'.tapes[t]];
  }

  /** Every internal step, including a pop that finds nothing, uses up work. */
  lemma {:induction false} WorkDecreases(cfg: Config, s: State, step: Step)
    requires Typed(s) && Enabled(s, step) && Internal(step)
    ensures Work(Apply(cfg, s, step)) < Work(s)
  {
    if step.AppendChunk? || step.Enqueue? || step.Release? {
      ProducerWorkDecreases(cfg, s, step);
    } else if step.Pop? {
      if s.deque != [] { QueuedChunksUpdate(s.tapes, s.deque[0], s.tapes[s.deque[0]].(isQueued := false)); }
    } else if !step.Acquire? {
      ConsumerWorkDecreases(cfg, s, step);
    }
  }

  /** No deadlock: unless everything has come to rest some internal step can be taken. */
  lemma {:induction false} SomethingCanMove(cfg: Config, s: State)
    requires Safe(cfg, s) && !Quiet(s)
    ensures exists step :: Internal(step) && Enabled(s, step)
  {
    if s.mutexHeld {
      var p :| 0 <= p < |s.producers| && s.producers[p].InPush?;
      assert Enabled(s, Release(p));
    } else if p :| 0 <= p < |s.producers| && s.producers[p] != Idle {
      assert !s.producers[p].InPush?;
      assert Enabled(s, if s.producers[p].Admitted? then AppendChunk(p) else Enqueue(p));
    } else {
      var step := match s.consumer
        case Blocked => Acquire
        case HasPermit => Pop
        case Popped(_) => BeginWrite
        case Discarding(_) => Drain(true)
        case Writing(_) => Drain(true)
        case Finishing(_) => EndWrite
        case Checking(_) => CheckBatch;
      assert Enabled(s, step);
    }
  }

  ghost predicate InternalRun(steps: seq<Step>) {
    forall i :: 0 <= i < |steps| ==> Internal(steps[i])
  }

  /** However the begun work is scheduled, it is over after at most Work(s) steps. */
  lemma {:induction false} InternalRunsEnd(cfg: Config, s: State, steps: seq<Step>)
    requires Safe(cfg, s) && Run(cfg, s, steps) && InternalRun(steps)
    ensures |steps| + Work(After(cfg, s, steps)) <= Work(s)
    decreases |steps|
  {
    if steps != [] {
      assert Internal(steps[0]);
      WorkDecreases(cfg, s, steps[0]);
      StepKeepsSafe(cfg, s, steps[0]);
      assert forall i :: 0 <= i < |steps| - 1 ==> steps[1..][i] == steps[i + 1];
      InternalRunsEnd(cfg, Apply(cfg, s, steps[0]), steps[1..]);
    }
  }

  /** From every reachable state the begun work can be finished, and the state it ends in is at rest. */
  lemma {:induction false} ComesToRest(cfg: Config, s: State) returns (steps: seq<Step>)
    requires Safe(cfg, s)
    ensures Run(cfg, s, steps) && InternalRun(steps) && Quiet(After(cfg, s, steps))
    decreases Work(s)
  {
    if Quiet(s) {
      steps := [];
    } else {
      SomethingCanMove(cfg, s);
      var step :| Internal(step) && Enabled(s, step);
      WorkDecreases(cfg, s, step);
      StepKeepsSafe(cfg, s, step);
      var rest := ComesToRest(cfg, Apply(cfg, s, step));
      steps := [step] + rest;
      assert steps[1..] == rest;
    }
  }

  // ---------- Runs that show the limits ----------

  lemma {:induction false} RunSnoc(cfg: Config, s: State, steps: seq<Step>, step: Step)
    requires Run(cfg, s, steps) && Enabled(After(cfg, s, steps), step)
    ensures Run(cfg, s, steps + [step])
    ensures After(cfg, s, steps + [step]) == Apply(cfg, After(cfg, s, steps), step)
    decreases |steps|
  {
    if steps == [] {
      assert [step][1..] == [];
      assert [] + [step] == [step];
    } else {
      assert (steps + [step])[1..] == steps[1..] + [step];
      RunSnoc(cfg, Apply(cfg, s, steps[0]), steps[1..], step);
    }
  }

  lemma {:induction false} ReachNext(cfg: Config, s: State, step: Step)
    requires Reachable(cfg, s) && Enabled(s, step)
    ensures Reachable(cfg, Apply(cfg, s, step))
  {
    var threads: nat, steps :| Run(cfg, Init(threads), steps) && After(cfg, Init(threads), steps) == s;
    RunSnoc(cfg, Init(threads), steps, step);
  }

  /** SetShouldStop without a Push (the forced stop of the previous tape) is not heard on a tape nobody
      is about to write. */
  lemma {:induction false} ForcedStopAloneNeverStops(cfg: Config) returns (s: State)
    ensures Reachable(cfg, s) && Quiet(s)
    ensures |s.tapes| == 1 && s.tapes[0].shouldStop && s.tapes[0].state == Created
  {
    s := Init(0);
    assert Run(cfg, s, []) && After(cfg, s, []) == s;
    ReachNext(cfg, s, CreateTape);
    s := Apply(cfg, s, CreateTape);
    ReachNext(cfg, s, ForceStop(0));
    s := Apply(cfg, s, ForceStop(0));
  }

  lemma {:induction false} Follow(cfg: Config, s: State, step: Step) returns (s': State)
    requires Reachable(cfg, s) && Enabled(s, step)
    ensures Reachable(cfg, s') && s' == Apply(cfg, s, step)
  {
    ReachNext(cfg, s, step);
    s' := Apply(cfg, s, step);
  }

  lemma {:induction false} StopOvertakesOffer(cfg: Config, c: AudioChunk) returns (s: State)
    requires !cfg.partyFilterActive
    ensures Reachable(cfg, s) && s.producers == [Admitted(0, c), InPush(0)] && s.mutexHeld
    ensures s.tapes == [NEW_TAPE.(shouldStop := true, isQueued := true)] && s.deque == [0]
    ensures s.permits == 0 && s.consumer == Blocked
  {
    s := Init(2);
    assert Run(cfg, s, []) && After(cfg, s, []) == s;
    s := Follow(cfg, s, CreateTape);
    s := Follow(cfg, s, Offer(0, 0, c));
    s := Follow(cfg, s, StopEvent(1, 0));
    s := Follow(cfg, s, Enqueue(1));
  }

  lemma {:induction false} StoppedTapeIsPopped(cfg: Config, c: AudioChunk) returns (s: State)
    requires !cfg.partyFilterActive
    ensures Reachable(cfg, s) && s.producers == [Admitted(0, c), Idle]
    ensures s.tapes == [NEW_TAPE.(shouldStop := true)] && s.consumer == Consumer.Popped(0)
  {
    s := StopOvertakesOffer(cfg, c);
    s := Follow(cfg, s, Release(1));
    s := Follow(cfg, s, Acquire);
    s := Follow(cfg, s, Pop);
  }

  lemma {:induction false} WriteSeesEmpty(cfg: Config, c: AudioChunk) returns (s: State)
    requires !cfg.partyFilterActive
    ensures Reachable(cfg, s) && s.producers == [Admitted(0, c), Idle]
    ensures s.tapes == [NEW_TAPE.(shouldStop := true)] && s.consumer == Finishing(0)
  {
    s := StoppedTapeIsPopped(cfg, c);
    s := Follow(cfg, s, BeginWrite);
    s := Follow(cfg, s, Drain(true));
  }

  /** A chunk admitted before the stop and appended between Write's last empty look and its end stays
      behind in the stopped tape. */
  lemma {:induction false} LateChunkStaysBehind(cfg: Config, c: AudioChunk) returns (s: State)
    requires cfg.batchSizeKByte > 0 && !cfg.partyFilterActive
    ensures Reachable(cfg, s) && |s.tapes| == 1
    ensures s.tapes[0].state == Stopped && s.tapes[0].queue.chunks == [c] && s.tapes[0].media.file == []
  {
    s := WriteSeesEmpty(cfg, c);
    s := Follow(cfg, s, AppendChunk(0));
    s := Follow(cfg, s, EndWrite);
  }

  lemma {:induction false} OneChunkPushed(cfg: Config, c: AudioChunk) returns (s: State)
    requires cfg.batchSizeKByte > 0 && !cfg.partyFilterActive
    ensures Reachable(cfg, s) && s.producers == [Idle] && s.consumer == Blocked && s.permits == 1 && !s.mutexHeld
    ensures s.deque == [0] && |s.tapes| == 1 && s.tapes[0].queue.chunks == [c]
    ensures s.tapes[0].state == Created && !s.tapes[0].shouldStop
  {
    s := Init(1);
    assert Run(cfg, s, []) && After(cfg, s, []) == s;
    s := Follow(cfg, s, CreateTape);
    s := Follow(cfg, s, Offer(0, 0, c));
    s := Follow(cfg, s, AppendChunk(0));
    s := Follow(cfg, s, Enqueue(0));
    s := Follow(cfg, s, Release(0));
  }

  lemma {:induction false} OneChunkDrained(cfg: Config, c: AudioChunk) returns (s: State)
    requires cfg.batchSizeKByte > 0 && !cfg.partyFilterActive
    ensures Reachable(cfg, s) && s.producers == [Idle] && s.consumer == Finishing(0) && !s.mutexHeld
    ensures |s.tapes| == 1 && s.tapes[0].queue.chunks == [] && s.tapes[0].state == Active && !s.tapes[0].shouldStop
  {
    s := OneChunkPushed(cfg, c);
    s := Follow(cfg, s, Acquire);
    s := Follow(cfg, s, Pop);
    s := Follow(cfg, s, BeginWrite);
    s := Follow(cfg, s, Drain(true));
    s := Follow(cfg, s, Drain(true));
  }

  lemma {:induction false} ChunkAfterLastLook(cfg: Config, c: AudioChunk, d: AudioChunk) returns (s: State)
    requires cfg.batchSizeKByte > 0 && !cfg.partyFilterActive
    ensures Reachable(cfg, s) && s.producers == [MustPush(0)] && s.consumer == Finishing(0) && !s.mutexHeld
    ensures |s.tapes| == 1 && s.tapes[0].queue.chunks == [d] && s.tapes[0].state == Active
  {
    s := OneChunkDrained(cfg, c);
    AlwaysSafe(cfg, s);
    assert Inv(cfg, s.tapes[0]);
    s := Follow(cfg, s, Offer(0, 0, d));
    s := Follow(cfg, s, AppendChunk(0));
  }

  /** One capture thread is enough, and it need not be inside AddAudioChunk when it stops the tape: the
      chunk d is appended and pushed between Write's last empty look and its test of m_shouldStop, and
      so is the stop event; EndWrite then stops the tape over the chunk, which is there for good. */
  lemma {:induction false} AcceptedChunkStaysBehind(cfg: Config, c: AudioChunk, d: AudioChunk)
    returns (s: State, steps: seq<Step>)
    requires cfg.batchSizeKByte > 0 && !cfg.partyFilterActive
    ensures Reachable(cfg, s) && !AdmittedTo(s, 0) && |s.producers| == 1 && StopLoses(cfg, s, 0)
    ensures Run(cfg, s, [EndWrite] + steps) && Quiet(After(cfg, s, [EndWrite] + steps))
    ensures var s' := After(cfg, s, [EndWrite] + steps);
            |s'.tapes| > 0 && s'.tapes[0].state == Stopped && [d] <= s'.tapes[0].queue.chunks
  {
    s := ChunkAfterLastLook(cfg, c, d);
    s := Follow(cfg, s, Enqueue(0));
    s := Follow(cfg, s, Release(0));
    s := Follow(cfg, s, StopEvent(0, 0));
    steps := RestAfterStop(cfg, s);
  }

  /** From a state in which the end of Write is about to stop tape 0 over its chunks. */
  lemma {:induction false} RestAfterStop(cfg: Config, s: State) returns (steps: seq<Step>)
    requires Reachable(cfg, s) && Stopping(s, 0)
    ensures Run(cfg, s, [EndWrite] + steps) && Quiet(After(cfg, s, [EndWrite] + steps))
    ensures var s' := After(cfg, s, [EndWrite] + steps);
            |s'.tapes| > 0 && s'.tapes[0].state == Stopped && s.tapes[0].queue.chunks <= s'.tapes[0].queue.chunks
  {
    AlwaysSafe(cfg, s);
    var s1 := Apply(cfg, s, EndWrite);
    StepKeepsSafe(cfg, s, EndWrite);
    steps := ComesToRest(cfg, s1);
    StoppedQueue(cfg, s1, steps, 0);
    assert ([EndWrite] + steps)[1..] == steps;
  }
}
