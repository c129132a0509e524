/** ThreadSafeQueue (ThreadSafeQueue.h): a bounded queue with a semaphore, and its interleavings. */
module ThreadSafeQueues {
  import opened AudioChunks
  import opened ImmediateProcessing

  /** push under the mutex: the queue afterwards and whether the element was taken. */
  function Pushed<T>(queue: seq<T>, size: int, x: T): (seq<T>, bool) {
    if |queue| < UnsignedSize(size) then (queue + [x], true) else (queue, false)
  }

  /** The cast (unsigned int)m_size in the bound test. */
  function UnsignedSize(size: int): (n: nat)
    ensures 0 <= size < 0x1_0000_0000 ==> n == size
  {
    size % 0x1_0000_0000
  }

  class ThreadSafeQueue<T> {
    var size: int
    var queue: seq<T>
    const semaphore: OrkSemaphore

    constructor (size: int := 50000)
      ensures this.size == size && queue == [] && semaphore.count == 0 && fresh(semaphore)
    {
      this.size := size;
      queue := [];
      semaphore := new OrkSemaphore();
      new;
      semaphore.Acquire();
    }

    method Push(element: T) returns (result: bool)
      modifies this, semaphore
      ensures (queue, result) == Pushed(old(queue), size, element) && size == old(size)
      ensures semaphore.count == old(semaphore.count) + 1
    {
      result := false;
      if |queue| < UnsignedSize(size) {
        queue := queue + [element];
        result := true;
      }
      semaphore.Release();
    }

    /** None stands for the default-constructed element the original returns. */
    method Pop() returns (element: Option<T>)
      requires semaphore.count > 0
      modifies this, semaphore
      ensures old(queue) == [] ==> element == None && queue == []
      ensures old(queue) != [] ==> element == Some(old(queue)[0]) && queue == old(queue)[1..]
      ensures semaphore.count == old(semaphore.count) - 1 && size == old(size)
    {
      semaphore.Acquire();
      element := None;
      if |queue| > 0 {
        element := Some(queue[0]);
        queue := queue[1..];
      }
    }

    method SetSize(size: int)
      modifies this
      ensures this.size == size && queue == old(queue)
    {
      this.size := size;
    }
  }

  // ---------- Interleavings ----------

  /** Releasing: inside push with the mutex held, the semaphore not yet released.
      Granted: inside pop, past acquire, waiting for the mutex. */
  datatype Thread = Idle | Releasing | Granted

  /** `accepted`, `taken`, `rejected` and `empties` are history: the elements push took in and pop
      handed out, and the pushes and pops that found no room or no element. */
  datatype State<T> = State(
    threads: seq<Thread>,
    size: int,
    queue: seq<T>,
    permits: nat,
    mutexHeld: bool,
    accepted: seq<T>,
    taken: seq<T>,
    rejected: nat,
    empties: nat)

  datatype Step<T> =
    | PushLocked(i: nat, x: T)
    | Release(i: nat)
    | Acquire(i: nat)
    | PopLocked(i: nat)
    | Resize(size: int)

  ghost predicate Enabled<T>(s: State<T>, step: Step<T>) {
    match step
    case PushLocked(i, _) => i < |s.threads| && s.threads[i].Idle? && !s.mutexHeld
    case Release(i) => i < |s.threads| && s.threads[i].Releasing?
    case Acquire(i) => i < |s.threads| && s.threads[i].Idle? && s.permits > 0
    case PopLocked(i) => i < |s.threads| && s.threads[i].Granted? && !s.mutexHeld
    case Resize(_) => true
  }

  function Apply<T>(s: State<T>, step: Step<T>): State<T>
    requires Enabled(s, step)
  {
    match step
    case PushLocked(i, x) =>
      var (q, ok) := Pushed(s.queue, s.size, x);
      s.(threads := s.threads[i := Releasing], queue := q, mutexHeld := true,
         accepted := if ok then s.accepted + [x] else s.accepted,
         rejected := if ok then s.rejected else s.rejected + 1)
    case Release(i) =>
      s.(threads := s.threads[i := Idle], permits := s.permits + 1, mutexHeld := false)
    case Acquire(i) =>
      s.(threads := s.threads[i := Granted], permits := s.permits - 1)
    case PopLocked(i) =>
      if s.queue == [] then s.(threads := s.threads[i := Idle], empties := s.empties + 1)
      else s.(threads := s.threads[i := Idle], queue := s.queue[1..], taken := s.taken + [s.queue[0]])
    case Resize(n) => s.(size := n)
  }

  function Init<T>(threads: nat, size: int): State<T> {
    State(seq(threads, _ => Idle), size, [], 0, false, [], [], 0, 0)
  }

  ghost predicate Run<T>(s: State<T>, steps: seq<Step<T>>)
    decreases |steps|
  {
    steps == [] || (Enabled(s, steps[0]) && Run(Apply(s, steps[0]), steps[1..]))
  }

  ghost function After<T>(s: State<T>, steps: seq<Step<T>>): State<T>
    requires Run(s, steps)
    decreases |steps|
  {
    if steps == [] then s else After(Apply(s, steps[0]), steps[1..])
  }

  function Count(threads: seq<Thread>, what: Thread): nat {
    if threads == [] then 0 else (if threads[0] == what then 1 else 0) + Count(threads[1..], what)
  }

  lemma {:induction false} CountUpdate(threads: seq<Thread>, i: nat, x: Thread, what: Thread)
    requires i < |threads|
    ensures Count(threads[i := x], what)
         == Count(threads, what) - (if threads[i] == what then 1 else 0) + (if x == what then 1 else 0)
  {
    if i > 0 {
      assert threads[i := x][1..] == threads[1..][i - 1 := x];
      CountUpdate(threads[1..], i - 1, x, what);
    } else {
      assert threads[0 := x][1..] == threads[1..];
    }
  }

  lemma {:induction false} CountNone(n: nat, what: Thread)
    requires what != Idle
    ensures Count(seq(n, _ => Idle), what) == 0
  {
    if n > 0 {
      assert seq(n, _ => Idle)[1..] == seq(n - 1, _ => Idle);
      CountNone(n - 1, what);
    }
  }

  /** The books: permits, poppers past acquire and an unreleased pusher account exactly for the
      queued elements plus the rejected pushes no empty pop has answered yet; what was taken and
      what is queued are the accepted elements in order. */
  ghost predicate Inv<T(!new)>(s: State<T>) {
    && s.permits + Count(s.threads, Granted) + Count(s.threads, Releasing) == |s.queue| + s.rejected - s.empties
    && Count(s.threads, Releasing) == (if s.mutexHeld then 1 else 0)
    && s.empties <= s.rejected
    && s.taken + s.queue == s.accepted
  }

  lemma {:induction false} CountPositive(threads: seq<Thread>, i: nat)
    requires i < |threads|
    ensures Count(threads, threads[i]) > 0
  {
    if i > 0 { CountPositive(threads[1..], i - 1); }
  }

  lemma {:induction false} StepKeeps<T(!new)>(s: State<T>, step: Step<T>)
    requires Inv(s) && Enabled(s, step)
    ensures Inv(Apply(s, step))
  {
    if !step.Resize? {
      CountPositive(s.threads, step.i);
      CountUpdate(s.threads, step.i, Apply(s, step).threads[step.i], Granted);
      CountUpdate(s.threads, step.i, Apply(s, step).threads[step.i], Releasing);
    }
    match step
    case PushLocked(i, x) => assert s.taken + (s.queue + [x]) == s.accepted + [x];
    case PopLocked(i) =>
      if s.queue != [] {
        assert s.taken + s.queue == (s.taken + [s.queue[0]]) + s.queue[1..];
      }
    case _ =>
  }

  lemma {:induction false} InvAlong<T(!new)>(s: State<T>, steps: seq<Step<T>>)
    requires Inv(s) && Run(s, steps)
    ensures Inv(After(s, steps))
    decreases |steps|
  {
    if steps != [] {
      StepKeeps(s, steps[0]);
      InvAlong(Apply(s, steps[0]), steps[1..]);
    }
  }

  /** In every run of concurrent pushes, pops and resizes: no element is left without a permit, a
      popper on its way or a pusher about to release; pops hand out a prefix of what was accepted, in
      order; and empty pops never outnumber rejected pushes. */
  lemma {:induction false} EveryRun<T(!new)>(threads: nat, size: int, steps: seq<Step<T>>)
    requires Run(Init<T>(threads, size), steps)
    ensures var s := After(Init<T>(threads, size), steps);
            && s.permits + Count(s.threads, Granted) + (if s.mutexHeld then 1 else 0) >= |s.queue|
            && s.taken <= s.accepted && s.queue == s.accepted[|s.taken|..]
            && s.empties <= s.rejected
  {
    CountNone(threads, Granted);
    CountNone(threads, Releasing);
    InvAlong(Init<T>(threads, size), steps);
  }

  /** When nobody is inside push or pop and the semaphore is exhausted, the queue is empty and every
      rejected push has cost exactly one empty pop. */
  lemma {:induction false} AtRest<T(!new)>(threads: nat, size: int, steps: seq<Step<T>>)
    requires Run(Init<T>(threads, size), steps)
    requires var s := After(Init<T>(threads, size), steps);
             s.permits == 0 && forall i :: 0 <= i < |s.threads| ==> s.threads[i] == Idle
    ensures var s := After(Init<T>(threads, size), steps);
            s.queue == [] && s.taken == s.accepted && s.empties == s.rejected
  {
    EveryRun(threads, size, steps);
    CountNone(threads, Granted);
    CountNone(threads, Releasing);
    InvAlong(Init<T>(threads, size), steps);
    var s := After(Init<T>(threads, size), steps);
    var n := |s.threads|;
    assert s.threads == seq(n, _ => Idle);
    CountNone(n, Granted);
    CountNone(n, Releasing);
  }

  /** The bound a size stands for: it is compared as an unsigned int. */
  function Places(size: int): int {
    if size < 0 then size + 0x1_0000_0000 else size
  }

  /** A push is taken if and only if there is a place free when it has the mutex; the queue it finds is
      what is accepted and not yet taken. */
  lemma {:induction false} TakenIff<T(!new)>(s: State<T>, i: nat, x: T)
    requires Inv(s) && Enabled(s, PushLocked(i, x)) && -0x8000_0000 <= s.size < 0x8000_0000
    ensures var s' := Apply(s, PushLocked(i, x));
            if |s.accepted| - |s.taken| < Places(s.size)
            then s'.accepted == s.accepted + [x] && s'.rejected == s.rejected
            else s'.accepted == s.accepted && s'.rejected == s.rejected + 1
  {
  }

  ghost predicate NoResize<T>(steps: seq<Step<T>>) {
    forall i :: 0 <= i < |steps| ==> !steps[i].Resize?
  }

  /** In every run of pushes and pops the queue holds no more than its places. */
  lemma {:induction false} BoundHolds<T(!new)>(s: State<T>, steps: seq<Step<T>>)
    requires Run(s, steps) && NoResize(steps) && -0x8000_0000 <= s.size < 0x8000_0000 && |s.queue| <= Places(s.size)
    ensures After(s, steps).size == s.size && |After(s, steps).queue| <= Places(s.size)
    decreases |steps|
  {
    if steps != [] {
      assert forall i :: 0 <= i < |steps| - 1 ==> steps[1..][i] == steps[i + 1];
      BoundHolds(Apply(s, steps[0]), steps[1..]);
    }
  }
}
