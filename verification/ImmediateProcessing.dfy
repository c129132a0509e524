/** OrkSemaphore (Utils.h) and the queue object of ImmediateProcessing.cpp. */
module ImmediateProcessing {
  import opened AudioChunks
  import opened AudioTapes
  import HandOff

  class OrkSemaphore {
    var count: nat

    constructor (count: nat := 1)
      ensures this.count == count
    {
      this.count := count;
    }

    method Release()
      modifies this
      ensures count == old(count) + 1
    {
      count := count + 1;
    }

    /** The wait itself is the precondition: a caller gets here once the count is positive. */
    method Acquire()
      requires count > 0
      modifies this
      ensures count == old(count) - 1
    {
      count := count - 1;
    }
  }

  class ImmediateProcessing {
    var audioTapeQueue: seq<AudioTape>
    const semaphore: OrkSemaphore

    /** Every tape is in the queue at most once, and exactly the tapes of `known` that are in it
        carry m_isQueued. */
    ghost predicate Valid(known: set<AudioTape>)
      reads this, known
    {
      && (forall i :: 0 <= i < |audioTapeQueue| ==> audioTapeQueue[i] in known)
      && (forall i, j :: 0 <= i < j < |audioTapeQueue| ==> audioTapeQueue[i] != audioTapeQueue[j])
      && (forall t :: t in known ==> (t.isQueued <==> t in audioTapeQueue))
    }

    constructor ()
      ensures audioTapeQueue == [] && semaphore.count == 0 && fresh(semaphore)
    {
      audioTapeQueue := [];
      semaphore := new OrkSemaphore();
      new;
      semaphore.Acquire();
    }

    /** Queues the tape unless it is queued already, and releases the semaphore either way. A null
        tape is ignored and releases nothing. */
    method Push(audioTape: AudioTape?, ghost known: set<AudioTape>)
      requires Valid(known) && (audioTape != null ==> audioTape in known)
      modifies this, semaphore, audioTape
      ensures Valid(known)
      ensures audioTape == null ==> audioTapeQueue == old(audioTapeQueue) && semaphore.count == old(semaphore.count)
      ensures audioTape != null ==>
                && audioTapeQueue == HandOff.PushQueue(old(audioTapeQueue), old(audioTape.isQueued), audioTape)
                && audioTape.View() == old(audioTape.View()).(isQueued := true)
                && semaphore.count == old(semaphore.count) + 1
    {
      if audioTape == null {
        return;
      }
      if audioTape.isQueued == false {
        audioTape.isQueued := true;
        audioTapeQueue := audioTapeQueue + [audioTape];
      }
      semaphore.Release();
    }

    /** Takes the oldest tape; null when a permit was released for a tape queued already. */
    method Pop(ghost known: set<AudioTape>) returns (audioTape: AudioTape?)
      requires Valid(known) && semaphore.count > 0
      modifies this, semaphore, audioTapeQueue
      ensures Valid(known) && semaphore.count == old(semaphore.count) - 1
      ensures old(audioTapeQueue) == [] ==> audioTape == null && audioTapeQueue == []
      ensures old(audioTapeQueue) != [] ==>
                && audioTape == old(audioTapeQueue[0]) && audioTapeQueue == old(audioTapeQueue)[1..]
                && audioTape.View() == old(audioTapeQueue[0].View()).(isQueued := false)
      ensures forall t :: t in known && t != audioTape ==> t.View() == old(t.View())
    {
      semaphore.Acquire();
      audioTape := null;
      if |audioTapeQueue| != 0 {
        audioTape := audioTapeQueue[0];
        audioTapeQueue := audioTapeQueue[1..];
        audioTape.isQueued := false;
      }
    }

    /** One round of ThreadHandler: the popped tape, if any, is written and asked whether it goes to
        batch processing. */
    method HandleOne(ghost known: set<AudioTape>, outcome: nat -> bool) returns (audioTape: AudioTape?, batch: bool)
      requires Valid(known) && semaphore.count > 0
      modifies this, semaphore, audioTapeQueue
      ensures Valid(known)
      ensures audioTape == if old(audioTapeQueue) == [] then null else old(audioTapeQueue[0])
      ensures audioTape != null ==>
                var t := WriteResult(audioTape.cfg, old(audioTapeQueue[0].View()).(isQueued := false), outcome);
                batch == t.ready && audioTape.View() == CheckReady(t)
    {
      batch := false;
      audioTape := Pop(known);
      if audioTape != null {
        ghost var before := audioTape.View();
        audioTape.Write(outcome);
        WriteKeepsFlag(audioTape.cfg, before, outcome);
        batch := audioTape.IsReadyForBatchProcessing();
      }
    }
  }

  lemma {:induction false} WriteAllKeepsFlag(cfg: Config, t: Tape, outcome: nat -> bool)
    ensures WriteAll(cfg, t, outcome).isQueued == t.isQueued
    decreases |t.queue.chunks|
  {
    if LoopGoesOn(t) && t.queue.chunks != [] {
      WriteAllKeepsFlag(cfg, WriteOne(cfg, t, outcome(t.queue.popCount)), outcome);
    }
  }

  /** Write has no say in whether the tape is queued. */
  lemma {:induction false} WriteKeepsFlag(cfg: Config, t: Tape, outcome: nat -> bool)
    ensures WriteResult(cfg, t, outcome).isQueued == t.isQueued
  {
    WriteAllKeepsFlag(cfg, t, outcome);
  }
}
