/** The pool object.  Each method is one atomic step of NewGoroutinePool, Submit, Wait, Close or
    worker, updating the fields in place; it is the step of the same name in module Pool. */
module GoroutinePools {
  import opened Sums
  import opened Pool
  import opened PoolInvariant

  class GoroutinePool {
    const size: nat
    var queue: seq<Task>       // the buffered channel `workers`
    var chanClosed: bool
    var closed: bool
    var wg: int
    var mu: RWMutex
    var calls: seq<Call>       // the goroutines inside Submit, Wait and Close
    var workers: seq<Worker>
    ghost var callers: seq<Caller>
    ghost var log: Log

    ghost function View(): State
      reads this
    {
      State(size, queue, chanClosed, closed, wg, mu, calls, callers, workers, false, log)
    }

    ghost predicate Valid()
      reads this
    {
      Inv(View())
    }

    constructor (size: nat)
      ensures View() == Initial(size) && Valid()
    {
      this.size := size;
      queue, chanClosed, closed, wg := [], false, false, 0;
      mu := RWMutex({}, NoWriter, false);
      calls, callers, workers := [], [], [];
      log := Log([], [], {}, {}, multiset{}, multiset{});
      new;
      for i := 0 to size
        invariant View() == Initial(size).(wg := i, workers := seq(i, _ => Receiving))
      {
        wg := wg + 1;
        workers := workers + [Receiving];
      }
      InitialInv(size);
    }

    method CallSubmit(isNil: bool, ghost caller: Caller) returns (t: nat)
      requires Valid() && Enabled(View(), Step.CallSubmit(isNil, caller))
      modifies this`calls, this`callers
      ensures View() == Next(old(View()), Step.CallSubmit(isNil, caller)) && Valid()
      ensures t == old(|calls|)
    {
      StepInv(View(), Step.CallSubmit(isNil, caller));
      t := |calls|;
      callers := callers + [caller];
      calls := calls + [SubmitCalled(Task(t, isNil))];
    }

    method RLock(t: nat)
      requires Valid() && Enabled(View(), Advance(t)) && calls[t].SubmitCalled?
      modifies this`mu, this`calls
      ensures View() == Next(old(View()), Advance(t)) && Valid()
    {
      StepInv(View(), Advance(t));
      mu := mu.(readers := mu.readers + {t});
      calls := calls[t := SubmitLocked(calls[t].task)];
    }

    method TestClosed(t: nat)
      requires Valid() && Enabled(View(), Advance(t)) && calls[t].SubmitLocked?
      modifies this`calls, this`log
      ensures View() == Next(old(View()), Advance(t)) && Valid()
    {
      StepInv(View(), Advance(t));
      var task := calls[t].task;
      if closed {
        log := log.(dropped := log.dropped + {task});
        calls := calls[t := SubmitUnlocking(task)];
      } else {
        calls := calls[t := SubmitOpen(task)];
      }
    }

    /** The select of Submit.  The channel is open here, so the send cannot panic. */
    method SendOrRun(t: nat)
      requires Valid() && Enabled(View(), Advance(t)) && calls[t].SubmitOpen?
      modifies this`queue, this`calls, this`log
      ensures !chanClosed
      ensures View() == Next(old(View()), Advance(t)) && Valid()
    {
      StepInv(View(), Advance(t));
      var task := calls[t].task;
      assert CallClosing(View(), calls[t]);
      if |queue| < size {
        queue := queue + [task];
        log := log.(enqueued := log.enqueued + [task]);
        calls := calls[t := SubmitUnlocking(task)];
      } else {
        log := log.(inlined := log.inlined + {task});
        if task.isNil {
          calls := calls[t := SubmitUnlocking(task)];
        } else {
          log := log.(started := log.started + multiset{task});
          calls := calls[t := SubmitInline(task)];
        }
      }
    }

    method FinishInline(t: nat)
      requires Valid() && Enabled(View(), Advance(t)) && calls[t].SubmitInline?
      modifies this`calls, this`log
      ensures View() == Next(old(View()), Advance(t)) && Valid()
    {
      StepInv(View(), Advance(t));
      log := log.(finished := log.finished + multiset{calls[t].task});
      calls := calls[t := SubmitUnlocking(calls[t].task)];
    }

    method RUnlock(t: nat)
      requires Valid() && Enabled(View(), Advance(t)) && calls[t].SubmitUnlocking?
      modifies this`mu, this`calls
      ensures View() == Next(old(View()), Advance(t)) && Valid()
    {
      StepInv(View(), Advance(t));
      mu := mu.(readers := mu.readers - {t});
      calls := calls[t := SubmitDone(calls[t].task)];
    }

    method CallClose(ghost caller: Caller) returns (t: nat)
      requires Valid() && Enabled(View(), Step.CallClose(caller))
      modifies this`calls, this`callers
      ensures View() == Next(old(View()), Step.CallClose(caller)) && Valid()
      ensures t == old(|calls|)
    {
      StepInv(View(), Step.CallClose(caller));
      t := |calls|;
      callers := callers + [caller];
      calls := calls + [CloseCalled];
    }

    method CallQuery(ghost caller: Caller) returns (t: nat)
      requires Valid() && Enabled(View(), Step.CallQuery(caller))
      modifies this`calls, this`callers
      ensures View() == Next(old(View()), Step.CallQuery(caller)) && Valid()
      ensures t == old(|calls|)
    {
      StepInv(View(), Step.CallQuery(caller));
      t := |calls|;
      callers := callers + [caller];
      calls := calls + [QueryCalled];
    }

    method QueryLock(t: nat)
      requires Valid() && Enabled(View(), Advance(t)) && calls[t].QueryCalled?
      modifies this`mu, this`calls
      ensures View() == Next(old(View()), Advance(t)) && Valid()
    {
      StepInv(View(), Advance(t));
      mu := mu.(readers := mu.readers + {t});
      calls := calls[t := QueryLocked];
    }

    method Answer(t: nat) returns (isClosed: bool)
      requires Valid() && Enabled(View(), Advance(t)) && calls[t].QueryLocked?
      modifies this`mu, this`calls
      ensures View() == Next(old(View()), Advance(t)) && Valid()
      ensures isClosed == closed
    {
      StepInv(View(), Advance(t));
      mu := mu.(readers := mu.readers - {t});
      calls := calls[t := QueryDone(closed)];
      return closed;
    }

    method Announce(t: nat)
      requires Valid() && Enabled(View(), Advance(t)) && calls[t].CloseCalled?
      modifies this`mu, this`calls
      ensures View() == Next(old(View()), Advance(t)) && Valid()
    {
      StepInv(View(), Advance(t));
      mu := mu.(writer := By(t));
      calls := calls[t := CloseAnnounced];
    }

    method Lock(t: nat)
      requires Valid() && Enabled(View(), Advance(t)) && calls[t].CloseAnnounced?
      modifies this`mu, this`calls
      ensures View() == Next(old(View()), Advance(t)) && Valid()
    {
      StepInv(View(), Advance(t));
      mu := mu.(held := true);
      calls := calls[t := CloseLocked];
    }

    /** Closes the task channel unless `closed` says that was done; it never closes it twice. */
    method CloseChannel(t: nat)
      requires Valid() && Enabled(View(), Advance(t)) && calls[t].CloseLocked?
      modifies this`chanClosed, this`calls
      ensures !old(closed) ==> !old(chanClosed)
      ensures View() == Next(old(View()), Advance(t)) && Valid()
    {
      StepInv(View(), Advance(t));
      if closed {
        calls := calls[t := CloseUnlocking];
      } else {
        chanClosed := true;
        calls := calls[t := CloseChanClosed];
      }
    }

    method SetClosed(t: nat)
      requires Valid() && Enabled(View(), Advance(t)) && calls[t].CloseChanClosed?
      modifies this`closed, this`calls
      ensures View() == Next(old(View()), Advance(t)) && Valid()
    {
      StepInv(View(), Advance(t));
      closed := true;
      calls := calls[t := CloseUnlocking];
    }

    method Unlock(t: nat)
      requires Valid() && Enabled(View(), Advance(t)) && calls[t].CloseUnlocking?
      modifies this`mu, this`calls
      ensures View() == Next(old(View()), Advance(t)) && Valid()
    {
      StepInv(View(), Advance(t));
      mu := mu.(writer := NoWriter, held := false);
      calls := calls[t := CloseWaiting];
    }

    method WaitReturns(t: nat)
      requires Valid() && Enabled(View(), Advance(t)) && calls[t].CloseWaiting?
      modifies this`calls
      ensures View() == Next(old(View()), Advance(t)) && Valid()
    {
      StepInv(View(), Advance(t));
      calls := calls[t := CloseDone];
    }

    /** The range receive of a worker: a task, or the end of a closed and empty channel. */
    method Receive(w: nat)
      requires Valid() && Enabled(View(), Work(w)) && workers[w].Receiving?
      modifies this`queue, this`workers, this`log
      ensures View() == Next(old(View()), Work(w)) && Valid()
    {
      StepInv(View(), Work(w));
      if queue == [] {
        workers := workers[w := Leaving];
      } else {
        var task := queue[0];
        queue := queue[1..];
        log := log.(dequeued := log.dequeued + [task]);
        if !task.isNil {
          log := log.(started := log.started + multiset{task});
          workers := workers[w := Running(task)];
        }
      }
    }

    method FinishTask(w: nat)
      requires Valid() && Enabled(View(), Work(w)) && workers[w].Running?
      modifies this`workers, this`log
      ensures View() == Next(old(View()), Work(w)) && Valid()
    {
      StepInv(View(), Work(w));
      log := log.(finished := log.finished + multiset{workers[w].task});
      workers := workers[w := Receiving];
    }

    method Leave(w: nat)
      requires Valid() && Enabled(View(), Work(w)) && workers[w].Leaving?
      modifies this`wg, this`workers
      ensures View() == Next(old(View()), Work(w)) && Valid()
      ensures wg >= 0
    {
      StepInv(View(), Work(w));
      SumAtLeast(workers, w, Present);
      wg := wg - 1;
      workers := workers[w := Gone];
    }
  }
}
