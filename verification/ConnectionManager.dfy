/** The connection manager object.  Each method is one atomic step of Start, Stop,
    ForceReconnect or watchConnection, updating the fields in place. */
module ConnectionManagers {
  import opened Backoff
  import opened Watcher

  class ConnectionManager {
    var connected: bool
    var stopped: bool
    var stopClosed: bool
    var hasNotify: bool
    var hasReconnect: bool
    var starts: seq<StartCall>
    var stops: seq<StopCall>
    var forces: seq<ForceCall>
    var watchers: seq<Goroutine>
    ghost var closes: nat

    ghost function View(): State
      reads this
    {
      State(connected, stopped, stopClosed, closes, false, hasNotify, hasReconnect, starts, stops, forces, watchers)
    }

    ghost predicate Valid()
      reads this
    {
      Inv(View())
    }

    constructor ()
      ensures View() == INITIAL && Valid()
    {
      connected, stopped, stopClosed, hasNotify, hasReconnect := false, false, false, false, false;
      starts, stops, forces, watchers := [], [], [], [];
      closes := 0;
      new;
      RunsKeepInv([]);
    }

    method SetConnectionNotify(present: bool)
      requires Valid()
      modifies this`hasNotify
      ensures View() == Next(old(View()), SetNotify(present)) && Valid()
    {
      StepInv(View(), SetNotify(present));
      hasNotify := present;
    }

    method SetReconnectFunc(present: bool)
      requires Valid()
      modifies this`hasReconnect
      ensures View() == Next(old(View()), SetReconnect(present)) && Valid()
    {
      StepInv(View(), SetReconnect(present));
      hasReconnect := present;
    }

    method Start() returns (call: nat)
      requires Valid()
      modifies this`connected, this`starts
      ensures View() == Next(old(View()), CallStart) && Valid()
      ensures call == old(|starts|)
    {
      StepInv(View(), CallStart);
      call := |starts|;
      connected := true;
      starts := starts + [Launching(hasNotify && hasReconnect)];
    }

    /** The go statement of Start, outside the lock. */
    method Launch(call: nat)
      requires Valid() && Enabled(View(), Step.Launch(call))
      modifies this`starts, this`watchers
      ensures View() == Next(old(View()), Step.Launch(call)) && Valid()
    {
      StepInv(View(), Step.Launch(call));
      if starts[call].spawn {
        watchers := watchers + [Goroutine(call, Watching, [])];
      }
      starts := starts[call := Launched(starts[call].spawn)];
    }

    method Stop() returns (call: nat)
      requires Valid()
      modifies this`connected, this`stopped, this`stops
      ensures View() == Next(old(View()), CallStop) && Valid()
      ensures call == old(|stops|)
    {
      StepInv(View(), CallStop);
      call := |stops|;
      connected := false;
      stops := stops + [if stopped then Stopped else Selecting];
      stopped := true;
    }

    method StopSelects(call: nat)
      requires Valid() && call < |stops| && stops[call].Selecting?
      modifies this`stops
      ensures View() == Next(old(View()), StopMoves(call)) && Valid()
    {
      StepInv(View(), StopMoves(call));
      stops := stops[call := if stopClosed then Stopped else Closing];
    }

    /** Closes stopChan; it is open here, so the close cannot panic. */
    method StopCloses(call: nat)
      requires Valid() && call < |stops| && stops[call].Closing?
      modifies this`stopClosed, this`closes, this`stops
      ensures !old(stopClosed)
      ensures View() == Next(old(View()), StopMoves(call)) && Valid()
    {
      StepInv(View(), StopMoves(call));
      stopClosed, closes := true, closes + 1;
      stops := stops[call := Stopped];
    }

    method ForceReconnect() returns (call: nat)
      requires Valid()
      modifies this`forces
      ensures View() == Next(old(View()), CallForce) && Valid()
      ensures call == old(|forces|)
    {
      StepInv(View(), CallForce);
      call := |forces|;
      forces := forces + [Fetched(hasReconnect)];
    }

    method ForceMoves(call: nat, ok: bool)
      requires Valid() && Enabled(View(), Step.ForceMoves(call, ok))
      modifies this`connected, this`forces
      ensures View() == Next(old(View()), Step.ForceMoves(call, ok)) && Valid()
    {
      StepInv(View(), Step.ForceMoves(call, ok));
      match forces[call]
      case Fetched(wired) =>
        connected := !wired;
        forces := forces[call := if wired then InCallback else Forced];
      case InCallback =>
        forces := forces[call := if ok then CallbackOk else Forced];
      case CallbackOk =>
        connected := true;
        forces := forces[call := Forced];
      case Forced =>
    }

    /** The notify channel yields an error, or was closed without one. */
    method NotifyReceives(w: nat, reported: bool)
      requires Valid() && w < |watchers| && watchers[w].phase.Watching?
      modifies this`watchers
      ensures View() == Next(old(View()), WatcherMoves(w, if reported then BrokerError else BrokerClosed)) && Valid()
    {
      StepInv(View(), WatcherMoves(w, if reported then BrokerError else BrokerClosed));
      watchers := watchers[w := watchers[w].(phase := if reported then Notified else Exited)];
    }

    method SeesStop(w: nat)
      requires Valid() && w < |watchers| && stopClosed && (watchers[w].phase.Watching? || watchers[w].phase.Waiting?)
      modifies this`watchers
      ensures View() == Next(old(View()), WatcherMoves(w, Action.SeesStop)) && Valid()
    {
      StepInv(View(), WatcherMoves(w, Action.SeesStop));
      watchers := watchers[w := watchers[w].(phase := Exited)];
    }

    method MarkDisconnected(w: nat)
      requires Valid() && w < |watchers| && watchers[w].phase.Notified?
      modifies this`connected, this`watchers
      ensures View() == Next(old(View()), WatcherMoves(w, Proceed)) && Valid()
    {
      StepInv(View(), WatcherMoves(w, Proceed));
      connected := false;
      watchers := watchers[w := watchers[w].(phase := LoopTop(RECONNECT_BACKOFF))];
    }

    method CheckStop(w: nat)
      requires Valid() && w < |watchers| && watchers[w].phase.LoopTop?
      modifies this`watchers
      ensures View() == Next(old(View()), WatcherMoves(w, Proceed)) && Valid()
    {
      StepInv(View(), WatcherMoves(w, Proceed));
      var b := watchers[w].phase.backoff;
      watchers := watchers[w := watchers[w].(phase := if stopClosed then Exited else Cleared(b))];
    }

    method BeginReconnect(w: nat)
      requires Valid() && w < |watchers| && watchers[w].phase.Cleared?
      modifies this`watchers
      ensures View() == Next(old(View()), WatcherMoves(w, Proceed)) && Valid()
    {
      StepInv(View(), WatcherMoves(w, Proceed));
      watchers := watchers[w := watchers[w].(phase := Calling(watchers[w].phase.backoff))];
    }

    method ReconnectReturns(w: nat, ok: bool)
      requires Valid() && w < |watchers| && watchers[w].phase.Calling?
      modifies this`watchers
      ensures View() == Next(old(View()), WatcherMoves(w, CallbackReturns(ok))) && Valid()
    {
      StepInv(View(), WatcherMoves(w, CallbackReturns(ok)));
      var g := watchers[w];
      if ok {
        watchers := watchers[w := g.(phase := Succeeded)];
      } else {
        watchers := watchers[w := g.(phase := Waiting(g.phase.backoff), waits := g.waits + [g.phase.backoff])];
      }
    }

    method MarkConnected(w: nat)
      requires Valid() && w < |watchers| && watchers[w].phase.Succeeded?
      modifies this`connected, this`watchers
      ensures View() == Next(old(View()), WatcherMoves(w, Proceed)) && Valid()
    {
      StepInv(View(), WatcherMoves(w, Proceed));
      connected := true;
      watchers := watchers[w := watchers[w].(phase := Respawning)];
    }

    /** Hands over to one successor of the same lineage and returns. */
    method Respawn(w: nat)
      requires Valid() && w < |watchers| && watchers[w].phase.Respawning?
      modifies this`watchers
      ensures View() == Next(old(View()), WatcherMoves(w, Proceed)) && Valid()
    {
      StepInv(View(), WatcherMoves(w, Proceed));
      var g := watchers[w];
      watchers := watchers[w := g.(phase := Exited)] + [Goroutine(g.lineage, Watching, [])];
    }

    /** Doubles the back-off; the doubling does not overflow. */
    method TimerFires(w: nat)
      requires Valid() && w < |watchers| && watchers[w].phase.Waiting?
      modifies this`watchers
      ensures View() == Next(old(View()), WatcherMoves(w, Action.TimerFires)) && Valid()
      ensures 0 < watchers[w].phase.backoff <= CAP
    {
      StepInv(View(), WatcherMoves(w, Action.TimerFires));
      assert WaitsOk(watchers[w]);
      NoOverflow(RECONNECT_BACKOFF, |watchers[w].waits|);
      var doubled := Wrap64(watchers[w].phase.backoff * 2);
      var backoff := if doubled > CAP then CAP else doubled;
      watchers := watchers[w := watchers[w].(phase := LoopTop(backoff))];
    }
  }
}
