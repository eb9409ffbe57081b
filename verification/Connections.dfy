/** Which connections are still open: cleanup closes the current one and no other, so one that a
    later dial has replaced while it was open stays open until the broker drops it. */
module Connections {
  import opened Delivery
  import opened DeliveryProperties
  import opened Shutdown

  /** The step is the close of the connection by a cleanup. */
  predicate ClosesIt(s: State, step: Step, k: nat) {
    && step.CleanupMoves? && step.cleanup < |s.cleanups| && s.cleanups[step.cleanup].ChannelsClosed?
    && HasConnection(s) && s.current.conn == k
  }

  /** The broker has dropped the connection, or a cleanup has closed it while it was current. */
  ghost predicate GivenUp(steps: seq<Step>, k: nat)
    requires Feasible(steps)
  {
    steps != [] &&
    (var n := |steps| - 1;
     GivenUp(steps[..n], k) || steps[n] == LoseConnection(k) || ClosesIt(After(steps[..n]), steps[n], k))
  }

  /** What a step does to the connections. */
  lemma ConnectionsAfter(s: State, step: Step)
    requires Enabled(s, step)
    ensures var s' := Next(s, step);
      && |s'.conns| == |s.conns| + (if step.Dial? then 1 else 0)
      && (step.Dial? ==> s'.conns[|s.conns|].live && s'.current == Over(|s.conns|))
      && (!step.Dial? ==> s'.current == s.current || s'.current.NoConnection?)
      && (forall k: nat :: k < |s.conns| ==>
            && (s'.conns[k].live <==> s.conns[k].live && step != LoseConnection(k) && !ClosesIt(s, step, k))
            && (s'.conns[k].closedByClient <==> s.conns[k].closedByClient || ClosesIt(s, step, k)))
  {
    if step.LoseConnection? {
      CutAll(s, step.conn, |s.sessions|, false);
    } else if step.CleanupMoves? {
      ConnectionsAfterCleanup(s, step.cleanup);
    } else if step.SessionMoves? {
      MoveElsewhere(s, step.session);
    }
  }

  lemma ConnectionsAfterCleanup(s: State, c: nat)
    requires c < |s.cleanups|
    ensures var s' := MoveCleanup(s, c);
      && s'.current == (if s.cleanups[c].ChannelsClosed? && HasConnection(s) then NoConnection else s.current)
      && s'.conns == if s.cleanups[c].ChannelsClosed? && HasConnection(s)
                     then s.conns[s.current.conn := Conn(false, true)] else s.conns
  {
    if s.cleanups[c].ChannelsClosed? && HasConnection(s) {
      CutAll(s.(earlyClose := s.earlyClose || s.wg != 0, cleanups := s.cleanups[c := Finished]),
             s.current.conn, |s.sessions|, true);
    }
  }

  /** After every run a dialed connection is open if and only if it was neither dropped by the broker
      nor closed, while current, by a cleanup. */
  lemma {:induction false} OpenIff(steps: seq<Step>, k: nat)
    requires Feasible(steps)
    ensures k < |After(steps).conns| ==> (After(steps).conns[k].live <==> !GivenUp(steps, k))
    ensures k >= |After(steps).conns| ==> !GivenUp(steps, k)
    ensures After(steps).current.Over? ==> After(steps).current.conn < |After(steps).conns|
  {
    if steps != [] {
      var n := |steps| - 1;
      OpenIff(steps[..n], k);
      ConnectionsAfter(After(steps[..n]), steps[n]);
    }
  }

  /** So the step that finishes a cleanup leaves open exactly the connections that were open and not
      current. */
  lemma OpenAfterCleanup(steps: seq<Step>, c: nat)
    requires Feasible(steps) && c < |After(steps).cleanups| && After(steps).cleanups[c].ChannelsClosed?
    ensures Enabled(After(steps), CleanupMoves(c))
    ensures var s, s' := After(steps), Next(After(steps), CleanupMoves(c));
      && |s'.cleanups| == |s.cleanups| && s'.cleanups[c].Finished? && |s'.conns| == |s.conns|
      && forall k: nat :: k < |s.conns| ==> (s'.conns[k].live <==> s.conns[k].live && s.current != Over(k))
  {
    var s := After(steps);
    ConnectionsAfter(s, CleanupMoves(c));
    CleanupsAfter(s, CleanupMoves(c));
    if HasConnection(s) {
      CutAll(s.(earlyClose := s.earlyClose || s.wg != 0, cleanups := s.cleanups[c := Finished]),
             s.current.conn, |s.sessions|, true);
    }
  }

  /** A connection that is not current any more is never closed by the client again: from then on it
      stays open exactly as long as the broker does not drop it. */
  lemma {:induction false} ReplacedNeverClosed(steps: seq<Step>, more: seq<Step>, k: nat)
    requires Feasible(steps + more) && Feasible(steps)
    requires k < |After(steps).conns| && After(steps).current != Over(k)
    ensures var s, s' := After(steps), After(steps + more);
      && k < |s'.conns| && s'.current != Over(k)
      && s'.conns[k].closedByClient == s.conns[k].closedByClient
      && (s'.conns[k].live <==> s.conns[k].live && LoseConnection(k) !in more)
  {
    if more == [] {
      assert steps + more == steps;
    } else {
      var n := |more| - 1;
      assert (steps + more)[..|steps| + n] == steps + more[..n];
      assert more == more[..n] + [more[n]];
      ReplacedNeverClosed(steps, more[..n], k);
      assert After(steps + more) == Next(After(steps + more[..n]), more[n]);
      ConnectionsAfter(After(steps + more[..n]), more[n]);
    }
  }

  /** A run: a forced reconnect replaces an open connection, and cleanup leaves it open. */
  lemma CleanupLeavesReplacedOpen() returns (steps: seq<Step>)
    ensures Feasible(steps) && After(steps).cleanups == [Finished] && After(steps).current.NoConnection?
    ensures |After(steps).conns| == 2 && After(steps).conns[0].live && !After(steps).conns[1].live
  {
    steps := TwoDials();
    steps := Extend(steps, CleanupMoves(0));
    steps := Extend(steps, CleanupMoves(0));
    assert After(steps).cleanups == [Drained];
    steps := Extend(steps, CleanupMoves(0));
    OpenAfterCleanup(steps, 0);
    ConnectionsAfterCleanup(After(steps), 0);
    steps := Extend(steps, CleanupMoves(0));
  }

  lemma TwoDials() returns (steps: seq<Step>)
    ensures Feasible(steps)
    ensures var s := After(steps);
      && s.cleanups == [Begun] && s.wg == 0 && s.current == Over(1)
      && s.conns == [Conn(true, false), Conn(true, false)]
  {
    steps := Extend([], Dial);
    steps := Extend(steps, Dial);
    steps := Extend(steps, CallCleanup(Outside));
  }
}
