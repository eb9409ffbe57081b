/** Subscribe calls beside a rebuild.  A Subscribe records its subscription, reads the connection and
    starts its loop; a rebuild stores the new connection, copies the recorded subscriptions and
    restarts them one by one.  Each of these is one atomic step, and any number of Subscribe calls may
    fall anywhere between the steps of the rebuild. */
module Overlap {
  import opened Sums

  datatype Subscribe =
    | Arrived
    | Recorded(id: nat)
    | Picked(id: nat, renewed: bool)     // the connection was read: the new one or the old
    | Started(id: nat, renewed: bool)
    | Failed(id: nat)

  datatype Rebuild =
    | Dialed                           // the new connection is not stored yet
    | Stored
    | Restarting(copied: nat, next: nat)
    | Restarted(copied: nat, next: nat)
    | Broken(copied: nat, next: nat)   // a restart failed

  datatype Loop = Loop(id: nat, renewed: bool)

  datatype State = State(recorded: nat, calls: seq<Subscribe>, rebuild: Rebuild, loops: seq<Loop>)

  datatype Step = CallSubscribe | SubscribeMoves(call: nat, ok: bool) | RebuildMoves(ok: bool)

  /** Before: some subscriptions recorded, with loops on the old connection. */
  function Initial(existing: nat): State { State(existing, [], Dialed, []) }

  predicate Ended(c: Subscribe) { c.Started? || c.Failed? }

  predicate Over(r: Rebuild) { r.Restarted? || r.Broken? }

  predicate Enabled(s: State, step: Step) {
    match step
    case CallSubscribe => true
    case SubscribeMoves(i, _) => i < |s.calls| && !Ended(s.calls[i])
    case RebuildMoves(_) => !Over(s.rebuild)
  }

  function Next(s: State, step: Step): State
    requires Enabled(s, step)
  {
    match step
    case CallSubscribe => s.(calls := s.calls + [Arrived])
    case SubscribeMoves(i, ok) => MoveSubscribe(s, i, ok)
    case RebuildMoves(ok) => MoveRebuild(s, ok)
  }

  function MoveSubscribe(s: State, i: nat, ok: bool): State
    requires i < |s.calls|
  {
    match s.calls[i]
    case Arrived => s.(recorded := s.recorded + 1, calls := s.calls[i := Recorded(s.recorded)])
    case Recorded(id) => s.(calls := s.calls[i := Picked(id, !s.rebuild.Dialed?)])
    case Picked(id, renewed) =>
      if ok then s.(calls := s.calls[i := Started(id, renewed)], loops := s.loops + [Loop(id, renewed)])
      else s.(calls := s.calls[i := Failed(id)])
    case _ => s
  }

  function MoveRebuild(s: State, ok: bool): State {
    match s.rebuild
    case Dialed => s.(rebuild := Stored)
    case Stored => s.(rebuild := Restarting(s.recorded, 0))
    case Restarting(copied, next) =>
      if next >= copied then s.(rebuild := Restarted(copied, next))
      else if ok then s.(rebuild := Restarting(copied, next + 1), loops := s.loops + [Loop(next, true)])
      else s.(rebuild := Broken(copied, next))
    case _ => s
  }

  // ---------------------------------------------------------------- runs

  predicate Feasible(existing: nat, steps: seq<Step>)
    decreases |steps|, 0
  {
    steps == [] ||
    (var n := |steps| - 1; Feasible(existing, steps[..n]) && Enabled(After(existing, steps[..n]), steps[n]))
  }

  function After(existing: nat, steps: seq<Step>): State
    requires Feasible(existing, steps)
    decreases |steps|, 1
  {
    if steps == [] then Initial(existing)
    else var n := |steps| - 1; Next(After(existing, steps[..n]), steps[n])
  }

  // ---------------------------------------------------------------- invariant

  predicate HasCopied(r: Rebuild) { r.Restarting? || Over(r) }

  /** The rebuild has restarted the subscription. */
  predicate RestartedBy(r: Rebuild, id: nat) { HasCopied(r) && id < r.next }

  function OnNew(id: nat): Loop -> nat {
    (l: Loop) => if l.id == id && l.renewed then 1 else 0
  }

  function OwnOnNew(id: nat): Subscribe -> nat {
    (c: Subscribe) => if c == Started(id, true) then 1 else 0
  }

  /** A subscription read the old connection only if it was recorded before the copy. */
  predicate CallOk(s: State, c: Subscribe) {
    && (!c.Arrived? ==> c.id < s.recorded)
    && ((c.Picked? || c.Started?) && !c.renewed && HasCopied(s.rebuild) ==> c.id < s.rebuild.copied)
    && ((c.Picked? || c.Started?) && c.renewed ==> !s.rebuild.Dialed?)
  }

  ghost predicate Inv(s: State) {
    && (HasCopied(s.rebuild) ==> s.rebuild.next <= s.rebuild.copied <= s.recorded)
    && (s.rebuild.Restarted? ==> s.rebuild.next == s.rebuild.copied)
    && (forall i: nat :: i < |s.calls| ==> CallOk(s, s.calls[i]))
    && (forall i: nat, j: nat :: i < j < |s.calls| && !s.calls[i].Arrived? && !s.calls[j].Arrived? ==>
          s.calls[i].id != s.calls[j].id)
    && (forall id: nat :: LoopsOk(s, id))
  }

  ghost predicate LoopsOk(s: State, id: nat) {
    Sum(s.loops, OnNew(id)) == (if RestartedBy(s.rebuild, id) then 1 else 0) + Sum(s.calls, OwnOnNew(id))
  }

  lemma StepInv(s: State, step: Step)
    requires Inv(s) && Enabled(s, step)
    ensures Inv(Next(s, step))
  {
    var s' := Next(s, step);
    forall id: nat ensures LoopsOk(s', id) {
      assert LoopsOk(s, id);
      LoopsStep(s, step, id);
    }
    if step.SubscribeMoves? {
      assert CallOk(s, s.calls[step.call]);
      assert forall j: nat :: j < |s.calls| && j != step.call ==> s'.calls[j] == s.calls[j] && CallOk(s', s.calls[j]);
    }
  }

  lemma LoopsStep(s: State, step: Step, id: nat)
    requires Enabled(s, step) && LoopsOk(s, id)
    requires HasCopied(s.rebuild) ==> s.rebuild.next <= s.rebuild.copied
    ensures LoopsOk(Next(s, step), id)
  {
    if step.CallSubscribe? {
      SumAppend(s.calls, Arrived, OwnOnNew(id));
    } else if step.SubscribeMoves? {
      LoopsSubscribe(s, step.call, step.ok, id);
    } else {
      LoopsRebuild(s, step.ok, id);
    }
  }

  lemma LoopsSubscribe(s: State, i: nat, ok: bool, id: nat)
    requires i < |s.calls| && !Ended(s.calls[i]) && LoopsOk(s, id)
    ensures LoopsOk(MoveSubscribe(s, i, ok), id)
  {
    var s' := MoveSubscribe(s, i, ok);
    SumUpdate(s.calls, i, s'.calls[i], OwnOnNew(id));
    assert OwnOnNew(id)(s.calls[i]) == 0;
    if s.calls[i].Picked? && ok {
      var l := Loop(s.calls[i].id, s.calls[i].renewed);
      SumAppend(s.loops, l, OnNew(id));
      assert OnNew(id)(l) == OwnOnNew(id)(s'.calls[i]);
    } else {
      assert OwnOnNew(id)(s'.calls[i]) == 0;
    }
  }

  lemma LoopsRebuild(s: State, ok: bool, id: nat)
    requires LoopsOk(s, id) && (HasCopied(s.rebuild) ==> s.rebuild.next <= s.rebuild.copied)
    ensures LoopsOk(MoveRebuild(s, ok), id)
  {
    if s.rebuild.Restarting? && s.rebuild.next < s.rebuild.copied && ok {
      var l := Loop(s.rebuild.next, true);
      SumAppend(s.loops, l, OnNew(id));
      assert OnNew(id)(l) == if id == s.rebuild.next then 1 else 0;
    }
  }

  lemma {:induction false} RunsKeepInv(existing: nat, steps: seq<Step>)
    requires Feasible(existing, steps)
    ensures Inv(After(existing, steps))
  {
    if steps != [] {
      var n := |steps| - 1;
      RunsKeepInv(existing, steps[..n]);
      StepInv(After(existing, steps[..n]), steps[n]);
    }
  }

  // ---------------------------------------------------------------- the count

  lemma {:induction false} OwnOnce(calls: seq<Subscribe>, i: nat)
    requires i < |calls| && !calls[i].Arrived?
    requires forall j: nat :: j < |calls| && j != i && !calls[j].Arrived? ==> calls[j].id != calls[i].id
    ensures Sum(calls, OwnOnNew(calls[i].id)) == if calls[i] == Started(calls[i].id, true) then 1 else 0
  {
    var n := |calls| - 1;
    if i == n {
      NoneOwn(calls[..n], calls[i].id);
    } else {
      OwnOnce(calls[..n], i);
    }
  }

  lemma {:induction false} NoneOwn(calls: seq<Subscribe>, id: nat)
    requires forall j: nat :: j < |calls| && !calls[j].Arrived? ==> calls[j].id != id
    ensures Sum(calls, OwnOnNew(id)) == 0
  {
    if calls != [] {
      NoneOwn(calls[..|calls| - 1], id);
    }
  }

  /** The loops on the new connection of the subscription of a call, at any moment: one if the rebuild
      has restarted it, and one if its own start went there. */
  lemma LoopsOfCall(existing: nat, steps: seq<Step>, i: nat)
    requires Feasible(existing, steps) && i < |After(existing, steps).calls|
    requires !After(existing, steps).calls[i].Arrived?
    ensures var s := After(existing, steps); var c := s.calls[i];
      Sum(s.loops, OnNew(c.id)) ==
        (if RestartedBy(s.rebuild, c.id) then 1 else 0) + (if c == Started(c.id, true) then 1 else 0)
  {
    RunsKeepInv(existing, steps);
    var s := After(existing, steps);
    assert LoopsOk(s, s.calls[i].id);
    OwnOnce(s.calls, i);
  }

  /** After a rebuild that succeeded, a Subscribe that returned nil has one loop on the new connection
      or two, never none; it has two if and only if it was recorded before the copy and read the
      connection after it was stored.  One that returned an error has a loop all the same if and only
      if it was recorded before the copy. */
  lemma OneLoopOrTwo(existing: nat, steps: seq<Step>, i: nat)
    requires Feasible(existing, steps) && i < |After(existing, steps).calls|
    requires After(existing, steps).rebuild.Restarted? && Ended(After(existing, steps).calls[i])
    ensures var s := After(existing, steps); var c := s.calls[i]; var n := Sum(s.loops, OnNew(c.id));
      && (c.Started? ==> 1 <= n <= 2 && (n == 2 <==> c.id < s.rebuild.copied && c.renewed))
      && (c.Failed? ==> n <= 1 && (n == 1 <==> c.id < s.rebuild.copied))
  {
    RunsKeepInv(existing, steps);
    LoopsOfCall(existing, steps, i);
    assert CallOk(After(existing, steps), After(existing, steps).calls[i]);
  }

  lemma {:induction false} IdsAreNew(existing: nat, steps: seq<Step>)
    requires Feasible(existing, steps)
    ensures var s := After(existing, steps);
      && existing <= s.recorded
      && forall i: nat :: i < |s.calls| && !s.calls[i].Arrived? ==> existing <= s.calls[i].id
  {
    if steps != [] {
      IdsAreNew(existing, steps[..|steps| - 1]);
    }
  }

  /** Whatever subscribes meanwhile, a subscription from before has exactly one loop there. */
  lemma EarlierSubscriptions(existing: nat, steps: seq<Step>, id: nat)
    requires Feasible(existing, steps) && id < existing && After(existing, steps).rebuild.Restarted?
    ensures Sum(After(existing, steps).loops, OnNew(id)) == 1
  {
    RunsKeepInv(existing, steps);
    IdsAreNew(existing, steps);
    CopiesEarlier(existing, steps);
    var s := After(existing, steps);
    assert LoopsOk(s, id);
    NoneOwn(s.calls, id);
  }

  lemma {:induction false} CopiesEarlier(existing: nat, steps: seq<Step>)
    requires Feasible(existing, steps)
    ensures HasCopied(After(existing, steps).rebuild) ==> existing <= After(existing, steps).rebuild.copied
  {
    if steps != [] {
      var n := |steps| - 1;
      CopiesEarlier(existing, steps[..n]);
      IdsAreNew(existing, steps[..n]);
    }
  }

  // ---------------------------------------------------------------- when things happened

  /** Step k is the one in which call i records its subscription, or reads the connection. */
  ghost predicate RecordsAt(existing: nat, steps: seq<Step>, k: nat, i: nat) {
    && k < |steps| && Feasible(existing, steps[..k]) && steps[k].SubscribeMoves? && steps[k].call == i
    && i < |After(existing, steps[..k]).calls| && After(existing, steps[..k]).calls[i].Arrived?
  }

  ghost predicate ReadsAt(existing: nat, steps: seq<Step>, k: nat, i: nat) {
    && k < |steps| && Feasible(existing, steps[..k]) && steps[k].SubscribeMoves? && steps[k].call == i
    && i < |After(existing, steps[..k]).calls| && After(existing, steps[..k]).calls[i].Recorded?
  }

  /** Step k is the one in which the rebuild stores the connection, or copies the subscriptions. */
  ghost predicate StoresAt(existing: nat, steps: seq<Step>, k: nat) {
    && k < |steps| && Feasible(existing, steps[..k])
    && steps[k].RebuildMoves? && After(existing, steps[..k]).rebuild.Dialed?
  }

  ghost predicate CopiesAt(existing: nat, steps: seq<Step>, k: nat) {
    && k < |steps| && Feasible(existing, steps[..k])
    && steps[k].RebuildMoves? && After(existing, steps[..k]).rebuild.Stored?
  }

  ghost predicate RecordedFirst(existing: nat, steps: seq<Step>, i: nat) {
    exists j: nat, k: nat :: j < k && RecordsAt(existing, steps, j, i) && CopiesAt(existing, steps, k)
  }

  ghost predicate StoredFirst(existing: nat, steps: seq<Step>, i: nat) {
    exists j: nat, k: nat :: j < k && StoresAt(existing, steps, j) && ReadsAt(existing, steps, k, i)
  }

  lemma RecordsBefore(existing: nat, steps: seq<Step>, k: nat, i: nat)
    requires steps != [] && k < |steps| - 1
    ensures RecordsAt(existing, steps, k, i) == RecordsAt(existing, steps[..|steps| - 1], k, i)
  {
    assert steps[..|steps| - 1][..k] == steps[..k];
  }

  lemma ReadsBefore(existing: nat, steps: seq<Step>, k: nat, i: nat)
    requires steps != [] && k < |steps| - 1
    ensures ReadsAt(existing, steps, k, i) == ReadsAt(existing, steps[..|steps| - 1], k, i)
  {
    assert steps[..|steps| - 1][..k] == steps[..k];
  }

  lemma StoresBefore(existing: nat, steps: seq<Step>, k: nat)
    requires steps != [] && k < |steps| - 1
    ensures StoresAt(existing, steps, k) == StoresAt(existing, steps[..|steps| - 1], k)
  {
    assert steps[..|steps| - 1][..k] == steps[..k];
  }

  lemma CopiesBefore(existing: nat, steps: seq<Step>, k: nat)
    requires steps != [] && k < |steps| - 1
    ensures CopiesAt(existing, steps, k) == CopiesAt(existing, steps[..|steps| - 1], k)
  {
    assert steps[..|steps| - 1][..k] == steps[..k];
  }

  /** A call has recorded its subscription, or read the connection, exactly in its step; and so has the
      rebuild stored and copied. */
  lemma {:induction false} RecordedWhen(existing: nat, steps: seq<Step>, i: nat)
    requires Feasible(existing, steps)
    ensures var s := After(existing, steps);
      i < |s.calls| && !s.calls[i].Arrived? <==> exists k: nat :: RecordsAt(existing, steps, k, i)
  {
    if steps != [] {
      var n := |steps| - 1;
      RecordedWhen(existing, steps[..n], i);
      RecordedWhenStep(existing, steps, i);
      if k: nat :| RecordsAt(existing, steps, k, i) {
        if k < n {
          RecordsBefore(existing, steps, k, i);
        }
      }
      if k: nat :| RecordsAt(existing, steps[..n], k, i) {
        RecordsBefore(existing, steps, k, i);
      }
    }
  }

  lemma RecordedWhenStep(existing: nat, steps: seq<Step>, i: nat)
    requires steps != [] && Feasible(existing, steps)
    ensures var s, s', n := After(existing, steps[..|steps| - 1]), After(existing, steps), |steps| - 1;
      i < |s'.calls| && !s'.calls[i].Arrived?
      <==> (i < |s.calls| && !s.calls[i].Arrived?) || RecordsAt(existing, steps, n, i)
  {
  }

  lemma {:induction false} ReadWhen(existing: nat, steps: seq<Step>, i: nat)
    requires Feasible(existing, steps)
    ensures var s := After(existing, steps);
      i < |s.calls| && !s.calls[i].Arrived? && !s.calls[i].Recorded?
      <==> exists k: nat :: ReadsAt(existing, steps, k, i)
  {
    if steps != [] {
      var n := |steps| - 1;
      ReadWhen(existing, steps[..n], i);
      ReadWhenStep(existing, steps, i);
      if k: nat :| ReadsAt(existing, steps, k, i) {
        if k < n {
          ReadsBefore(existing, steps, k, i);
        }
      }
      if k: nat :| ReadsAt(existing, steps[..n], k, i) {
        ReadsBefore(existing, steps, k, i);
      }
    }
  }

  lemma ReadWhenStep(existing: nat, steps: seq<Step>, i: nat)
    requires steps != [] && Feasible(existing, steps)
    ensures var s, s', n := After(existing, steps[..|steps| - 1]), After(existing, steps), |steps| - 1;
      i < |s'.calls| && !s'.calls[i].Arrived? && !s'.calls[i].Recorded?
      <==> (i < |s.calls| && !s.calls[i].Arrived? && !s.calls[i].Recorded?) || ReadsAt(existing, steps, n, i)
  {
  }

  lemma {:induction false} StoredWhen(existing: nat, steps: seq<Step>)
    requires Feasible(existing, steps)
    ensures var s := After(existing, steps); !s.rebuild.Dialed? <==> exists k: nat :: StoresAt(existing, steps, k)
  {
    if steps != [] {
      var n := |steps| - 1;
      StoredWhen(existing, steps[..n]);
      StoredWhenStep(existing, steps);
      if k: nat :| StoresAt(existing, steps, k) {
        if k < n {
          StoresBefore(existing, steps, k);
        }
      }
      if k: nat :| StoresAt(existing, steps[..n], k) {
        StoresBefore(existing, steps, k);
      }
    }
  }

  lemma StoredWhenStep(existing: nat, steps: seq<Step>)
    requires steps != [] && Feasible(existing, steps)
    ensures var s, s', n := After(existing, steps[..|steps| - 1]), After(existing, steps), |steps| - 1;
      !s'.rebuild.Dialed? <==> (!s.rebuild.Dialed?) || StoresAt(existing, steps, n)
  {
  }

  lemma {:induction false} CopiedWhen(existing: nat, steps: seq<Step>)
    requires Feasible(existing, steps)
    ensures var s := After(existing, steps); HasCopied(s.rebuild) <==> exists k: nat :: CopiesAt(existing, steps, k)
  {
    if steps != [] {
      var n := |steps| - 1;
      CopiedWhen(existing, steps[..n]);
      CopiedWhenStep(existing, steps);
      if k: nat :| CopiesAt(existing, steps, k) {
        if k < n {
          CopiesBefore(existing, steps, k);
        }
      }
      if k: nat :| CopiesAt(existing, steps[..n], k) {
        CopiesBefore(existing, steps, k);
      }
    }
  }

  lemma CopiedWhenStep(existing: nat, steps: seq<Step>)
    requires steps != [] && Feasible(existing, steps)
    ensures var s, s', n := After(existing, steps[..|steps| - 1]), After(existing, steps), |steps| - 1;
      HasCopied(s'.rebuild) <==> (HasCopied(s.rebuild)) || CopiesAt(existing, steps, n)
  {
  }

  /** The number of a subscription is below the number copied if and only if it was recorded before the
      copy. */
  lemma {:induction false} CopiedIff(existing: nat, steps: seq<Step>, i: nat)
    requires Feasible(existing, steps) && HasCopied(After(existing, steps).rebuild)
    requires i < |After(existing, steps).calls| && !After(existing, steps).calls[i].Arrived?
    ensures After(existing, steps).calls[i].id < After(existing, steps).rebuild.copied <==>
              RecordedFirst(existing, steps, i)
  {
    var n := |steps| - 1;
    var s := After(existing, steps[..n]);
    RunsKeepInv(existing, steps[..n]);
    RecordedWhen(existing, steps[..n], i);
    CopiedWhen(existing, steps[..n]);
    RecordedFirstStays(existing, steps, i);
    if HasCopied(s.rebuild) && i < |s.calls| && !s.calls[i].Arrived? {
      CopiedIff(existing, steps[..n], i);
    } else if CopiesAt(existing, steps, n) {
      var j: nat :| RecordsAt(existing, steps[..n], j, i);
      RecordsBefore(existing, steps, j, i);
      assert CallOk(s, s.calls[i]);
      assert j < n && RecordsAt(existing, steps, j, i) && CopiesAt(existing, steps, n);
    }
  }

  lemma RecordedFirstStays(existing: nat, steps: seq<Step>, i: nat)
    requires steps != [] && Feasible(existing, steps)
    ensures var n := |steps| - 1;
      RecordedFirst(existing, steps, i) <==>
        || RecordedFirst(existing, steps[..n], i)
        || (CopiesAt(existing, steps, n) && exists j: nat :: RecordsAt(existing, steps[..n], j, i))
  {
    var n := |steps| - 1;
    if j: nat, k: nat :| j < k && RecordsAt(existing, steps, j, i) && CopiesAt(existing, steps, k) {
      RecordsBefore(existing, steps, j, i);
      if k < n {
        CopiesBefore(existing, steps, k);
      }
    }
    if j: nat, k: nat :| j < k && RecordsAt(existing, steps[..n], j, i) && CopiesAt(existing, steps[..n], k) {
      RecordsBefore(existing, steps, j, i);
      CopiesBefore(existing, steps, k);
      assert RecordsAt(existing, steps, j, i) && CopiesAt(existing, steps, k);
    }
    if j: nat :| CopiesAt(existing, steps, n) && RecordsAt(existing, steps[..n], j, i) {
      RecordsBefore(existing, steps, j, i);
      assert RecordsAt(existing, steps, j, i) && CopiesAt(existing, steps, n);
    }
  }

  lemma StoredFirstStays(existing: nat, steps: seq<Step>, i: nat)
    requires steps != [] && Feasible(existing, steps)
    ensures var n := |steps| - 1;
      StoredFirst(existing, steps, i) <==>
        || StoredFirst(existing, steps[..n], i)
        || (ReadsAt(existing, steps, n, i) && exists j: nat :: StoresAt(existing, steps[..n], j))
  {
    var n := |steps| - 1;
    if j: nat, k: nat :| j < k && StoresAt(existing, steps, j) && ReadsAt(existing, steps, k, i) {
      StoresBefore(existing, steps, j);
      if k < n {
        ReadsBefore(existing, steps, k, i);
      }
    }
    if j: nat, k: nat :| j < k && StoresAt(existing, steps[..n], j) && ReadsAt(existing, steps[..n], k, i) {
      StoresBefore(existing, steps, j);
      ReadsBefore(existing, steps, k, i);
      assert StoresAt(existing, steps, j) && ReadsAt(existing, steps, k, i);
    }
    if j: nat :| ReadsAt(existing, steps, n, i) && StoresAt(existing, steps[..n], j) {
      StoresBefore(existing, steps, j);
      assert StoresAt(existing, steps, j) && ReadsAt(existing, steps, n, i);
    }
  }

  /** It has read the new connection if and only if it read after the connection was stored. */
  lemma {:induction false} RenewedIff(existing: nat, steps: seq<Step>, i: nat)
    requires Feasible(existing, steps) && i < |After(existing, steps).calls|
    requires var c := After(existing, steps).calls[i]; c.Picked? || c.Started?
    ensures After(existing, steps).calls[i].renewed <==> StoredFirst(existing, steps, i)
  {
    var n := |steps| - 1;
    var s := After(existing, steps[..n]);
    ReadWhen(existing, steps[..n], i);
    StoredWhen(existing, steps[..n]);
    StoredFirstStays(existing, steps, i);
    if i < |s.calls| && (s.calls[i].Picked? || s.calls[i].Started?) {
      RenewedIff(existing, steps[..n], i);
    }
  }

  /** The count in terms of the order of events: a Subscribe that returned nil beside a rebuild that
      succeeded has two loops on the new connection exactly when it recorded its subscription before
      the copy and read the connection after it was stored, and one otherwise. */
  lemma TwoLoopsIff(existing: nat, steps: seq<Step>, i: nat)
    requires Feasible(existing, steps) && i < |After(existing, steps).calls|
    requires After(existing, steps).rebuild.Restarted? && After(existing, steps).calls[i].Started?
    ensures var n := Sum(After(existing, steps).loops, OnNew(After(existing, steps).calls[i].id));
      n == if RecordedFirst(existing, steps, i) && StoredFirst(existing, steps, i) then 2 else 1
  {
    OneLoopOrTwo(existing, steps, i);
    CopiedIff(existing, steps, i);
    RenewedIff(existing, steps, i);
  }

  // ---------------------------------------------------------------- a run with two loops

  lemma Extend(existing: nat, steps: seq<Step>, step: Step) returns (longer: seq<Step>)
    requires Feasible(existing, steps) && Enabled(After(existing, steps), step)
    ensures longer == steps + [step] && Feasible(existing, longer)
    ensures After(existing, longer) == Next(After(existing, steps), step)
  {
    longer := steps + [step];
    assert longer[..|steps|] == steps;
  }

  lemma TwoLoops() returns (steps: seq<Step>)
    ensures Feasible(0, steps) && After(0, steps).rebuild.Restarted?
    ensures After(0, steps).calls == [Started(0, true)] && After(0, steps).loops == [Loop(0, true), Loop(0, true)]
  {
    steps := Extend(0, [], CallSubscribe);
    steps := Extend(0, steps, SubscribeMoves(0, true));
    steps := Extend(0, steps, RebuildMoves(true));
    steps := Extend(0, steps, RebuildMoves(true));
    assert After(0, steps).rebuild == Restarting(1, 0) && After(0, steps).calls == [Recorded(0)];
    steps := Extend(0, steps, RebuildMoves(true));
    assert After(0, steps).loops == [Loop(0, true)];
    steps := Extend(0, steps, RebuildMoves(true));
    steps := Extend(0, steps, SubscribeMoves(0, true));
    steps := Extend(0, steps, SubscribeMoves(0, true));
  }
}
