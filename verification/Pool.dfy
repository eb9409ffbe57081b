/** The goroutine pool as a system of interleaved atomic steps.

    A state holds the shared fields of the pool, the position of every Submit, Wait, Close
    and IsClosed call and of every worker, and the history of what happened to each task.  Every
    position has one next step, so a run is a sequence of scheduling decisions.  A task may call
    back into the pool; it cannot end before its call has returned. */
module Pool {
  import opened Sums

  /** The argument of one Submit call; the call number tells equal functions apart. */
  datatype Task = Task(call: nat, isNil: bool)

  /** Where a call stands.  Wait and Close have the same body and share the Close positions. */
  datatype Call =
    | SubmitCalled(task: Task)     // before RLock
    | SubmitLocked(task: Task)     // read lock held, `closed` not tested yet
    | SubmitOpen(task: Task)       // `closed` was false, before the select
    | SubmitInline(task: Task)     // running the task under the read lock
    | SubmitUnlocking(task: Task)  // before RUnlock
    | SubmitDone(task: Task)
    | CloseCalled                  // before Lock
    | CloseAnnounced               // the pending writer: new readers wait
    | CloseLocked                  // write lock held, `closed` not tested yet
    | CloseChanClosed              // task channel closed, `closed` not set yet
    | CloseUnlocking               // before Unlock
    | CloseWaiting                 // in wg.Wait
    | CloseDone
    | QueryCalled                  // IsClosed before RLock
    | QueryLocked                  // read lock held, `closed` not read yet
    | QueryDone(answer: bool)

  /** Who makes a call: a goroutine outside the pool, or a task that runs and waits for its call. */
  datatype Caller = Outside | ByTask(task: Task)

  datatype Worker = Receiving | Running(task: Task) | Leaving | Gone

  /** A writer-preferring lock: `writer` is the call that announced itself, `held` says
      whether the readers before it have left. */
  datatype RWMutex = RWMutex(readers: set<nat>, writer: Writer, held: bool)
  datatype Writer = NoWriter | By(call: nat)

  datatype State = State(
    size: nat,
    queue: seq<Task>,
    chanClosed: bool,
    closed: bool,
    wg: int,
    mu: RWMutex,
    calls: seq<Call>,
    callers: seq<Caller>,       // who made each call
    workers: seq<Worker>,
    panicked: bool,             // send on or close of a closed channel, negative wait group
    log: Log)

  /** The history of a run. */
  datatype Log = Log(
    enqueued: seq<Task>,        // sends, in order
    dequeued: seq<Task>,        // receives, in order
    inlined: set<Task>,         // tasks the select turned away from the queue
    dropped: set<Task>,         // tasks turned away because the pool was closed
    started: multiset<Task>,
    finished: multiset<Task>)

  /** New calls come from outside; Advance and Work are the next step of a call or worker. */
  datatype Step = CallSubmit(isNil: bool, caller: Caller) | CallClose(caller: Caller) | CallQuery(caller: Caller)
                | Advance(call: nat) | Work(worker: nat)

  function Initial(size: nat): State {
    State(size, [], false, false, size, RWMutex({}, NoWriter, false), [], [],
          seq(size, _ => Receiving), false, Log([], [], {}, {}, multiset{}, multiset{}))
  }

  // ---------------------------------------------------------------- steps

  predicate Returned(c: Call) { c.SubmitDone? || c.CloseDone? || c.QueryDone? }

  predicate IsSubmit(c: Call) {
    c.SubmitCalled? || c.SubmitLocked? || c.SubmitOpen? || c.SubmitInline? || c.SubmitUnlocking? || c.SubmitDone?
  }

  predicate IsQuery(c: Call) { c.QueryCalled? || c.QueryLocked? || c.QueryDone? }

  /** Wait or Close. */
  predicate IsClose(c: Call) { !IsSubmit(c) && !IsQuery(c) }

  /** The call is about to take the read lock. */
  predicate WantsRead(c: Call) { c.SubmitCalled? || c.QueryCalled? }

  predicate HoldsRead(c: Call) {
    c.SubmitLocked? || c.SubmitOpen? || c.SubmitInline? || c.SubmitUnlocking? || c.QueryLocked?
  }

  predicate HoldsWrite(c: Call) { c.CloseLocked? || c.CloseChanClosed? || c.CloseUnlocking? }

  predicate Enabled(s: State, step: Step) {
    match step
    case CallSubmit(_, caller) => MayCall(s, caller)
    case CallClose(caller) => MayCall(s, caller)
    case CallQuery(caller) => MayCall(s, caller)
    case Advance(t) => t < |s.calls| && CanAdvance(s, s.calls[t])
    case Work(w) => w < |s.workers| && CanWork(s, s.workers[w])
  }

  predicate RunningIn(s: State, task: Task) {
    || (exists w: nat :: w < |s.workers| && s.workers[w] == Running(task))
    || (exists t: nat :: t < |s.calls| && s.calls[t] == SubmitInline(task))
  }

  /** The call was made by the task and has not returned. */
  predicate PendingFor(s: State, u: nat, task: Task) {
    u < |s.calls| && u < |s.callers| && s.callers[u] == ByTask(task) && !Returned(s.calls[u])
  }

  /** The task is inside a call of its own. */
  predicate Busy(s: State, task: Task) { exists u: nat :: u < |s.calls| && PendingFor(s, u, task) }

  /** A task makes one call after the other while it runs. */
  predicate MayCall(s: State, caller: Caller) { caller.ByTask? ==> RunningIn(s, caller.task) && !Busy(s, caller.task) }

  predicate CanAdvance(s: State, c: Call) {
    match c
    case SubmitCalled(_) => s.mu.writer.NoWriter?
    case CloseCalled => s.mu.writer.NoWriter?
    case QueryCalled => s.mu.writer.NoWriter?
    case CloseAnnounced => s.mu.readers == {}
    case SubmitInline(task) => !Busy(s, task)
    case CloseWaiting => s.wg == 0
    case _ => !Returned(c)
  }

  predicate CanWork(s: State, w: Worker) {
    match w
    case Receiving => s.queue != [] || s.chanClosed
    case Running(task) => !Busy(s, task)
    case _ => !w.Gone?
  }

  function Next(s: State, step: Step): State
    requires Enabled(s, step)
  {
    match step
    case CallSubmit(isNil, caller) =>
      s.(calls := s.calls + [SubmitCalled(Task(|s.calls|, isNil))], callers := s.callers + [caller])
    case CallClose(caller) => s.(calls := s.calls + [CloseCalled], callers := s.callers + [caller])
    case CallQuery(caller) => s.(calls := s.calls + [QueryCalled], callers := s.callers + [caller])
    case Advance(t) => AdvanceCall(s, t)
    case Work(w) => AdvanceWorker(s, w)
  }

  function AdvanceCall(s: State, t: nat): State
    requires t < |s.calls|
  {
    if IsSubmit(s.calls[t]) then AdvanceSubmit(s, t, s.calls[t].task)
    else if IsQuery(s.calls[t]) then AdvanceQuery(s, t)
    else AdvanceClose(s, t)
  }

  /** IsClosed.  The flag cannot change under the read lock, so reading it and unlocking is one step. */
  function AdvanceQuery(s: State, t: nat): State
    requires t < |s.calls|
  {
    match s.calls[t]
    case QueryCalled => s.(mu := s.mu.(readers := s.mu.readers + {t}), calls := s.calls[t := QueryLocked])
    case QueryLocked => s.(mu := s.mu.(readers := s.mu.readers - {t}), calls := s.calls[t := QueryDone(s.closed)])
    case _ => s
  }

  function AdvanceSubmit(s: State, t: nat, task: Task): State
    requires t < |s.calls| && IsSubmit(s.calls[t]) && s.calls[t].task == task
  {
    match s.calls[t]
    case SubmitCalled(_) =>
      s.(mu := s.mu.(readers := s.mu.readers + {t}), calls := s.calls[t := SubmitLocked(task)])
    case SubmitLocked(_) =>
      if s.closed then
        s.(log := s.log.(dropped := s.log.dropped + {task}), calls := s.calls[t := SubmitUnlocking(task)])
      else s.(calls := s.calls[t := SubmitOpen(task)])
    case SubmitOpen(_) => Select(s, t, task)
    case SubmitInline(_) =>
      s.(log := s.log.(finished := s.log.finished + multiset{task}), calls := s.calls[t := SubmitUnlocking(task)])
    case SubmitUnlocking(_) =>
      s.(mu := s.mu.(readers := s.mu.readers - {t}), calls := s.calls[t := SubmitDone(task)])
    case _ => s
  }

  /** The select of Submit: send when there is room, else run the task here. */
  function Select(s: State, t: nat, task: Task): State
    requires t < |s.calls|
  {
    if s.chanClosed then s.(panicked := true)
    else if |s.queue| < s.size then
      s.(queue := s.queue + [task], log := s.log.(enqueued := s.log.enqueued + [task]),
         calls := s.calls[t := SubmitUnlocking(task)])
    else if task.isNil then
      s.(log := s.log.(inlined := s.log.inlined + {task}), calls := s.calls[t := SubmitUnlocking(task)])
    else
      s.(log := s.log.(inlined := s.log.inlined + {task}, started := s.log.started + multiset{task}),
         calls := s.calls[t := SubmitInline(task)])
  }

  function AdvanceClose(s: State, t: nat): State
    requires t < |s.calls|
  {
    match s.calls[t]
    case CloseCalled =>
      s.(mu := s.mu.(writer := By(t)), calls := s.calls[t := CloseAnnounced])
    case CloseAnnounced =>
      s.(mu := s.mu.(held := true), calls := s.calls[t := CloseLocked])
    case CloseLocked =>
      if s.closed then s.(calls := s.calls[t := CloseUnlocking])
      else if s.chanClosed then s.(panicked := true)
      else s.(chanClosed := true, calls := s.calls[t := CloseChanClosed])
    case CloseChanClosed =>
      s.(closed := true, calls := s.calls[t := CloseUnlocking])
    case CloseUnlocking =>
      s.(mu := s.mu.(writer := NoWriter, held := false), calls := s.calls[t := CloseWaiting])
    case CloseWaiting =>
      s.(calls := s.calls[t := CloseDone])
    case _ => s
  }

  function AdvanceWorker(s: State, w: nat): State
    requires w < |s.workers|
  {
    match s.workers[w]
    case Receiving =>
      if s.queue == [] then s.(workers := s.workers[w := Leaving])
      else
        var task := s.queue[0];
        var s' := s.(queue := s.queue[1..], log := s.log.(dequeued := s.log.dequeued + [task]));
        if task.isNil then s'
        else s'.(log := s'.log.(started := s.log.started + multiset{task}), workers := s.workers[w := Running(task)])
    case Running(task) =>
      s.(log := s.log.(finished := s.log.finished + multiset{task}), workers := s.workers[w := Receiving])
    case Leaving =>
      s.(wg := s.wg - 1, panicked := s.panicked || s.wg <= 0, workers := s.workers[w := Gone])
    case Gone => s
  }

  // ---------------------------------------------------------------- runs

  /** The steps can be taken one after the other from a new pool. */
  predicate Feasible(size: nat, steps: seq<Step>)
    decreases |steps|, 0
  {
    steps == [] ||
    (var n := |steps| - 1; Feasible(size, steps[..n]) && Enabled(After(size, steps[..n]), steps[n]))
  }

  function After(size: nat, steps: seq<Step>): State
    requires Feasible(size, steps)
    decreases |steps|, 1
  {
    if steps == [] then Initial(size)
    else var n := |steps| - 1; Next(After(size, steps[..n]), steps[n])
  }

  // ---------------------------------------------------------------- invariant

  ghost predicate LockInv(s: State) {
    && (forall t: nat :: t in s.mu.readers <==> t < |s.calls| && HoldsRead(s.calls[t]))
    && (forall t: nat :: t < |s.calls| ==>
          (s.mu.writer == By(t) <==> HoldsWrite(s.calls[t]) || s.calls[t].CloseAnnounced?))
    && (s.mu.writer.By? ==> s.mu.writer.call < |s.calls|)
    && (s.mu.held <==> s.mu.writer.By? && HoldsWrite(s.calls[s.mu.writer.call]))
    && (s.mu.held ==> s.mu.readers == {})
  }

  ghost predicate ClosingInv(s: State) {
    && !s.panicked
    && (s.closed ==> s.chanClosed)
    && (s.chanClosed && !s.closed ==>
          s.mu.writer.By? && s.mu.writer.call < |s.calls| && s.calls[s.mu.writer.call].CloseChanClosed?)
    && (forall t: nat :: t < |s.calls| ==> CallClosing(s, s.calls[t]))
  }

  /** What a call's position says about the two closing flags. */
  ghost predicate CallClosing(s: State, c: Call) {
    && (c.SubmitOpen? || c.SubmitInline? ==> !s.chanClosed)
    && (c.CloseChanClosed? ==> s.chanClosed && !s.closed)
    && (c.CloseUnlocking? || c.CloseWaiting? || c.CloseDone? ==> s.closed)
    && (c.CloseDone? ==> s.wg == 0)
    && (c == QueryDone(true) ==> s.closed)
  }

  function Present(w: Worker): nat { if w.Gone? then 0 else 1 }

  ghost predicate WorkerInv(s: State) {
    && |s.workers| == s.size
    && s.wg == Sum(s.workers, Present)
    && (forall w: nat :: w < |s.workers| && (s.workers[w].Leaving? || s.workers[w].Gone?) ==>
          s.chanClosed && s.queue == [])
  }

  ghost predicate QueueInv(s: State) {
    && |s.queue| <= s.size
    && s.log.enqueued == s.log.dequeued + s.queue
    && (forall i, j :: 0 <= i < j < |s.log.enqueued| ==> s.log.enqueued[i] != s.log.enqueued[j])
  }

  /** A Submit past its decision left its task in exactly one of three places. */
  predicate Decided(c: Call) { c.SubmitInline? || c.SubmitUnlocking? || c.SubmitDone? }

  ghost predicate Issued(s: State, task: Task) {
    task.call < |s.calls| && IsSubmit(s.calls[task.call]) && s.calls[task.call].task == task
  }

  ghost predicate DecidedFor(s: State, task: Task) {
    Issued(s, task) && Decided(s.calls[task.call])
  }

  ghost predicate PlaceInv(s: State) {
    && (forall t: nat :: t < |s.calls| && IsSubmit(s.calls[t]) ==> s.calls[t].task.call == t)
    && (forall task :: task in s.log.enqueued ==>
          DecidedFor(s, task) && task !in s.log.inlined && task !in s.log.dropped)
    && (forall task :: task in s.log.inlined ==> DecidedFor(s, task) && task !in s.log.dropped)
    && (forall task :: task in s.log.dropped ==> DecidedFor(s, task) && s.closed)
    && (forall t: nat :: t < |s.calls| && Decided(s.calls[t]) ==>
          var task := s.calls[t].task;
          task in s.log.enqueued || task in s.log.inlined || task in s.log.dropped)
    && (forall t: nat :: t < |s.calls| && s.calls[t].SubmitInline? ==> s.calls[t].task in s.log.inlined)
  }

  ghost predicate RunInv(s: State) {
    && (forall task :: s.log.started[task] ==
          if !task.isNil && (task in s.log.dequeued || task in s.log.inlined) then 1 else 0)
    && (forall task :: s.log.finished[task] ==
          if s.log.started[task] == 1 && !RunningIn(s, task) then 1 else 0)
    && (forall w: nat :: w < |s.workers| && s.workers[w].Running? ==>
          s.workers[w].task in s.log.dequeued && !s.workers[w].task.isNil)
    && (forall t: nat :: t < |s.calls| && s.calls[t].SubmitInline? ==> !s.calls[t].task.isNil)
    && (forall v: nat, w: nat :: v < w < |s.workers| && s.workers[v].Running? ==> s.workers[v] != s.workers[w])
  }

  /** A task that has a call pending is still running, and was submitted before it made the call. */
  ghost predicate CallerInv(s: State) {
    && |s.callers| == |s.calls|
    && (forall u: nat :: u < |s.callers| && s.callers[u].ByTask? ==> s.callers[u].task.call < u)
    && (forall u: nat, task :: PendingFor(s, u, task) ==> RunningIn(s, task))
  }

  ghost predicate Inv(s: State) {
    LockInv(s) && ClosingInv(s) && WorkerInv(s) && QueueInv(s) && PlaceInv(s) && RunInv(s) && CallerInv(s)
  }
}
