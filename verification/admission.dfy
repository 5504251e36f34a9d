/**
 The whole proxy as a step relation: any number of listeners and connection tasks, the shared
 semaphores and cancellation token, the clock, and the join loop of `run` (src/proxy.rs).
 */
module Admission {
  import opened Types
  import opened ConnectionPool

  const DRAIN_LIMIT: nat := 10 * SECOND

  /** Accept errors that are retried at once. */
  predicate IsTransient(e: ProxyError) {
    e.IoError? && (e.kind == ConnectionRefused || e.kind == ConnectionReset || e.kind == ConnectionAborted)
  }

  /**
   Reaping to Failing are the accept loop: clean up finished tasks; wait in `accept`; hold a socket and
   try the active semaphore; then the queue semaphore; or leave with a permanent error.
   */
  datatype Phase =
    | Reaping
    | Accepting
    | Judging(conn: Id)
    | Queueing(conn: Id)
    | Failing(error: ProxyError)
    | Draining(deadline: Instant, outcome: Result<Unit>)
    | Returned(outcome: Result<Unit>)
    | Panicked

  /** `connections` is the listener's JoinSet: live tasks and finished ones not yet joined. */
  datatype Listener = Listener(phase: Phase, connections: set<Id>)

  predicate InAcceptLoop(ph: Phase) {
    ph.Reaping? || ph.Accepting? || ph.Judging? || ph.Queueing? || ph.Failing?
  }

  predicate IsGone(ph: Phase) { ph.Returned? || ph.Panicked? }

  datatype State = State(
    maxConnections: nat, maxQueue: nat, pool: Pool, listeners: seq<Listener>,
    cancelled: bool, clock: Instant, nextId: Id, joined: seq<nat>)

  datatype Step =
    | Tick(time: Instant)
    | Signal                                  // a termination signal cancels the token
    | Reap(l: nat)
    | Accept(l: nat)
    | AcceptError(l: nat, error: ProxyError)
    | TryPermit(l: nat)
    | TryQueue(l: nat)
    | LeaveCancelled(l: nat)
    | LeaveFailed(l: nat)
    | JoinTask(l: nat, c: Id)
    | DrainDone(l: nat)
    | DrainTimeout(l: nat)
    | Panic(l: nat)
    | JoinListener(l: nat)
    | PollTask(c: Id)
    | ResumeTask(c: Id)
    | EndTask(c: Id)                          // normal end, error or panic
    | AbortTask(c: Id)

  function WithPhase(s: State, l: nat, ph: Phase): State
    requires l < |s.listeners|
  {
    s.(listeners := s.listeners[l := s.listeners[l].(phase := ph)])
  }

  function WithListener(s: State, l: nat, x: Listener): State
    requires l < |s.listeners|
  {
    s.(listeners := s.listeners[l := x])
  }

  function OutcomeOf(ph: Phase): Result<Unit>
    requires IsGone(ph)
  {
    match ph
    case Returned(outcome) => outcome
    case Panicked => Err(TaskCancellation)
  }

  predicate At(s: State, l: nat) { l < |s.listeners| }

  /** Timers fire on time: the clock does not pass the deadline of a listener still draining. */
  predicate MayPass(s: State, time: Instant) {
    forall l :: 0 <= l < |s.listeners| && s.listeners[l].phase.Draining? ==> s.clock + time <= s.listeners[l].phase.deadline
  }

  predicate Enabled(s: State, step: Step) {
    match step
    case Tick(time) => MayPass(s, time)
    case Signal => true
    case Reap(l) => At(s, l) && s.listeners[l].phase.Reaping?
    case Accept(l) => At(s, l) && s.listeners[l].phase.Accepting?
    case AcceptError(l, _) => At(s, l) && s.listeners[l].phase.Accepting?
    case TryPermit(l) => At(s, l) && s.listeners[l].phase.Judging?
    case TryQueue(l) => At(s, l) && s.listeners[l].phase.Queueing?
    case LeaveCancelled(l) => At(s, l) && s.listeners[l].phase.Accepting? && s.cancelled
    case LeaveFailed(l) => At(s, l) && s.listeners[l].phase.Failing?
    case JoinTask(l, c) => At(s, l) && s.listeners[l].phase.Draining? && c in s.listeners[l].connections && c !in s.pool.tasks
    case DrainDone(l) => At(s, l) && s.listeners[l].phase.Draining? && s.listeners[l].connections == {}
    case DrainTimeout(l) => At(s, l) && s.listeners[l].phase.Draining? && s.clock >= s.listeners[l].phase.deadline
    case Panic(l) => At(s, l) && !IsGone(s.listeners[l].phase)
    case JoinListener(l) => At(s, l) && IsGone(s.listeners[l].phase) && l !in s.joined
    case PollTask(c) => c in s.pool.tasks && s.pool.tasks[c].stage.Spawned?
    case ResumeTask(c) => c in s.pool.tasks && s.pool.tasks[c].stage.Handed?
    case EndTask(c) => c in s.pool.tasks && s.pool.tasks[c].stage.Active?
    case AbortTask(c) =>
      c in s.pool.tasks && At(s, s.pool.tasks[c].owner) && IsGone(s.listeners[s.pool.tasks[c].owner].phase)
  }

  ghost function Apply(s: State, step: Step): State
    requires Enabled(s, step)
  {
    match step
    case Tick(time) => s.(clock := s.clock + time)
    case Signal => s.(cancelled := true)
    case Reap(l) =>
      WithListener(s, l, Listener(Accepting, s.listeners[l].connections * s.pool.tasks.Keys))
    case Accept(l) => WithPhase(s, l, Judging(s.nextId)).(nextId := s.nextId + 1)
    case AcceptError(l, e) => WithPhase(s, l, if IsTransient(e) then Reaping else Failing(e))
    case TryPermit(l) =>
      var c := s.listeners[l].phase.conn;
      if s.pool.free > 0
      then WithListener(s, l, Listener(Reaping, s.listeners[l].connections + {c})).(pool := Admit(s.pool, c, l))
      else WithPhase(s, l, Queueing(c))
    case TryQueue(l) =>
      var c := s.listeners[l].phase.conn;
      if s.pool.queueFree > 0
      then WithListener(s, l, Listener(Reaping, s.listeners[l].connections + {c})).(pool := Enqueue(s.pool, c, l))
      else WithPhase(s, l, Reaping)
    case LeaveCancelled(l) => WithPhase(s, l, Draining(s.clock + DRAIN_LIMIT, Ok(Unit.Unit)))
    case LeaveFailed(l) =>
      WithPhase(s, l, Draining(s.clock + DRAIN_LIMIT, Err(s.listeners[l].phase.error))).(cancelled := true)
    case JoinTask(l, c) =>
      WithListener(s, l, s.listeners[l].(connections := s.listeners[l].connections - {c}))
    case DrainDone(l) => WithListener(s, l, Listener(Returned(s.listeners[l].phase.outcome), {}))
    case DrainTimeout(l) => WithListener(s, l, Listener(Returned(s.listeners[l].phase.outcome), {}))
    case Panic(l) => WithListener(s, l, Listener(Panicked, {}))
    case JoinListener(l) =>
      s.(joined := s.joined + [l], cancelled := s.cancelled || OutcomeOf(s.listeners[l].phase).Err?)
    case PollTask(c) => s.(pool := Poll(s.pool, c))
    case ResumeTask(c) => s.(pool := Resume(s.pool, c))
    case EndTask(c) => s.(pool := Drop(s.pool, c))
    case AbortTask(c) => s.(pool := Drop(s.pool, c))
  }

  ghost predicate Initial(s: State) {
    && s.pool == Pool(s.maxConnections, [], s.maxQueue, map[])
    && (forall l :: 0 <= l < |s.listeners| ==> s.listeners[l] == Listener(Accepting, {}))
    && s.joined == []
  }

  ghost predicate StepAt(states: seq<State>, steps: seq<Step>, i: nat)
    requires |states| == |steps| + 1 && i < |steps|
  {
    Enabled(states[i], steps[i]) && states[i + 1] == Apply(states[i], steps[i])
  }

  ghost predicate IsRun(states: seq<State>, steps: seq<Step>) {
    && |states| == |steps| + 1
    && forall i :: 0 <= i < |steps| ==> StepAt(states, steps, i)
  }

  // ---- The invariant ----

  predicate HasSocket(ph: Phase) { ph.Judging? || ph.Queueing? }

  /** A socket in hand is a fresh number, and no two listeners hold the same one. */
  ghost predicate FreshSockets(s: State) {
    && (forall c :: c in s.pool.tasks ==> c < s.nextId)
    && (forall l :: 0 <= l < |s.listeners| && HasSocket(s.listeners[l].phase) ==>
          s.listeners[l].phase.conn < s.nextId && s.listeners[l].phase.conn !in s.pool.tasks)
    && (forall l, k :: 0 <= l < k < |s.listeners| && HasSocket(s.listeners[l].phase) && HasSocket(s.listeners[k].phase) ==>
          s.listeners[l].phase.conn != s.listeners[k].phase.conn)
  }

  /** A live task is in its listener's set until that listener is gone. */
  ghost predicate Owned(s: State) {
    forall c :: c in s.pool.tasks ==>
      var l := s.pool.tasks[c].owner;
      l < |s.listeners| && (!IsGone(s.listeners[l].phase) ==> c in s.listeners[l].connections)
  }

  /** The set grows past the number of live tasks by at most one finished entry per iteration. */
  ghost predicate SetBounded(s: State, l: nat)
    requires l < |s.listeners|
  {
    var x := s.listeners[l];
    var live := s.maxConnections + s.maxQueue;
    |x.connections| <= if x.phase.Accepting? || HasSocket(x.phase) then live else live + 1
  }

  /** A listener that drains or has returned does so under a cancelled token, and within the limit. */
  ghost predicate Cancels(s: State) {
    && (forall l :: 0 <= l < |s.listeners| ==>
          var ph := s.listeners[l].phase;
          (ph.Draining? || ph.Returned?) ==> s.cancelled)
    && (forall l :: 0 <= l < |s.listeners| && s.listeners[l].phase.Draining? ==>
          s.clock <= s.listeners[l].phase.deadline <= s.clock + DRAIN_LIMIT)
  }

  ghost predicate JoinedAreGone(s: State) {
    && Distinct(s.joined)
    && forall k :: 0 <= k < |s.joined| ==>
         s.joined[k] < |s.listeners| && IsGone(s.listeners[s.joined[k]].phase)
         && (s.listeners[s.joined[k]].phase.Panicked? ==> s.cancelled)
  }

  ghost predicate Inv(s: State) {
    && PoolInv(s.pool, s.maxConnections, s.maxQueue)
    && FreshSockets(s) && Owned(s) && Cancels(s) && JoinedAreGone(s)
    && forall l :: 0 <= l < |s.listeners| ==> SetBounded(s, l)
  }

  lemma InitialInv(s: State)
    requires Initial(s)
    ensures Inv(s)
  {
    assert PermitHolders(s.pool.tasks) == {} && SlotHolders(s.pool.tasks) == {};
  }

  lemma StepKeepsPool(s: State, step: Step)
    requires PoolInv(s.pool, s.maxConnections, s.maxQueue) && FreshSockets(s) && Enabled(s, step)
    ensures PoolInv(Apply(s, step).pool, s.maxConnections, s.maxQueue)
  {
    var mc, mq := s.maxConnections, s.maxQueue;
    match step
    case TryPermit(l) => if s.pool.free > 0 { AdmitKeeps(s.pool, s.listeners[l].phase.conn, l, mc, mq); }
    case TryQueue(l) => if s.pool.queueFree > 0 { EnqueueKeeps(s.pool, s.listeners[l].phase.conn, l, mc, mq); }
    case PollTask(c) => PollKeeps(s.pool, c, mc, mq);
    case ResumeTask(c) => ResumeKeeps(s.pool, c, mc, mq);
    case EndTask(c) => DropKeeps(s.pool, c, mc, mq);
    case AbortTask(c) => DropKeeps(s.pool, c, mc, mq);
    case _ =>
  }

  predicate IsTaskStep(step: Step) {
    step.PollTask? || step.ResumeTask? || step.EndTask? || step.AbortTask?
  }

  predicate IsAcceptStep(step: Step) {
    step.Accept? || step.TryPermit? || step.TryQueue?
  }

  /** What a step of a connection task may do to the table: no new entry, no new owner. */
  lemma TaskStepsAddNothing(s: State, step: Step)
    requires Enabled(s, step) && IsTaskStep(step)
    requires QueueInv(s.pool)
    ensures Apply(s, step) == s.(pool := Apply(s, step).pool)
    ensures forall c :: c in Apply(s, step).pool.tasks ==>
              c in s.pool.tasks && Apply(s, step).pool.tasks[c].owner == s.pool.tasks[c].owner
  {
    assert s.pool.waiters != [] ==> s.pool.waiters[0] in s.pool.waiters;
  }

  lemma AcceptKeepsSockets(s: State, l: nat)
    requires FreshSockets(s) && Enabled(s, Accept(l))
    ensures FreshSockets(Apply(s, Accept(l)))
  {}

  lemma PermitKeepsSockets(s: State, l: nat)
    requires FreshSockets(s) && Enabled(s, TryPermit(l))
    ensures FreshSockets(Apply(s, TryPermit(l)))
  {}

  lemma QueueKeepsSockets(s: State, l: nat)
    requires FreshSockets(s) && Enabled(s, TryQueue(l))
    ensures FreshSockets(Apply(s, TryQueue(l)))
  {}

  /** Every other step takes no new socket in hand and starts no task. */
  lemma OthersKeepSockets(s: State, step: Step)
    requires QueueInv(s.pool) && FreshSockets(s) && Enabled(s, step) && !IsAcceptStep(step)
    ensures FreshSockets(Apply(s, step))
  {
    var after := Apply(s, step);
    if IsTaskStep(step) {
      TaskStepsAddNothing(s, step);
    } else {
      assert after.pool == s.pool;
      assert forall l :: 0 <= l < |s.listeners| && HasSocket(after.listeners[l].phase) ==>
          after.listeners[l].phase == s.listeners[l].phase;
    }
  }

  lemma StepKeepsSockets(s: State, step: Step)
    requires QueueInv(s.pool) && FreshSockets(s) && Enabled(s, step)
    ensures FreshSockets(Apply(s, step))
  {
    match step
    case Accept(l) => AcceptKeepsSockets(s, l);
    case TryPermit(l) => PermitKeepsSockets(s, l);
    case TryQueue(l) => QueueKeepsSockets(s, l);
    case _ => OthersKeepSockets(s, step);
  }

  lemma StepKeepsOwned(s: State, step: Step)
    requires QueueInv(s.pool) && Owned(s) && Enabled(s, step)
    ensures Owned(Apply(s, step))
  {
    if IsTaskStep(step) {
      TaskStepsAddNothing(s, step);
    } else {
      StepKeepsLocalOwned(s, step);
    }
  }

  lemma StepKeepsLocalOwned(s: State, step: Step)
    requires Owned(s) && Enabled(s, step) && !IsTaskStep(step)
    ensures Owned(Apply(s, step))
  {
    match step
    case TryPermit(l) => PermitKeepsOwned(s, l);
    case TryQueue(l) => QueueKeepsOwned(s, l);
    case _ =>
  }

  lemma PermitKeepsOwned(s: State, l: nat)
    requires Owned(s) && Enabled(s, TryPermit(l))
    ensures Owned(Apply(s, TryPermit(l)))
  {}

  lemma QueueKeepsOwned(s: State, l: nat)
    requires Owned(s) && Enabled(s, TryQueue(l))
    ensures Owned(Apply(s, TryQueue(l)))
  {}

  lemma StepKeepsCancels(s: State, step: Step)
    requires Cancels(s) && Enabled(s, step)
    ensures Cancels(Apply(s, step))
  {}

  lemma StepKeepsJoined(s: State, step: Step)
    requires JoinedAreGone(s) && Enabled(s, step)
    ensures JoinedAreGone(Apply(s, step))
  {}

  lemma StepKeepsBound(s: State, step: Step, l: nat)
    requires Conserved(s.pool, s.maxConnections, s.maxQueue) && l < |s.listeners| && SetBounded(s, l) && Enabled(s, step)
    ensures SetBounded(Apply(s, step), l)
  {
    if step == Reap(l) {
      LiveBound(s.pool, s.maxConnections, s.maxQueue);
      SubsetSize(s.listeners[l].connections * s.pool.tasks.Keys, s.pool.tasks.Keys);
    }
  }

  lemma SubsetSize(a: set<Id>, b: set<Id>)
    requires a <= b
    ensures |a| <= |b|
  {
    assert b == a + (b - a);
  }

  lemma StepKeepsInv(s: State, step: Step)
    requires Inv(s) && Enabled(s, step)
    ensures Inv(Apply(s, step)) && |Apply(s, step).listeners| == |s.listeners|
    ensures Apply(s, step).maxConnections == s.maxConnections && Apply(s, step).maxQueue == s.maxQueue
  {
    StepKeepsPool(s, step);
    StepKeepsSockets(s, step);
    StepKeepsOwned(s, step);
    StepKeepsCancels(s, step);
    StepKeepsJoined(s, step);
    forall l | 0 <= l < |s.listeners| ensures SetBounded(Apply(s, step), l) {
      StepKeepsBound(s, step, l);
    }
  }
}
