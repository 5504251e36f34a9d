/**
 The proxy server as it runs: shared semaphores, listener tasks and the join loop, with every atomic
 action one step of the `Admission` relation (src/proxy.rs).
 */
module ProxyServer {
  import opened Types
  import opened ConnectionPool
  import opened Admission
  import Runs = AdmissionRuns
  import Shutdown
  import Network
  import Configuration

  /** A fair counting semaphore. Waiters are served in the order they registered. */
  class Semaphore {
    var permits: nat
    var queue: seq<Id>

    constructor (permits: nat)
      ensures this.permits == permits && queue == []
    {
      this.permits, queue := permits, [];
    }

    method TryAcquire() returns (ok: bool)
      modifies this`permits
      ensures ok <==> old(permits) > 0
      ensures permits == if ok then old(permits) - 1 else old(permits)
    {
      ok := permits > 0;
      if ok {
        permits := permits - 1;
      }
    }

    /** First poll of an acquire: take a permit or join the queue. */
    method PollAcquire(c: Id) returns (granted: bool)
      modifies this
      ensures granted <==> old(permits) > 0
      ensures granted ==> permits == old(permits) - 1 && queue == old(queue)
      ensures !granted ==> permits == old(permits) && queue == old(queue) + [c]
    {
      granted := permits > 0;
      if granted {
        permits := permits - 1;
      } else {
        queue := queue + [c];
      }
    }

    /** Return a permit: the longest waiter is handed it, if there is one. */
    method Release() returns (next: Option<Id>)
      modifies this
      ensures old(queue) == [] ==> next == None && permits == old(permits) + 1 && queue == []
      ensures old(queue) != [] ==> next == Some(old(queue)[0]) && permits == old(permits) && queue == old(queue)[1..]
    {
      if queue == [] {
        permits := permits + 1;
        return None;
      }
      next := Some(queue[0]);
      queue := queue[1..];
    }

    /** A waiter is dropped. */
    method Forget(c: Id)
      modifies this`queue
      ensures queue == Without(old(queue), c)
      ensures c !in old(queue) ==> queue == old(queue)
      ensures c in old(queue) ==> LeavesQueue(old(queue), c, queue)
    {
      var i := 0;
      while i < |queue| && queue[i] != c
        invariant i <= |queue|
        invariant c !in queue[..i]
        invariant Without(queue, c) == queue[..i] + Without(queue[i..], c)
      {
        assert queue[i..][1..] == queue[i + 1..];
        i := i + 1;
      }
      if i < |queue| {
        assert queue[i..][1..] == queue[i + 1..];
        queue := queue[..i] + queue[i + 1..];
      }
    }
  }

  /** A waiter leaves the queue; the others keep their order. */
  ghost predicate LeavesQueue(before: seq<Id>, c: Id, after: seq<Id>) {
    exists i :: 0 <= i < |before| && before[i] == c && after == before[..i] + before[i + 1..]
  }

  /** Between two states listener l started a task for the connection. */
  ghost predicate Starts(before: State, after: State, l: nat, c: Id, stage: Stage) {
    && l < |before.listeners| && |after.listeners| == |before.listeners|
    && c !in before.pool.tasks && after.pool.tasks == before.pool.tasks[c := Task(l, stage)]
    && after.listeners[l].connections == before.listeners[l].connections + {c}
    && after.pool.waiters == before.pool.waiters
  }

  /**
   What became of socket c: with a permit free in state p it started at once and holds it; else with a
   slot free in state q it was spawned to wait and holds that; else nothing was started for it.
   */
  ghost predicate IsPlaced(states: seq<State>, p: nat, q: nat, l: nat, c: Id, r: AcceptResult)
    requires p + 1 < |states|
  {
    if states[p].pool.free > 0 then
      && Starts(states[p], states[p + 1], l, c, Active) && r == Connected
      && states[p + 1].pool.free == states[p].pool.free - 1 && states[p + 1].pool.queueFree == states[p].pool.queueFree
    else
      states[p + 1].pool == states[p].pool && p < q && q + 1 < |states| && IsQueued(states, q, l, c, r)
  }

  ghost predicate IsQueued(states: seq<State>, q: nat, l: nat, c: Id, r: AcceptResult)
    requires q + 1 < |states|
  {
    if states[q].pool.queueFree > 0 then
      && Starts(states[q], states[q + 1], l, c, Spawned) && r == Connected
      && states[q + 1].pool.queueFree == states[q].pool.queueFree - 1 && states[q + 1].pool.free == states[q].pool.free
    else
      states[q + 1].pool == states[q].pool && c !in states[q].pool.tasks && r == RejectedTooManyConnections
  }

  /** What `accept` has answered listener l, in order: sockets and errors. */
  function Answered(steps: seq<Step>, l: nat): seq<Option<ProxyError>> {
    if steps == [] then []
    else
      Answered(steps[..|steps| - 1], l) +
      match steps[|steps| - 1]
      case Accept(k) => if k == l then [None] else []
      case AcceptError(k, e) => if k == l then [Some(e)] else []
      case _ => []
  }

  lemma AnsweredPlus(steps: seq<Step>, step: Step, l: nat)
    ensures !IsOwn(step, l) || !(step.Accept? || step.AcceptError?) ==> Answered(steps + [step], l) == Answered(steps, l)
    ensures step == Accept(l) ==> Answered(steps + [step], l) == Answered(steps, l) + [None]
    ensures step.AcceptError? && step.l == l ==> Answered(steps + [step], l) == Answered(steps, l) + [Some(step.error)]
  {
    assert (steps + [step])[..|steps|] == steps;
  }

  datatype AcceptResult = Connected | RetryImmediately | RejectedTooManyConnections | PermanentError(error: ProxyError)

  /** The step is taken by listener l's own task. */
  predicate IsOwn(step: Step, l: nat) {
    match step
    case Tick(_) => false
    case Signal => false
    case JoinListener(_) => false
    case PollTask(_) => false
    case ResumeTask(_) => false
    case EndTask(_) => false
    case AbortTask(_) => false
    case _ => step.l == l
  }

  lemma OthersLeaveListener(s: State, step: Step, l: nat)
    requires Enabled(s, step) && l < |s.listeners|
    ensures |Apply(s, step).listeners| == |s.listeners|
    ensures !IsOwn(step, l) || IsGone(s.listeners[l].phase) ==> Apply(s, step).listeners[l] == s.listeners[l]
  {}

  lemma OnlyRunJoins(s: State, step: Step)
    requires Enabled(s, step) && !step.JoinListener?
    ensures Apply(s, step).joined == s.joined && |Apply(s, step).listeners| == |s.listeners|
  {}

  lemma {:induction false} FirstErrorStable(s: State, t: State, joined: seq<nat>)
    requires forall k :: 0 <= k < |joined| ==> joined[k] < |s.listeners| && IsGone(s.listeners[joined[k]].phase)
    requires forall k :: 0 <= k < |joined| ==> joined[k] < |t.listeners| && t.listeners[joined[k]] == s.listeners[joined[k]]
    ensures Runs.FirstError(s, joined) == Runs.FirstError(t, joined)
  {
    if joined != [] {
      FirstErrorStable(s, t, joined[..|joined| - 1]);
    }
  }

  function AsResult(firstError: Option<ProxyError>): Result<Unit> {
    match firstError
    case None => Ok(Unit.Unit)
    case Some(e) => Err(e)
  }

  lemma UnitIsUnit(r: Result<Unit>)
    ensures r.Ok? ==> r == Ok(Unit.Unit)
  {
    if r.Ok? {
      match r.value
      case Unit =>
    }
  }

  /** The accept errors a listener survives. */
  predicate Survives(e: ProxyError) {
    e == IoError(ConnectionRefused) || e == IoError(ConnectionReset) || e == IoError(ConnectionAborted)
  }

  /** Sockets and transient errors: the accept loop goes on after each of these answers. */
  ghost predicate AllSurvived(answers: seq<Option<ProxyError>>) {
    forall k :: 0 <= k < |answers| && answers[k].Some? ==> Survives(answers[k].value)
  }

  /** How the accept loop ended on these answers: cancelled, or with the permanent error that came last. */
  ghost predicate IsOutcome(answers: seq<Option<ProxyError>>, res: Result<Unit>) {
    match res
    case Ok(_) => AllSurvived(answers)
    case Err(e) =>
      answers != [] && AllSurvived(answers[..|answers| - 1]) && answers[|answers| - 1] == Some(e) && !Survives(e)
  }

  /** An I/O error while binding is reported as a bind error on that port; others pass through. */
  function IntoBindError(e: ProxyError, port: Port): ProxyError {
    if e.IoError? then BindError(port, e.kind) else e
  }

  class Proxy {
    const maxConnections: nat
    const maxQueue: nat
    const openConnections: Semaphore
    const queuedConnections: Semaphore
    var tasks: map<Id, Task>
    var listeners: seq<Listener>
    var cancelled: bool
    var clock: Instant
    var nextId: Id
    var joined: seq<nat>
    ghost var states: seq<State>
    ghost var steps: seq<Step>

    function View(): State
      reads this, openConnections, queuedConnections
    {
      State(maxConnections, maxQueue,
            Pool(openConnections.permits, openConnections.queue, queuedConnections.permits, tasks),
            listeners, cancelled, clock, nextId, joined)
    }

    /** The recorded steps are a run from a fresh start to the present state. */
    ghost predicate Valid()
      reads this, openConnections, queuedConnections
    {
      && openConnections != queuedConnections && queuedConnections.queue == []
      && IsRun(states, steps) && Initial(states[0]) && states[|steps|] == View()
    }

    /** Fresh semaphores, and one listener spawned per bound port. */
    constructor (maxConnections: nat, maxQueue: nat, ports: nat)
      ensures Valid() && states == [View()] && steps == []
      ensures fresh(openConnections) && fresh(queuedConnections)
      ensures this.maxConnections == maxConnections && this.maxQueue == maxQueue && |listeners| == ports
      ensures openConnections.permits == maxConnections && queuedConnections.permits == maxQueue && joined == []
    {
      this.maxConnections, this.maxQueue := maxConnections, maxQueue;
      openConnections := new Semaphore(maxConnections);
      queuedConnections := new Semaphore(maxQueue);
      tasks, cancelled, clock, nextId, joined := map[], false, 0, 0, [];
      listeners := seq(ports, _ => Listener(Accepting, {}));
      steps := [];
      new;
      states := [View()];
    }

    /** One step of the relation has just been taken. */
    twostate predicate Took(step: Step)
      reads this, openConnections, queuedConnections
    {
      && Valid() && steps == old(steps) + [step] && states == old(states) + [View()]
      && old(Enabled(View(), step)) && View() == Apply(old(View()), step)
    }

    ghost method Record(step: Step)
      requires openConnections != queuedConnections && queuedConnections.queue == []
      requires IsRun(states, steps) && Initial(states[0])
      requires Enabled(states[|steps|], step) && View() == Apply(states[|steps|], step)
      modifies this`states, this`steps
      ensures Valid() && steps == old(steps) + [step] && states == old(states) + [View()]
    {
      RunAppend(states, steps, step);
      states, steps := states + [View()], steps + [step];
    }

    // ---- The listener's actions ----

    /** The `try_join_next` loop: drop the finished entries of the set. */
    method Reap(l: nat)
      requires Valid() && l < |listeners| && listeners[l].phase.Reaping?
      modifies this`listeners, this`states, this`steps
      ensures Took(Step.Reap(l))
      ensures listeners == old(listeners)[l := Listener(Accepting, old(listeners[l].connections) * tasks.Keys)]
    {
      var connections := listeners[l].connections;
      while exists c :: c in connections && c !in tasks
        invariant connections <= listeners[l].connections
        invariant connections * tasks.Keys == listeners[l].connections * tasks.Keys
        decreases |connections|
      {
        var c :| c in connections && c !in tasks;
        connections := connections - {c};
      }
      assert connections == listeners[l].connections * tasks.Keys;
      listeners := listeners[l := Listener(Accepting, connections)];
      Record(Step.Reap(l));
    }

    method TakeSocket(l: nat)
      requires Valid() && l < |listeners| && listeners[l].phase.Accepting?
      modifies this`listeners, this`nextId, this`states, this`steps
      ensures Took(Accept(l)) && nextId == old(nextId) + 1
      ensures listeners == old(listeners)[l := Listener(Judging(old(nextId)), old(listeners[l].connections))]
    {
      listeners := listeners[l := listeners[l].(phase := Judging(nextId))];
      nextId := nextId + 1;
      Record(Accept(l));
    }

    /** Refused, reset and aborted connections are retried; any other error is permanent. */
    method ClassifyError(l: nat, e: ProxyError) returns (r: AcceptResult)
      requires Valid() && l < |listeners| && listeners[l].phase.Accepting?
      modifies this`listeners, this`states, this`steps
      ensures Took(AcceptError(l, e))
      ensures var retry := e == IoError(ConnectionRefused) || e == IoError(ConnectionReset) || e == IoError(ConnectionAborted);
        && r == (if retry then RetryImmediately else PermanentError(e))
        && listeners == old(listeners)[l := Listener(if retry then Reaping else Failing(e), old(listeners[l].connections))]
    {
      if IsTransient(e) {
        listeners := listeners[l := listeners[l].(phase := Reaping)];
        r := RetryImmediately;
      } else {
        listeners := listeners[l := listeners[l].(phase := Failing(e))];
        r := PermanentError(e);
      }
      Record(AcceptError(l, e));
    }

    /** The first attempt: with a permit the connection starts active, without one the queue is next. */
    method AdmitOrPass(l: nat) returns (ok: bool)
      requires Valid() && l < |listeners| && listeners[l].phase.Judging?
      modifies this`listeners, this`tasks, this`states, this`steps, openConnections`permits
      ensures Took(TryPermit(l)) && (ok <==> old(openConnections.permits) > 0)
      ensures var c, held := old(listeners[l].phase.conn), old(listeners[l].connections);
        if ok
        then openConnections.permits == old(openConnections.permits) - 1
             && tasks == old(tasks)[c := Task(l, Active)]
             && listeners == old(listeners)[l := Listener(Reaping, held + {c})]
        else openConnections.permits == 0 && tasks == old(tasks)
             && listeners == old(listeners)[l := Listener(Queueing(c), held)]
    {
      var c := listeners[l].phase.conn;
      ok := openConnections.TryAcquire();
      if ok {
        tasks := tasks[c := Task(l, Active)];
        listeners := listeners[l := Listener(Reaping, listeners[l].connections + {c})];
      } else {
        listeners := listeners[l := listeners[l].(phase := Queueing(c))];
      }
      Record(TryPermit(l));
    }

    /** The second attempt: with a slot the connection is spawned to wait, without one it is dropped. */
    method QueueOrReject(l: nat) returns (ok: bool)
      requires Valid() && l < |listeners| && listeners[l].phase.Queueing?
      modifies this`listeners, this`tasks, this`states, this`steps, queuedConnections`permits
      ensures Took(TryQueue(l)) && (ok <==> old(queuedConnections.permits) > 0)
      ensures var c, held := old(listeners[l].phase.conn), old(listeners[l].connections);
        if ok
        then queuedConnections.permits == old(queuedConnections.permits) - 1
             && tasks == old(tasks)[c := Task(l, Spawned)]
             && listeners == old(listeners)[l := Listener(Reaping, held + {c})]
        else queuedConnections.permits == 0 && tasks == old(tasks)
             && listeners == old(listeners)[l := Listener(Reaping, held)]
    {
      var c := listeners[l].phase.conn;
      ok := queuedConnections.TryAcquire();
      if ok {
        tasks := tasks[c := Task(l, Spawned)];
        listeners := listeners[l := Listener(Reaping, listeners[l].connections + {c})];
      } else {
        listeners := listeners[l := listeners[l].(phase := Reaping)];
      }
      Record(TryQueue(l));
    }

    /** Leave the accept loop: cancel the token first if it ended in an error, then start the drain timer. */
    method LeaveAcceptLoop(l: nat, step: Step)
      requires Valid() && l < |listeners|
      requires || (step == LeaveCancelled(l) && listeners[l].phase.Accepting? && cancelled)
               || (step == LeaveFailed(l) && listeners[l].phase.Failing?)
      modifies this`listeners, this`cancelled, this`states, this`steps
      ensures Took(step) && cancelled
      ensures var outcome := if old(listeners[l].phase).Failing? then Err(old(listeners[l].phase.error)) else Ok(Unit.Unit);
        listeners == old(listeners)[l := Listener(Draining(clock + 10 * SECOND, outcome), old(listeners[l].connections))]
    {
      var outcome := if step.LeaveFailed? then Err(listeners[l].phase.error) else Ok(Unit.Unit);
      if outcome.Err? {
        cancelled := true;
      }
      listeners := listeners[l := listeners[l].(phase := Draining(clock + DRAIN_LIMIT, outcome))];
      Record(step);
    }

    /** Join one finished connection. */
    method JoinOne(l: nat, c: Id)
      requires Valid() && l < |listeners| && listeners[l].phase.Draining?
      requires c in listeners[l].connections && c !in tasks
      modifies this`listeners, this`states, this`steps
      ensures Took(JoinTask(l, c))
      ensures listeners == old(listeners)[l := Listener(old(listeners[l].phase), old(listeners[l].connections) - {c})]
    {
      listeners := listeners[l := listeners[l].(connections := listeners[l].connections - {c})];
      Record(JoinTask(l, c));
    }

    /** The set is dropped, and the listener is gone: all joined, out of time, or in a panic. */
    method Depart(l: nat, step: Step)
      requires Valid() && l < |listeners|
      requires || (step == DrainDone(l) && listeners[l].phase.Draining? && listeners[l].connections == {})
               || (step == DrainTimeout(l) && listeners[l].phase.Draining? && clock >= listeners[l].phase.deadline)
               || (step == Panic(l) && !listeners[l].phase.Returned? && !listeners[l].phase.Panicked?)
      modifies this`listeners, this`states, this`steps
      ensures Took(step)
      ensures var end := if step == Panic(l) then Panicked else Returned(old(listeners[l].phase.outcome));
        listeners == old(listeners)[l := Listener(end, {})]
    {
      var end := if step.Panic? then Panicked else Returned(listeners[l].phase.outcome);
      listeners := listeners[l := Listener(end, {})];
      Record(step);
    }

    /** `run` joins one listener that is gone; a failure or a panic cancels the token. */
    method JoinListenerTask(l: nat) returns (outcome: Result<Unit>)
      requires Valid() && l < |listeners| && (listeners[l].phase.Returned? || listeners[l].phase.Panicked?) && l !in joined
      modifies this`joined, this`cancelled, this`states, this`steps
      ensures Took(JoinListener(l)) && joined == old(joined) + [l]
      ensures outcome == if listeners[l].phase.Panicked? then Err(TaskCancellation) else listeners[l].phase.outcome
      ensures cancelled <==> old(cancelled) || outcome.Err?
    {
      outcome := OutcomeOf(listeners[l].phase);
      joined := joined + [l];
      if outcome.Err? {
        cancelled := true;
      }
      Record(JoinListener(l));
    }

    // ---- The connection tasks' actions ----

    /** First poll of a queued task: with a free permit it holds that, otherwise it waits behind all others. */
    method PollQueued(c: Id)
      requires Valid() && c in tasks && tasks[c].stage.Spawned?
      modifies this`tasks, this`states, this`steps, openConnections
      ensures Took(PollTask(c))
      ensures var granted, owner := old(openConnections.permits) > 0, old(tasks[c].owner);
        && tasks == old(tasks)[c := Task(owner, if granted then Handed else Waiting)]
        && openConnections.permits == (if granted then old(openConnections.permits) - 1 else 0)
        && openConnections.queue == old(openConnections.queue) + if granted then [] else [c]
    {
      var granted := openConnections.PollAcquire(c);
      tasks := tasks[c := tasks[c].(stage := if granted then Handed else Waiting)];
      Record(PollTask(c));
    }

    /** A task that was handed a permit runs: it drops its queue slot and is active. */
    method ResumeHanded(c: Id)
      requires Valid() && c in tasks && tasks[c].stage.Handed?
      modifies this`tasks, this`states, this`steps, queuedConnections
      ensures Took(ResumeTask(c))
      ensures tasks == old(tasks)[c := Task(old(tasks[c].owner), Active)]
      ensures queuedConnections.permits == old(queuedConnections.permits) + 1
    {
      var next := queuedConnections.Release();
      tasks := tasks[c := tasks[c].(stage := Active)];
      Record(ResumeTask(c));
    }

    /** An active task ends by itself; any task is aborted once its listener is gone. */
    predicate MayGo(c: Id, step: Step)
      requires c in tasks
      reads this
    {
      || (step == EndTask(c) && tasks[c].stage.Active?)
      || (step == AbortTask(c) && tasks[c].owner < |listeners|
          && (listeners[tasks[c].owner].phase.Returned? || listeners[tasks[c].owner].phase.Panicked?))
    }

    /** Drop a task that has no permit: its slot becomes free and its place in the queue is given up. */
    method DropQueued(c: Id, step: Step)
      requires Valid() && c in tasks && (tasks[c].stage.Spawned? || tasks[c].stage.Waiting?) && MayGo(c, step)
      modifies this`tasks, this`states, this`steps, openConnections`queue, queuedConnections
      ensures Took(step) && tasks == old(tasks) - {c}
      ensures queuedConnections.permits == old(queuedConnections.permits) + 1
      ensures if old(tasks[c].stage).Spawned? then openConnections.queue == old(openConnections.queue)
              else LeavesQueue(old(openConnections.queue), c, openConnections.queue)
    {
      Runs.InvHolds(states, steps, |steps|);
      var stage := tasks[c].stage;
      tasks := tasks - {c};
      var none := queuedConnections.Release();
      if stage.Waiting? {
        openConnections.Forget(c);
      }
      Record(step);
    }

    /** Drop a task that has a permit: the permit is the longest waiter's, or becomes free, and so does the slot. */
    method DropServed(c: Id, step: Step)
      requires Valid() && c in tasks && (tasks[c].stage.Handed? || tasks[c].stage.Active?) && MayGo(c, step)
      modifies this`tasks, this`states, this`steps, openConnections, queuedConnections
      ensures Took(step)
      ensures queuedConnections.permits == old(queuedConnections.permits) + if old(tasks[c].stage).Handed? then 1 else 0
      ensures old(openConnections.queue) == [] ==>
        && tasks == old(tasks) - {c} && openConnections.queue == []
        && openConnections.permits == old(openConnections.permits) + 1
      ensures old(openConnections.queue) != [] ==>
        var next := old(openConnections.queue[0]);
        && next in old(tasks) && tasks == (old(tasks) - {c})[next := Task(old(tasks)[next].owner, Handed)]
        && openConnections.queue == old(openConnections.queue)[1..]
        && openConnections.permits == old(openConnections.permits)
    {
      FirstWaiterIsLive(c);
      var stage := tasks[c].stage;
      tasks := tasks - {c};
      if stage.Handed? {
        var none := queuedConnections.Release();
      }
      var next := openConnections.Release();
      if next.Some? {
        tasks := tasks[next.value := tasks[next.value].(stage := Handed)];
      }
      Record(step);
    }

    lemma FirstWaiterIsLive(c: Id)
      requires Valid() && c in tasks && !tasks[c].stage.Waiting?
      ensures openConnections.queue != [] ==> openConnections.queue[0] in tasks && openConnections.queue[0] != c
    {
      Runs.InvHolds(states, steps, |steps|);
      assert openConnections.queue != [] ==> openConnections.queue[0] in View().pool.waiters;
    }

    method DropTask(c: Id, step: Step)
      requires Valid() && c in tasks && MayGo(c, step)
      modifies this`tasks, this`states, this`steps, openConnections, queuedConnections
      ensures Took(step)
    {
      if HasPermit(tasks[c]) {
        DropServed(c, step);
      } else {
        DropQueued(c, step);
      }
    }

    // ---- Interleaving ----

    /** Time passes, but not beyond the deadline of a drain. */
    method PassTime(time: Instant)
      requires Valid()
      requires forall l :: 0 <= l < |listeners| && listeners[l].phase.Draining? ==> clock + time <= listeners[l].phase.deadline
      modifies this`clock, this`states, this`steps
      ensures Took(Tick(time)) && clock == old(clock) + time
    {
      clock := clock + time;
      Record(Tick(time));
    }

    /** A termination signal. */
    method Cancel()
      requires Valid()
      modifies this`cancelled, this`states, this`steps
      ensures Took(Signal) && cancelled
    {
      cancelled := true;
      Record(Signal);
    }

    method Perform(step: Step)
      requires Valid() && Enabled(View(), step)
      modifies this, openConnections, queuedConnections
      ensures Took(step)
    {
      match step
      case Tick(time) => PassTime(time);
      case Signal => Cancel();
      case Reap(l) => Reap(l);
      case Accept(l) => TakeSocket(l);
      case AcceptError(l, e) => var r := ClassifyError(l, e);
      case TryPermit(l) => var ok := AdmitOrPass(l);
      case TryQueue(l) => var ok := QueueOrReject(l);
      case LeaveCancelled(l) => LeaveAcceptLoop(l, step);
      case LeaveFailed(l) => LeaveAcceptLoop(l, step);
      case JoinTask(l, c) => JoinOne(l, c);
      case DrainDone(l) => Depart(l, step);
      case DrainTimeout(l) => Depart(l, step);
      case Panic(l) => Depart(l, step);
      case JoinListener(l) => var r := JoinListenerTask(l);
      case PollTask(c) => PollQueued(c);
      case ResumeTask(c) => ResumeHanded(c);
      case EndTask(c) => DropTask(c, step);
      case AbortTask(c) => DropTask(c, step);
    }

    /** Since the old state only other tasks have acted: listener l stands where it stood. */
    twostate predicate Waited(l: nat)
      reads this, openConnections, queuedConnections
    {
      && Valid() && old(steps) <= steps && old(states) <= states && |listeners| == |old(listeners)|
      && l < |listeners| && listeners[l] == old(listeners[l]) && old(clock) <= clock
      && (forall k :: |old(steps)| <= k < |steps| ==> !IsOwn(steps[k], l))
      && Answered(steps, l) == Answered(old(steps), l)
    }

    /** Any number of steps by the other tasks, the clock and signals. */
    method Yield(l: nat)
      requires Valid() && l < |listeners|
      modifies this, openConnections, queuedConnections
      ensures Waited(l)
    {
      var n: nat := Network.Any();
      for i := 0 to n
        invariant Waited(l)
      {
        var step: Step := Network.Any();
        if Enabled(View(), step) && !IsOwn(step, l) {
          OthersLeaveListener(View(), step, l);
          AnsweredPlus(steps, step, l);
          Perform(step);
        }
      }
    }

    // ---- The accept loop ----

    /** The first attempt, after others may have run. */
    method TryPool(l: nat) returns (ok: bool, ghost p: nat)
      requires Valid() && l < |listeners| && listeners[l].phase.Judging?
      modifies this, openConnections, queuedConnections
      ensures Valid() && old(steps) <= steps && old(states) <= states && Answered(steps, l) == Answered(old(steps), l)
      ensures |old(steps)| <= p < |steps| && |listeners| == |old(listeners)|
      ensures ok <==> states[p].pool.free > 0
      ensures ok ==> listeners[l].phase.Reaping?
                     && IsPlaced(states, p, p, l, old(listeners[l].phase.conn), Connected)
      ensures !ok ==> listeners[l].phase == Queueing(old(listeners[l].phase.conn)) && states[p + 1].pool == states[p].pool
    {
      Yield(l);
      p := |steps|;
      SocketIsFresh(l);
      AnsweredPlus(steps, TryPermit(l), l);
      ok := AdmitOrPass(l);
    }

    /** The second attempt. */
    method TryWait(l: nat) returns (ok: bool, ghost q: nat)
      requires Valid() && l < |listeners| && listeners[l].phase.Queueing?
      modifies this, openConnections, queuedConnections
      ensures Valid() && old(steps) <= steps && old(states) <= states && Answered(steps, l) == Answered(old(steps), l)
      ensures |old(steps)| <= q < |steps| && |listeners| == |old(listeners)| && listeners[l].phase.Reaping?
      ensures IsQueued(states, q, l, old(listeners[l].phase.conn), if ok then Connected else RejectedTooManyConnections)
    {
      Yield(l);
      q := |steps|;
      SocketIsFresh(l);
      AnsweredPlus(steps, TryQueue(l), l);
      ok := QueueOrReject(l);
    }

    /**
     A socket in hand: try the pool, then the queue. Other tasks may run before each attempt, made in the
     states p and q, and each is judged by the count it finds.
     */
    method PlaceSocket(l: nat) returns (r: AcceptResult, ghost p: nat, ghost q: nat)
      requires Valid() && l < |listeners| && listeners[l].phase.Judging?
      modifies this, openConnections, queuedConnections
      ensures Valid() && old(steps) <= steps && old(states) <= states && Answered(steps, l) == Answered(old(steps), l)
      ensures |listeners| == |old(listeners)| && listeners[l].phase.Reaping?
      ensures |old(steps)| <= p < |steps| && IsPlaced(states, p, q, l, old(listeners[l].phase.conn), r)
    {
      var admitted, queued;
      admitted, p := TryPool(l);
      if admitted {
        return Connected, p, p;
      }
      queued, q := TryWait(l);
      r := if queued then Connected else RejectedTooManyConnections;
    }

    lemma SocketIsFresh(l: nat)
      requires Valid() && l < |listeners| && HasSocket(listeners[l].phase)
      ensures listeners[l].phase.conn !in tasks
    {
      Runs.InvHolds(states, steps, |steps|);
    }

    /** What the listener does with the result of one `accept`. */
    method AcceptConnection(l: nat, answer: Option<ProxyError>) returns (r: AcceptResult, ghost p: nat, ghost q: nat)
      requires Valid() && l < |listeners| && listeners[l].phase.Accepting?
      modifies this, openConnections, queuedConnections
      ensures Valid() && old(steps) <= steps && old(states) <= states && |listeners| == |old(listeners)|
      ensures Answered(steps, l) == Answered(old(steps), l) + [answer]
      ensures listeners[l].phase == if r.PermanentError? then Failing(r.error) else Reaping
      ensures match answer
        case None => |old(steps)| < p < |steps| && IsPlaced(states, p, q, l, old(nextId), r)
        case Some(IoError(ConnectionRefused)) => r == RetryImmediately
        case Some(IoError(ConnectionReset)) => r == RetryImmediately
        case Some(IoError(ConnectionAborted)) => r == RetryImmediately
        case Some(e) => r == PermanentError(e)
    {
      p, q := 0, 0;
      if answer.Some? {
        AnsweredPlus(steps, AcceptError(l, answer.value), l);
        r := ClassifyError(l, answer.value);
      } else {
        AnsweredPlus(steps, Accept(l), l);
        TakeSocket(l);
        r, p, q := PlaceSocket(l);
      }
    }

    /** A permanent accept error ends the accept loop. */
    method GiveUp(l: nat)
      requires Valid() && l < |listeners| && listeners[l].phase.Failing?
      modifies this, openConnections, queuedConnections
      ensures Valid() && old(steps) <= steps && |listeners| == |old(listeners)| && Answered(steps, l) == Answered(old(steps), l)
      ensures cancelled && listeners[l].phase == Draining(clock + 10 * SECOND, Err(old(listeners[l].phase.error)))
    {
      Yield(l);
      AnsweredPlus(steps, LeaveFailed(l), l);
      LeaveAcceptLoop(l, LeaveFailed(l));
    }

    /** Wait in `accept` until it answers, or until the token is cancelled; then either may win. */
    method AwaitAccept(l: nat) returns (cancelWins: bool)
      requires Valid() && l < |listeners| && (listeners[l].phase.Accepting? || listeners[l].phase.Reaping?)
      modifies this, openConnections, queuedConnections
      ensures Valid() && old(steps) <= steps && |listeners| == |old(listeners)| && Answered(steps, l) == Answered(old(steps), l)
      ensures listeners[l].phase.Accepting? && (cancelWins ==> cancelled)
    {
      if listeners[l].phase.Reaping? {
        AnsweredPlus(steps, Step.Reap(l), l);
        Reap(l);
      }
      Yield(l);
      var tokenFirst: bool := Network.Any();
      cancelWins := cancelled && tokenFirst;
    }

    /** With no further answer to `accept`, only cancellation ends the wait. */
    method AwaitCancellation(l: nat)
      requires Valid() && l < |listeners| && (listeners[l].phase.Accepting? || listeners[l].phase.Reaping?)
      modifies this, openConnections, queuedConnections
      ensures Valid() && old(steps) <= steps && |listeners| == |old(listeners)| && Answered(steps, l) == Answered(old(steps), l)
      ensures listeners[l].phase.Accepting? && cancelled
    {
      if listeners[l].phase.Reaping? {
        AnsweredPlus(steps, Step.Reap(l), l);
        Reap(l);
      }
      Yield(l);
      if !cancelled {
        AnsweredPlus(steps, Signal, l);
        Cancel();
      }
    }

    /** The token's branch of the `select!`: it may win only once the token is cancelled. */
    method LeaveIfCancelled(l: nat) returns (left: bool)
      requires Valid() && l < |listeners| && (listeners[l].phase.Accepting? || listeners[l].phase.Reaping?)
      modifies this, openConnections, queuedConnections
      ensures Valid() && old(steps) <= steps && |listeners| == |old(listeners)| && Answered(steps, l) == Answered(old(steps), l)
      ensures if left then cancelled && listeners[l].phase == Draining(clock + 10 * SECOND, Ok(Unit.Unit))
              else listeners[l].phase.Accepting?
    {
      left := AwaitAccept(l);
      if left {
        AnsweredPlus(steps, LeaveCancelled(l), l);
        LeaveAcceptLoop(l, LeaveCancelled(l));
      }
    }

    /** One round of the accept loop, with what `accept` answers if it is not cancelled before. */
    method AcceptRound(l: nat, answer: Option<ProxyError>) returns (end: Option<Result<Unit>>)
      requires Valid() && l < |listeners| && (listeners[l].phase.Accepting? || listeners[l].phase.Reaping?)
      modifies this, openConnections, queuedConnections
      ensures Valid() && old(steps) <= steps && |listeners| == |old(listeners)|
      ensures end == None ==> listeners[l].phase.Reaping? && (answer.None? || Survives(answer.value))
      ensures end.Some? ==>
        && cancelled && listeners[l].phase == Draining(clock + 10 * SECOND, end.value)
        && (end == Some(Ok(Unit.Unit)) || (answer.Some? && !Survives(answer.value) && end == Some(Err(answer.value))))
      ensures Answered(steps, l) == Answered(old(steps), l) + if end == Some(Ok(Unit.Unit)) then [] else [answer]
    {
      var left := LeaveIfCancelled(l);
      if left {
        return Some(Ok(Unit.Unit));
      }
      var r, p, q := AcceptConnection(l, answer);
      if r.PermanentError? {
        GiveUp(l);
        return Some(Err(r.error));
      }
      end := None;
    }

    /**
     The `select!` over the accept loop and the token: `answers` are what `accept` yields, in order, if it
     is not cancelled before. All those taken but the last left the loop running.
     */
    method AcceptLoop(l: nat, answers: seq<Option<ProxyError>>) returns (res: Result<Unit>, ghost taken: nat)
      requires Valid() && l < |listeners| && listeners[l].phase.Accepting?
      modifies this, openConnections, queuedConnections
      ensures Valid() && old(steps) <= steps && |listeners| == |old(listeners)|
      ensures cancelled && listeners[l].phase == Draining(clock + 10 * SECOND, res)
      ensures taken <= |answers| && IsOutcome(answers[..taken], res)
      ensures Answered(steps, l) == Answered(old(steps), l) + answers[..taken]
    {
      for i := 0 to |answers|
        invariant Valid() && old(steps) <= steps && |listeners| == |old(listeners)|
        invariant listeners[l].phase.Accepting? || listeners[l].phase.Reaping?
        invariant AllSurvived(answers[..i]) && Answered(steps, l) == Answered(old(steps), l) + answers[..i]
      {
        var end := AcceptRound(l, answers[i]);
        assert answers[..i + 1] == answers[..i] + [answers[i]];
        if end.Some? {
          return end.value, if end.value.Ok? then i else i + 1;
        }
      }
      AwaitCancellation(l);
      AnsweredPlus(steps, LeaveCancelled(l), l);
      LeaveAcceptLoop(l, LeaveCancelled(l));
      return Ok(Unit.Unit), |answers|;
    }

    /** Who was gone is still gone, as it was. */
    twostate predicate StillGone()
      reads this
    {
      && |listeners| == |old(listeners)|
      && forall l :: 0 <= l < |listeners| && IsGone(old(listeners[l].phase)) ==> listeners[l] == old(listeners[l])
    }

    /** Since the old state everybody but `run` has acted. */
    twostate predicate Ran()
      reads this, openConnections, queuedConnections
    {
      Valid() && old(steps) <= steps && old(states) <= states && joined == old(joined) && StillGone() && (old(cancelled) ==> cancelled)
    }

    /** The clock moves on: listeners whose drain is due time out first. */
    method LetTimePass(l: nat)
      requires Valid() && l < |listeners| && listeners[l].phase.Draining? && clock < listeners[l].phase.deadline
      modifies this, openConnections, queuedConnections
      ensures Waited(l) && Ran() && clock == old(clock) + 1
    {
      for k := 0 to |listeners|
        invariant Waited(l) && Ran() && clock == old(clock)
        invariant forall j :: 0 <= j < k && listeners[j].phase.Draining? ==> clock < listeners[j].phase.deadline
      {
        if listeners[k].phase.Draining? && clock >= listeners[k].phase.deadline {
          OthersLeaveListener(View(), DrainTimeout(k), l);
          AnsweredPlus(steps, DrainTimeout(k), l);
          Perform(DrainTimeout(k));
        }
      }
      AnsweredPlus(steps, Tick(1), l);
      PassTime(1);
    }

    /** Join what is left, until the set is empty or the timer fires: in any case before the deadline is past. */
    method DrainLoop(l: nat) returns (res: Result<Unit>)
      requires Valid() && l < |listeners| && listeners[l].phase.Draining?
      modifies this, openConnections, queuedConnections
      ensures Valid() && old(steps) <= steps && |listeners| == |old(listeners)| && Answered(steps, l) == Answered(old(steps), l)
      ensures res == old(listeners[l].phase.outcome) && listeners[l] == Listener(Returned(res), {})
      ensures old(clock) <= clock <= old(listeners[l].phase.deadline)
      ensures clock == old(listeners[l].phase.deadline) || forall c :: c in tasks ==> tasks[c].owner != l
    {
      while true
        invariant Valid() && old(steps) <= steps && |listeners| == |old(listeners)|
        invariant listeners[l].phase == old(listeners[l].phase) && old(clock) <= clock
        invariant Answered(steps, l) == Answered(old(steps), l)
        decreases listeners[l].phase.deadline - clock + |listeners[l].connections|
      {
        Yield(l);
        if listeners[l].connections == {} || clock >= listeners[l].phase.deadline {
          res := LeaveDrain(l);
          return;
        }
        if c :| c in listeners[l].connections && c !in tasks {
          AnsweredPlus(steps, JoinTask(l, c), l);
          JoinOne(l, c);
        } else {
          LetTimePass(l);
        }
      }
    }

    /** The end of a drain: nothing left to join, or out of time. */
    method LeaveDrain(l: nat) returns (res: Result<Unit>)
      requires Valid() && l < |listeners| && listeners[l].phase.Draining?
      requires listeners[l].connections == {} || clock >= listeners[l].phase.deadline
      modifies this`listeners, this`states, this`steps
      ensures Valid() && old(steps) <= steps && |listeners| == |old(listeners)| && Answered(steps, l) == Answered(old(steps), l)
      ensures res == old(listeners[l].phase.outcome) && listeners[l] == Listener(Returned(res), {})
      ensures clock <= old(listeners[l].phase.deadline)
      ensures clock == old(listeners[l].phase.deadline) || forall c :: c in tasks ==> tasks[c].owner != l
    {
      Runs.InvHolds(states, steps, |steps|);
      res := listeners[l].phase.outcome;
      var step := if listeners[l].connections == {} then DrainDone(l) else DrainTimeout(l);
      AnsweredPlus(steps, step, l);
      Depart(l, step);
    }

    /** The whole life of a listener that `accept` answers like this. */
    method Listen(l: nat, answers: seq<Option<ProxyError>>) returns (res: Result<Unit>, ghost taken: nat)
      requires Valid() && l < |listeners| && listeners[l].phase.Accepting?
      modifies this, openConnections, queuedConnections
      ensures Valid() && old(steps) <= steps && |listeners| == |old(listeners)|
      ensures listeners[l] == Listener(Returned(res), {}) && cancelled
      ensures taken <= |answers| && IsOutcome(answers[..taken], res)
      ensures Answered(steps, l) == Answered(old(steps), l) + answers[..taken]
    {
      res, taken := AcceptLoop(l, answers);
      res := DrainLoop(l);
      Runs.DrainingMeansCancelled(states, steps, |steps|, l);
    }

    // ---- The join loop of run ----

    /** Any step but one of `run` itself. */
    method LetStep(step: Step)
      requires Valid() && Enabled(View(), step) && !step.JoinListener?
      modifies this, openConnections, queuedConnections
      ensures Ran() && Took(step)
    {
      forall l | 0 <= l < |listeners| ensures IsGone(listeners[l].phase) ==> Apply(View(), step).listeners[l] == listeners[l] {
        OthersLeaveListener(View(), step, l);
      }
      OnlyRunJoins(View(), step);
      Perform(step);
    }

    method LetRun()
      requires Valid()
      modifies this, openConnections, queuedConnections
      ensures Ran()
    {
      var n: nat := Network.Any();
      for i := 0 to n
        invariant Ran()
      {
        var step: Step := Network.Any();
        if Enabled(View(), step) && !step.JoinListener? {
          LetStep(step);
        }
      }
    }

    /** A listener of a proxy that is shutting down takes its way out. */
    method LetLeave(l: nat)
      requires Valid() && l < |listeners| && cancelled
      modifies this, openConnections, queuedConnections
      ensures Ran() && !InAcceptLoop(listeners[l].phase)
    {
      while InAcceptLoop(listeners[l].phase)
        invariant Ran()
        decreases Shutdown.StepsToLeave(listeners[l].phase)
      {
        LetStep(Shutdown.Leaving(View(), l));
      }
    }

    method LetEnd(l: nat)
      requires Valid() && l < |listeners| && cancelled
      modifies this, openConnections, queuedConnections
      ensures Ran() && IsGone(listeners[l].phase)
    {
      LetLeave(l);
      while listeners[l].phase.Draining? && clock < listeners[l].phase.deadline
        invariant Ran() && !InAcceptLoop(listeners[l].phase)
        decreases if listeners[l].phase.Draining? then listeners[l].phase.deadline - clock else 0
      {
        LetTimePass(l);
      }
      if listeners[l].phase.Draining? {
        LetStep(DrainTimeout(l));
      }
    }

    /** The join loop so far: the error kept is the first in join order. */
    ghost predicate Joining(firstError: Option<ProxyError>)
      reads this, openConnections, queuedConnections
    {
      Valid() && JoinedAreGone(View()) && AsResult(firstError) == Runs.FirstError(View(), joined)
    }

    function Unjoined(): set<nat>
      reads this
    {
      set l | 0 <= l < |listeners| && l !in joined
    }

    /** Join a listener that is gone. */
    method JoinNext(l: nat, firstError: Option<ProxyError>) returns (first: Option<ProxyError>)
      requires Joining(firstError) && l in Unjoined() && IsGone(listeners[l].phase)
      modifies this, openConnections, queuedConnections
      ensures Joining(first) && old(steps) <= steps && old(states) <= states && |listeners| == |old(listeners)|
      ensures joined == old(joined) + [l] && (old(cancelled) ==> cancelled)
    {
      first := firstError;
      ghost var before := View();
      var outcome := JoinListenerTask(l);
      UnitIsUnit(outcome);
      StepKeepsJoined(before, JoinListener(l));
      FirstErrorStable(before, View(), before.joined);
      assert joined[..|joined| - 1] == before.joined;
      if outcome.Err? && firstError.None? {
        first := Some(outcome.error);
      }
    }

    /** Wait while the others run. */
    method AwaitListeners(firstError: Option<ProxyError>)
      requires Joining(firstError)
      modifies this, openConnections, queuedConnections
      ensures Ran() && Joining(firstError)
    {
      ghost var before := View();
      LetRun();
      Runs.InvHolds(states, steps, |steps|);
      FirstErrorStable(before, View(), joined);
    }

    /** The same, until listener l of a cancelled proxy is gone. */
    method AwaitEnd(l: nat, firstError: Option<ProxyError>)
      requires Joining(firstError) && l < |listeners| && cancelled
      modifies this, openConnections, queuedConnections
      ensures Ran() && Joining(firstError) && IsGone(listeners[l].phase)
    {
      AwaitListeners(firstError);
      ghost var before := View();
      LetEnd(l);
      Runs.InvHolds(states, steps, |steps|);
      FirstErrorStable(before, View(), joined);
    }

    /** The join loop while nobody has asked the proxy to stop. */
    method JoinWhileServing(rounds: nat) returns (firstError: Option<ProxyError>)
      requires Valid() && joined == []
      modifies this, openConnections, queuedConnections
      ensures Joining(firstError) && old(steps) <= steps && old(states) <= states && |listeners| == |old(listeners)|
    {
      firstError := None;
      for i := 0 to rounds
        invariant Joining(firstError) && old(steps) <= steps && old(states) <= states && |listeners| == |old(listeners)|
      {
        AwaitListeners(firstError);
        if l :| l in Unjoined() && IsGone(listeners[l].phase) {
          firstError := JoinNext(l, firstError);
        }
      }
    }

    /**
     Join every listener, cancelling the token and keeping the error at the first that failed. A
     termination signal comes after the given number of rounds, if the proxy is still running then.
     */
    method JoinListeners(rounds: nat) returns (res: Result<Unit>)
      requires Valid() && joined == []
      modifies this, openConnections, queuedConnections
      ensures Valid() && old(steps) <= steps && |listeners| == |old(listeners)|
      ensures states[0] == old(states[0]) && Runs.IsRunResult(View(), res)
    {
      var firstError := JoinWhileServing(rounds);
      if Unjoined() != {} {
        Terminate(firstError);
      }
      firstError := JoinRest(firstError);
      Runs.RunResult(states, steps, |steps|);
      res := AsResult(firstError);
    }

    method Terminate(firstError: Option<ProxyError>)
      requires Joining(firstError)
      modifies this`cancelled, this`states, this`steps
      ensures Joining(firstError) && cancelled && old(steps) <= steps && old(states) <= states
    {
      ghost var before := View();
      Cancel();
      FirstErrorStable(before, View(), joined);
    }

    /** The join loop from then on. */
    method JoinRest(kept: Option<ProxyError>) returns (firstError: Option<ProxyError>)
      requires Joining(kept) && (Unjoined() != {} ==> cancelled)
      modifies this, openConnections, queuedConnections
      ensures Joining(firstError) && old(steps) <= steps && old(states) <= states && |listeners| == |old(listeners)|
      ensures Runs.AllJoined(View())
    {
      firstError := kept;
      while Unjoined() != {}
        invariant Joining(firstError) && old(steps) <= steps && old(states) <= states && |listeners| == |old(listeners)|
        invariant Unjoined() != {} ==> cancelled
        decreases |Unjoined()|
      {
        var l :| l in Unjoined();
        ghost var before := Unjoined();
        AwaitEnd(l, firstError);
        var gone :| gone in Unjoined() && IsGone(listeners[gone].phase);
        firstError := JoinNext(gone, firstError);
        assert Unjoined() == before - {gone};
      }
      forall l | 0 <= l < |listeners| ensures l in joined {
        assert l !in Unjoined();
      }
    }
  }

  lemma RunAppend(states: seq<State>, steps: seq<Step>, step: Step)
    requires IsRun(states, steps) && Enabled(states[|steps|], step)
    ensures IsRun(states + [Apply(states[|steps|], step)], steps + [step])
  {
    var after := states + [Apply(states[|steps|], step)];
    forall i | 0 <= i < |steps + [step]| ensures StepAt(after, steps + [step], i) {
      if i < |steps| {
        assert StepAt(states, steps, i);
      }
    }
  }

  /**
   Bind the configured ports in ascending order, then spawn the listeners and join them. `answers` are
   the bind results in the order they came; no proxy means no listener was ever spawned.
   */
  method Run(config: Configuration.ProxyConfig, maxConnections: nat, maxQueue: nat, rounds: nat)
    returns (res: Result<Unit>, proxy: Proxy?, ghost answers: seq<Option<ProxyError>>)
    ensures |answers| <= |config.Ports()|
    ensures forall k :: 0 <= k < |answers| && answers[k].Some? ==>
              && k == |answers| - 1 && proxy == null
              && (match answers[k].value
                  case IoError(kind) => res == Err(BindError(config.Ports()[k], kind))
                  case other => res == Err(other))
              && forall p :: p in config.portToPool && p < config.Ports()[k] ==> p in config.Ports()[..k]
    ensures proxy == null ==> answers != [] && answers[|answers| - 1].Some?
    ensures proxy != null ==>
      && |answers| == |config.Ports()| && fresh(proxy) && proxy.Valid() && |proxy.listeners| == |config.Ports()|
      && proxy.maxConnections == maxConnections && proxy.maxQueue == maxQueue
      && proxy.states[0].pool.free == maxConnections && proxy.states[0].pool.queueFree == maxQueue
      && Runs.IsRunResult(proxy.View(), res)
  {
    answers := [];
    var ports := config.Ports();
    for i := 0 to |ports|
      invariant |answers| == i && forall k :: 0 <= k < i ==> answers[k].None?
    {
      var answer: Option<ProxyError> := Network.Any();
      answers := answers + [answer];
      if answer.Some? {
        forall p | p in config.portToPool && p < ports[i] ensures p in ports[..i] {
          assert p in ports;
          var j :| 0 <= j < |ports| && ports[j] == p;
          assert ports[..i][j] == p;
        }
        return Err(IntoBindError(answer.value, ports[i])), null, answers;
      }
    }
    var server := new Proxy(maxConnections, maxQueue, |ports|);
    proxy := server;
    res := server.JoinListeners(rounds);
  }
}
