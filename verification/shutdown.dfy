/** Once cancelled, the proxy can always come down in time, whatever its connections do. */
module Shutdown {
  import opened Admission
  import opened Paths
  import ConnectionPool
  import Types
  import Runs = AdmissionRuns

  /** From s to t without the help of any connection. */
  ghost predicate Moves(s: State, t: State) {
    && Path(Unaided, s, t) && Inv(t) && s.cancelled && t.cancelled && |t.listeners| == |s.listeners|
    && t.maxConnections == s.maxConnections && t.maxQueue == s.maxQueue
  }

  lemma MoveNowhere(s: State)
    requires Inv(s) && s.cancelled
    ensures Moves(s, s)
  {
    PathHere(Unaided, s);
  }

  lemma MoveStep(s: State, step: Step)
    requires Inv(s) && s.cancelled && Enabled(s, step) && Fits(Unaided, s, step)
    ensures Moves(s, Apply(s, step))
  {
    PathStep(Unaided, s, step);
    StepKeepsInv(s, step);
  }

  lemma MoveOn(s: State, t: State, u: State)
    requires Moves(s, t) && Moves(t, u)
    ensures Moves(s, u)
  {
    PathJoin(Unaided, s, t, u);
  }

  // ---- Out of the accept loops ----

  /** Steps of the accept loop still to come before a cancelled listener has left it. */
  function StepsToLeave(ph: Phase): nat {
    match ph
    case Judging(_) => 4
    case Queueing(_) => 3
    case Reaping => 2
    case Accepting => 1
    case Failing(_) => 1
    case _ => 0
  }

  function Leaving(s: State, l: nat): Step
    requires At(s, l)
  {
    match s.listeners[l].phase
    case Judging(_) => TryPermit(l)
    case Queueing(_) => TryQueue(l)
    case Reaping => Reap(l)
    case Accepting => LeaveCancelled(l)
    case _ => LeaveFailed(l)
  }

  /** The first n listeners are past their accept loops. */
  predicate OutOfLoop(s: State, n: nat) {
    n <= |s.listeners| && forall l :: 0 <= l < n ==> !InAcceptLoop(s.listeners[l].phase)
  }

  lemma LeavingStep(s: State, l: nat)
    requires Inv(s) && s.cancelled && At(s, l) && InAcceptLoop(s.listeners[l].phase) && OutOfLoop(s, l)
    ensures Enabled(s, Leaving(s, l))
    ensures var t := Apply(s, Leaving(s, l));
      && Moves(s, t) && t.clock == s.clock && OutOfLoop(t, l)
      && StepsToLeave(t.listeners[l].phase) < StepsToLeave(s.listeners[l].phase)
  {
    MoveStep(s, Leaving(s, l));
  }

  lemma {:induction false} LeaveLoop(s: State, l: nat) returns (t: State)
    requires Inv(s) && s.cancelled && At(s, l) && OutOfLoop(s, l)
    ensures Moves(s, t) && t.clock == s.clock && OutOfLoop(t, l + 1)
    decreases StepsToLeave(s.listeners[l].phase)
  {
    if !InAcceptLoop(s.listeners[l].phase) {
      MoveNowhere(s);
      return s;
    }
    LeavingStep(s, l);
    var next := Apply(s, Leaving(s, l));
    t := LeaveLoop(next, l);
    MoveOn(s, next, t);
  }

  lemma {:induction false} LeaveLoops(s: State, n: nat) returns (t: State)
    requires Inv(s) && s.cancelled && n <= |s.listeners|
    ensures Moves(s, t) && t.clock == s.clock && OutOfLoop(t, n)
  {
    if n == 0 {
      MoveNowhere(s);
      return s;
    }
    var before := LeaveLoops(s, n - 1);
    t := LeaveLoop(before, n - 1);
    MoveOn(s, before, t);
  }

  // ---- Through the drains ----

  ghost function DrainingSet(s: State): set<nat> {
    set l | 0 <= l < |s.listeners| && s.listeners[l].phase.Draining?
  }

  /** The drain with the earliest deadline. */
  lemma EarliestDrain(s: State) returns (l: nat)
    requires DrainingSet(s) != {}
    ensures l in DrainingSet(s)
    ensures forall k :: k in DrainingSet(s) ==> s.listeners[l].phase.deadline <= s.listeners[k].phase.deadline
  {
    l :| l in DrainingSet(s);
    for n := 0 to |s.listeners|
      invariant l in DrainingSet(s)
      invariant forall k :: k in DrainingSet(s) && k < n ==> s.listeners[l].phase.deadline <= s.listeners[k].phase.deadline
    {
      if s.listeners[n].phase.Draining? && s.listeners[n].phase.deadline < s.listeners[l].phase.deadline {
        l := n;
      }
    }
  }

  /** No drain lasts beyond this instant. */
  ghost predicate DueBy(s: State, limit: Types.Instant) {
    forall l :: l in DrainingSet(s) ==> s.listeners[l].phase.deadline <= limit
  }

  /** Time passes up to the earliest deadline. */
  lemma WaitForDrain(s: State, l: nat, limit: Types.Instant) returns (t: State)
    requires Inv(s) && s.cancelled && OutOfLoop(s, |s.listeners|) && DueBy(s, limit)
    requires l in DrainingSet(s)
    requires forall k :: k in DrainingSet(s) ==> s.listeners[l].phase.deadline <= s.listeners[k].phase.deadline
    ensures Moves(s, t) && t.listeners == s.listeners && t.clock == s.listeners[l].phase.deadline <= limit
  {
    var wait := s.listeners[l].phase.deadline - s.clock;
    forall k | 0 <= k < |s.listeners| && s.listeners[k].phase.Draining?
      ensures s.clock + wait <= s.listeners[k].phase.deadline
    {
      assert k in DrainingSet(s);
    }
    MoveStep(s, Tick(wait));
    t := Apply(s, Tick(wait));
  }

  lemma TimeOut(s: State, l: nat, limit: Types.Instant) returns (t: State)
    requires Inv(s) && s.cancelled && OutOfLoop(s, |s.listeners|) && DueBy(s, limit)
    requires l in DrainingSet(s) && s.clock == s.listeners[l].phase.deadline
    ensures Moves(s, t) && OutOfLoop(t, |t.listeners|) && DueBy(t, limit)
    ensures t.clock == s.clock && DrainingSet(t) == DrainingSet(s) - {l}
  {
    MoveStep(s, DrainTimeout(l));
    t := Apply(s, DrainTimeout(l));
  }

  lemma {:induction false} LeaveDrains(s: State, limit: Types.Instant) returns (t: State)
    requires Inv(s) && s.cancelled && OutOfLoop(s, |s.listeners|) && DueBy(s, limit) && s.clock <= limit
    ensures Moves(s, t) && t.clock <= limit && Runs.AllGone(t)
    decreases |DrainingSet(s)|
  {
    if DrainingSet(s) == {} {
      forall l | 0 <= l < |s.listeners| ensures IsGone(s.listeners[l].phase) {
        assert l !in DrainingSet(s);
      }
      MoveNowhere(s);
      return s;
    }
    var l := EarliestDrain(s);
    var due := WaitForDrain(s, l, limit);
    assert DrainingSet(due) == DrainingSet(s);
    var next := TimeOut(due, l, limit);
    assert |DrainingSet(next)| < |DrainingSet(s)|;
    t := LeaveDrains(next, limit);
    MoveOn(due, next, t);
    MoveOn(s, due, t);
  }

  // ---- Aborts, and the join loop ----

  lemma {:induction false} AbortAll(s: State) returns (t: State)
    requires Inv(s) && s.cancelled && Runs.AllGone(s)
    ensures Moves(s, t) && t.clock == s.clock && Runs.AllGone(t) && t.pool.tasks == map[]
    decreases |s.pool.tasks|
  {
    if s.pool.tasks == map[] {
      MoveNowhere(s);
      return s;
    }
    var c :| c in s.pool.tasks;
    Runs.AbortRemovesOne(s, c);
    MoveStep(s, AbortTask(c));
    var next := Apply(s, AbortTask(c));
    t := AbortAll(next);
    MoveOn(s, next, t);
  }

  lemma JoinIfNeeded(s: State, l: nat) returns (t: State)
    requires Inv(s) && s.cancelled && Runs.AllGone(s) && At(s, l)
    ensures Moves(s, t) && t == s.(joined := t.joined)
    ensures l in t.joined && forall k :: k in s.joined ==> k in t.joined
  {
    if l in s.joined {
      MoveNowhere(s);
      return s;
    }
    MoveStep(s, JoinListener(l));
    t := Apply(s, JoinListener(l));
  }

  lemma {:induction false} JoinUpTo(s: State, n: nat) returns (t: State)
    requires Inv(s) && s.cancelled && Runs.AllGone(s) && n <= |s.listeners|
    ensures Moves(s, t) && t == s.(joined := t.joined) && forall l :: 0 <= l < n ==> l in t.joined
  {
    if n == 0 {
      MoveNowhere(s);
      return s;
    }
    var before := JoinUpTo(s, n - 1);
    t := JoinIfNeeded(before, n - 1);
    MoveOn(s, before, t);
  }

  /** Everything is over: `run` has joined all listeners, no connection is left, both semaphores are whole. */
  ghost predicate IsDown(s: State) {
    && Runs.AllJoined(s) && Runs.AllGone(s) && s.pool.tasks == map[]
    && s.pool.free == s.maxConnections && s.pool.queueFree == s.maxQueue
  }

  /**
   From every reachable state with the token cancelled the proxy can come down completely within the
   drain limit, without waiting for a single connection to move.
   */
  lemma ShutdownCompletes(states: seq<State>, steps: seq<Step>, i: nat) returns (t: State)
    requires IsRun(states, steps) && Initial(states[0]) && i < |states| && states[i].cancelled
    ensures Path(Unaided, states[i], t) && t.clock <= states[i].clock + 10 * Types.SECOND && IsDown(t)
  {
    Runs.InvHolds(states, steps, i);
    var s := states[i];
    var out := LeaveLoops(s, |s.listeners|);
    var drained := LeaveDrains(out, s.clock + DRAIN_LIMIT);
    var empty := AbortAll(drained);
    t := JoinUpTo(empty, |empty.listeners|);
    MoveOn(drained, empty, t);
    MoveOn(out, drained, t);
    MoveOn(s, out, t);
    ConnectionPool.EmptyIsRestored(t.pool, t.maxConnections, t.maxQueue);
  }
}
