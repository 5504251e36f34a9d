/** What holds over every run of the proxy, however its listeners and tasks interleave. */
module AdmissionRuns {
  import opened Types
  import opened ConnectionPool
  import opened Admission

  /** A fresh start, or any later state: whatever meets the invariant. */
  ghost predicate IsStart(s: State) { Initial(s) || Inv(s) }

  lemma {:induction false} InvHolds(states: seq<State>, steps: seq<Step>, i: nat)
    requires IsRun(states, steps) && IsStart(states[0]) && i < |states|
    ensures Inv(states[i]) && |states[i].listeners| == |states[0].listeners|
    ensures states[i].maxConnections == states[0].maxConnections && states[i].maxQueue == states[0].maxQueue
  {
    if i == 0 {
      if Initial(states[0]) {
        InitialInv(states[0]);
      }
    } else {
      InvHolds(states, steps, i - 1);
      assert StepAt(states, steps, i - 1);
      StepKeepsInv(states[i - 1], steps[i - 1]);
    }
  }

  /**
   In every reachable state each permit is free, or held by an active task, or handed to a waiter that
   has not run; each queue slot is free or still held; and tasks are bounded by the two together.
   */
  lemma PermitsConserved(states: seq<State>, steps: seq<Step>, i: nat)
    requires IsRun(states, steps) && Initial(states[0]) && i < |states|
    ensures var p := states[i].pool;
      && p.free + |PermitHolders(p.tasks)| == states[0].maxConnections
      && p.queueFree + |SlotHolders(p.tasks)| == states[0].maxQueue
      && |p.tasks.Keys| <= states[0].maxConnections + states[0].maxQueue
      && (p.waiters != [] ==> p.free == 0)
  {
    InvHolds(states, steps, i);
    LiveBound(states[i].pool, states[i].maxConnections, states[i].maxQueue);
  }

  /** A listener's join set, finished entries included, never outgrows pool + queue + 1. */
  lemma JoinSetBounded(states: seq<State>, steps: seq<Step>, i: nat, l: nat)
    requires IsRun(states, steps) && Initial(states[0]) && i < |states| && l < |states[0].listeners|
    ensures l < |states[i].listeners|
    ensures |states[i].listeners[l].connections| <= states[0].maxConnections + states[0].maxQueue + 1
  {
    InvHolds(states, steps, i);
    assert SetBounded(states[i], l);
  }

  // ---- First come, first served ----

  lemma {:induction false} AheadInWaiters(w: seq<Id>, c: Id)
    ensures forall x :: x in AheadOf(w, c) ==> x in w && x != c
  {
    if w != [] && w[0] != c {
      AheadInWaiters(w[1..], c);
    }
  }

  lemma {:induction false} AheadAfterAppend(w: seq<Id>, x: Id, c: Id)
    requires c in w
    ensures AheadOf(w + [x], c) == AheadOf(w, c)
  {
    if w[0] != c {
      AheadAfterAppend(w[1..], x, c);
      assert (w + [x])[1..] == w[1..] + [x];
    }
  }

  lemma {:induction false} AheadAfterRemoval(w: seq<Id>, x: Id, c: Id)
    requires x != c && c in w
    ensures AheadOf(Without(w, x), c) <= AheadOf(w, c) && c in Without(w, x)
  {
    if w[0] != c && w[0] != x {
      AheadAfterRemoval(w[1..], x, c);
      assert Without(w, x)[1..] == Without(w[1..], x);
    }
  }

  /** While c waits, permits only go to those ahead of it. */
  ghost predicate Respects(before: Pool, after: Pool, c: Id) {
    if c in after.waiters
    then AheadOf(after.waiters, c) <= AheadOf(before.waiters, c)
         && PermitHolders(after.tasks) <= PermitHolders(before.tasks) + AheadOf(before.waiters, c)
    else PermitHolders(after.tasks) <= PermitHolders(before.tasks) + {c}
  }

  lemma ReleaseRespects(p: Pool, c: Id)
    requires QueueInv(p) && c in p.waiters
    ensures Respects(p, Release(p), c)
    ensures c in Release(p).waiters || c in PermitHolders(Release(p).tasks)
  {
    assert p.waiters[0] in p.waiters;
    if p.waiters[0] != c {
      assert c in p.waiters[1..];
    }
  }

  lemma DropRespects(p: Pool, x: Id, c: Id)
    requires QueueInv(p) && c in p.waiters && x in p.tasks
    ensures Respects(p, Drop(p, x), c)
    ensures x == c || c in Drop(p, x).waiters || c in PermitHolders(Drop(p, x).tasks)
  {
    WithoutRemoves(p.waiters, x);
    var rest := p.(tasks := p.tasks - {x});
    match p.tasks[x].stage
    case Spawned =>
    case Waiting => if x != c { AheadAfterRemoval(p.waiters, x, c); }
    case Handed => ReleaseRespects(rest.(queueFree := p.queueFree + 1), c);
    case Active => ReleaseRespects(rest, c);
  }

  lemma PollRespects(p: Pool, x: Id, c: Id)
    requires QueueInv(p) && c in p.waiters
    ensures Respects(p, Poll(p, x), c) && c in Poll(p, x).waiters
  {
    AheadAfterAppend(p.waiters, x, c);
  }

  lemma ResumeRespects(p: Pool, x: Id, c: Id)
    requires c in p.waiters && x in p.tasks && HasPermit(p.tasks[x])
    ensures Respects(p, Resume(p, x), c) && c in Resume(p, x).waiters
  {}

  /** A listener may start another task, but with c waiting there is no permit for it. */
  lemma ListenerStepRespects(s: State, step: Step, c: Id)
    requires QueueInv(s.pool) && FreshSockets(s) && Enabled(s, step) && !IsTaskStep(step) && c in s.pool.waiters
    ensures Respects(s.pool, Apply(s, step).pool, c) && c in Apply(s, step).pool.waiters
  {
    var after := Apply(s, step).pool;
    assert after.waiters == s.pool.waiters;
    assert PermitHolders(after.tasks) == PermitHolders(s.pool.tasks);
  }

  lemma StepRespects(s: State, step: Step, c: Id)
    requires Inv(s) && Enabled(s, step) && c in s.pool.waiters
    ensures Respects(s.pool, Apply(s, step).pool, c)
    ensures c in Apply(s, step).pool.waiters || c in PermitHolders(Apply(s, step).pool.tasks) || step == AbortTask(c)
  {
    if !IsTaskStep(step) {
      ListenerStepRespects(s, step, c);
    } else {
      match step
      case PollTask(x) => PollRespects(s.pool, x, c);
      case ResumeTask(x) => ResumeRespects(s.pool, x, c);
      case EndTask(x) => DropRespects(s.pool, x, c);
      case AbortTask(x) => DropRespects(s.pool, x, c);
    }
  }

  lemma {:induction false} StillWaiting(states: seq<State>, steps: seq<Step>, i: nat, j: nat, c: Id)
    requires IsRun(states, steps) && IsStart(states[0]) && i <= j < |states|
    requires forall m :: i <= m <= j ==> c in states[m].pool.waiters
    ensures AheadOf(states[j].pool.waiters, c) <= AheadOf(states[i].pool.waiters, c)
    ensures PermitHolders(states[j].pool.tasks) <= PermitHolders(states[i].pool.tasks) + AheadOf(states[i].pool.waiters, c)
    decreases j - i
  {
    if i < j {
      StillWaiting(states, steps, i, j - 1, c);
      InvHolds(states, steps, j - 1);
      assert StepAt(states, steps, j - 1);
      StepRespects(states[j - 1], steps[j - 1], c);
    }
  }

  /** c got its permit, or was aborted, at state k, and d held none up to then. */
  ghost predicate ServedFirst(states: seq<State>, steps: seq<Step>, i: nat, k: nat, c: Id, d: Id)
    requires |states| == |steps| + 1
  {
    && i < k < |states|
    && (c in PermitHolders(states[k].pool.tasks) || steps[k - 1] == AbortTask(c))
    && forall m :: i <= m <= k ==> d !in PermitHolders(states[m].pool.tasks)
  }

  /**
   No overtaking: once c is registered, nobody who was neither ahead of it nor already holding a permit
   gets one before c does, unless c is aborted. Ports play no part.
   */
  lemma NoOvertaking(states: seq<State>, steps: seq<Step>, i: nat, j: nat, c: Id, d: Id)
    requires IsRun(states, steps) && IsStart(states[0]) && i <= j < |states|
    requires c in states[i].pool.waiters && d != c
    requires d !in PermitHolders(states[i].pool.tasks) && d !in AheadOf(states[i].pool.waiters, c)
    requires d in PermitHolders(states[j].pool.tasks)
    ensures exists k :: i < k <= j && ServedFirst(states, steps, i, k, c, d)
  {
    var k := i;
    while k < j && c in states[k + 1].pool.waiters
      invariant i <= k <= j
      invariant forall m :: i <= m <= k ==> c in states[m].pool.waiters
    {
      k := k + 1;
    }
    NotServedWhileWaiting(states, steps, i, k, c, d);
    LeavingTheQueue(states, steps, k, c);
    assert ServedFirst(states, steps, i, k + 1, c, d);
  }

  lemma NotServedWhileWaiting(states: seq<State>, steps: seq<Step>, i: nat, k: nat, c: Id, d: Id)
    requires IsRun(states, steps) && IsStart(states[0]) && i <= k < |states|
    requires forall m :: i <= m <= k ==> c in states[m].pool.waiters
    requires d !in PermitHolders(states[i].pool.tasks) && d !in AheadOf(states[i].pool.waiters, c)
    ensures forall m :: i <= m <= k ==> d !in PermitHolders(states[m].pool.tasks)
  {
    forall m | i <= m <= k ensures d !in PermitHolders(states[m].pool.tasks) {
      StillWaiting(states, steps, i, m, c);
    }
  }

  /** The step at which c stops waiting hands c a permit or aborts it, and gives nobody else one. */
  lemma LeavingTheQueue(states: seq<State>, steps: seq<Step>, k: nat, c: Id)
    requires IsRun(states, steps) && IsStart(states[0]) && k < |steps|
    requires c in states[k].pool.waiters && c !in states[k + 1].pool.waiters
    ensures c in PermitHolders(states[k + 1].pool.tasks) || steps[k] == AbortTask(c)
    ensures PermitHolders(states[k + 1].pool.tasks) <= PermitHolders(states[k].pool.tasks) + {c}
  {
    InvHolds(states, steps, k);
    assert StepAt(states, steps, k);
    StepRespects(states[k], steps[k], c);
  }

  /** In particular nobody accepted after c registered, on any port, is served before c. */
  lemma LaterAcceptedWaits(states: seq<State>, steps: seq<Step>, i: nat, j: nat, c: Id, d: Id)
    requires IsRun(states, steps) && IsStart(states[0]) && i <= j < |states|
    requires c in states[i].pool.waiters && d >= states[i].nextId
    requires d in PermitHolders(states[j].pool.tasks)
    ensures exists k :: i < k <= j && ServedFirst(states, steps, i, k, c, d)
  {
    InvHolds(states, steps, i);
    AheadInWaiters(states[i].pool.waiters, c);
    NoOvertaking(states, steps, i, j, c, d);
  }

  /** Listener 0 fills the pool and queues task 1; the pool frees up; listener 1 then accepts task 2. */
  function Script(): seq<Step> {
    [Accept(0), TryPermit(0), Reap(0), Accept(0), TryPermit(0), TryQueue(0), EndTask(0), Accept(1), TryPermit(1)]
  }

  function Scenes(): seq<State> {
    var none: map<Id, Task> := map[];
    var first := map[0 := Task(0, Active)];
    var both := first[1 := Task(0, Spawned)];
    var alone := both - {0};
    var other := alone[2 := Task(1, Active)];
    var x0: set<Id> := {};
    var x1 := x0 + {0};
    var x2 := x1 * first.Keys;
    var x3 := x2 + {1};
    [ Pair(Pool(1, [], 1, none), Accepting, x0, Accepting, x0, 0),
      Pair(Pool(1, [], 1, none), Judging(0), x0, Accepting, x0, 1),
      Pair(Pool(0, [], 1, first), Reaping, x1, Accepting, x0, 1),
      Pair(Pool(0, [], 1, first), Accepting, x2, Accepting, x0, 1),
      Pair(Pool(0, [], 1, first), Judging(1), x2, Accepting, x0, 2),
      Pair(Pool(0, [], 1, first), Queueing(1), x2, Accepting, x0, 2),
      Pair(Pool(0, [], 0, both), Reaping, x3, Accepting, x0, 2),
      Pair(Pool(1, [], 0, alone), Reaping, x3, Accepting, x0, 2),
      Pair(Pool(1, [], 0, alone), Reaping, x3, Judging(2), x0, 3),
      Pair(Pool(0, [], 0, other), Reaping, x3, Reaping, x0 + {2}, 3)]
  }

  lemma ScriptFills()
    ensures StepAt(Scenes(), Script(), 0) && StepAt(Scenes(), Script(), 1)
  {}

  lemma ScriptReaps()
    ensures StepAt(Scenes(), Script(), 2) && StepAt(Scenes(), Script(), 3) && StepAt(Scenes(), Script(), 4)
  {}

  lemma ScriptQueues()
    ensures StepAt(Scenes(), Script(), 5) && StepAt(Scenes(), Script(), 6)
  {}

  lemma ScriptOvertakes()
    ensures StepAt(Scenes(), Script(), 7) && StepAt(Scenes(), Script(), 8)
  {}

  lemma ScriptRuns()
    ensures IsRun(Scenes(), Script())
  {
    ScriptFills();
    ScriptReaps();
    ScriptQueues();
    ScriptOvertakes();
  }

  /** A queued task that has not been polled has no such protection: a run in which it is overtaken. */
  lemma UnpolledCanBeOvertaken()
    ensures var states := Scenes();
      && IsRun(states, Script()) && Initial(states[0]) && states[6].nextId == 2
      && (forall i :: 6 <= i < 10 ==> 1 in states[i].pool.tasks && states[i].pool.tasks[1].stage == Spawned)
      && 2 in PermitHolders(states[9].pool.tasks) && states[9].pool.tasks[2].owner != states[9].pool.tasks[1].owner
  {
    ScriptRuns();
  }

  /** Two listeners over a pool and a queue of one. */
  function Pair(pool: Pool, a: Phase, x: set<Id>, b: Phase, y: set<Id>, nextId: Id): State {
    State(1, 1, pool, [Listener(a, x), Listener(b, y)], false, 0, nextId, [])
  }

  // ---- Shutdown ----

  /** The live tasks listener l spawned. */
  ghost function LiveOf(s: State, l: nat): set<Id> {
    set c | c in s.pool.tasks && s.pool.tasks[c].owner == l
  }

  /** From `before` to `after`, listener l is only shutting down. */
  ghost predicate ShutsDown(before: State, after: State, l: nat)
    requires l < |before.listeners| && l < |after.listeners|
  {
    var x, y := before.listeners[l], after.listeners[l];
    && !InAcceptLoop(y.phase) && y.connections <= x.connections && LiveOf(after, l) <= LiveOf(before, l)
    && (y.phase.Draining? ==> y.phase == x.phase)
    && (IsGone(x.phase) ==> y.phase == x.phase)
    && (x.phase.Draining? && y.phase.Returned? ==> y.phase.outcome == x.phase.outcome)
  }

  /** The step takes a socket, or spawns a task, for listener l. */
  predicate AcceptsFor(step: Step, l: nat) {
    (IsAcceptStep(step) || step.AcceptError?) && step.l == l
  }

  lemma StepShutsDown(s: State, step: Step, l: nat)
    requires Inv(s) && Enabled(s, step) && l < |s.listeners| && !InAcceptLoop(s.listeners[l].phase)
    ensures !AcceptsFor(step, l) && |Apply(s, step).listeners| == |s.listeners|
    ensures ShutsDown(s, Apply(s, step), l)
  {
    if IsTaskStep(step) {
      TaskStepsAddNothing(s, step);
    }
  }

  lemma ShutsDownTransitive(a: State, b: State, c: State, l: nat)
    requires l < |a.listeners| && l < |b.listeners| && l < |c.listeners|
    requires !InAcceptLoop(a.listeners[l].phase) && ShutsDown(a, b, l) && ShutsDown(b, c, l)
    ensures ShutsDown(a, c, l)
  {}

  /** Timers fire on time. */
  lemma DeadlineAhead(states: seq<State>, steps: seq<Step>, i: nat, l: nat)
    requires IsRun(states, steps) && Initial(states[0]) && i < |states|
    requires l < |states[i].listeners| && states[i].listeners[l].phase.Draining?
    ensures states[i].clock <= states[i].listeners[l].phase.deadline <= states[i].clock + 10 * SECOND
  {
    InvHolds(states, steps, i);
  }

  lemma RunStepShutsDown(states: seq<State>, steps: seq<Step>, i: nat, l: nat)
    requires IsRun(states, steps) && Initial(states[0]) && i < |steps|
    requires l < |states[i].listeners| && !InAcceptLoop(states[i].listeners[l].phase)
    ensures !AcceptsFor(steps[i], l) && |states[i + 1].listeners| == |states[i].listeners|
    ensures ShutsDown(states[i], states[i + 1], l)
  {
    InvHolds(states, steps, i);
    assert StepAt(states, steps, i);
    StepShutsDown(states[i], steps[i], l);
  }

  /**
   Once out of its accept loop a listener never accepts or spawns again: its set and its live tasks
   only shrink, it keeps its deadline and its outcome, and past the deadline it is gone.
   */
  lemma {:induction false} AfterAcceptLoop(states: seq<State>, steps: seq<Step>, i: nat, j: nat, l: nat)
    requires IsRun(states, steps) && Initial(states[0]) && i <= j < |states|
    requires l < |states[i].listeners| && !InAcceptLoop(states[i].listeners[l].phase)
    ensures |states[j].listeners| == |states[i].listeners| && ShutsDown(states[i], states[j], l)
    ensures forall m :: i <= m < j ==> !AcceptsFor(steps[m], l)
    ensures states[i].listeners[l].phase.Draining? && states[j].clock > states[i].listeners[l].phase.deadline ==>
              IsGone(states[j].listeners[l].phase)
    decreases j - i
  {
    if i < j {
      AfterAcceptLoop(states, steps, i, j - 1, l);
      RunStepShutsDown(states, steps, j - 1, l);
      ShutsDownTransitive(states[i], states[j - 1], states[j], l);
    }
    if states[j].listeners[l].phase.Draining? {
      DeadlineAhead(states, steps, j, l);
    }
  }

  /** A listener is gone within 10 s of leaving its accept loop. */
  lemma GoneWithinTheLimit(states: seq<State>, steps: seq<Step>, i: nat, j: nat, l: nat)
    requires IsRun(states, steps) && Initial(states[0]) && i < j < |states|
    requires l < |states[i].listeners| && InAcceptLoop(states[i].listeners[l].phase)
    requires |states[i + 1].listeners| == |states[i].listeners| && !InAcceptLoop(states[i + 1].listeners[l].phase)
    ensures |states[j].listeners| == |states[i].listeners|
    ensures states[j].clock > states[i].clock + 10 * SECOND ==> IsGone(states[j].listeners[l].phase)
  {
    assert StepAt(states, steps, i);
    AfterAcceptLoop(states, steps, i + 1, j, l);
  }

  lemma {:induction false} ClockOnlyAdvances(states: seq<State>, steps: seq<Step>, i: nat, j: nat)
    requires IsRun(states, steps) && i <= j < |states|
    ensures states[i].clock <= states[j].clock
    decreases j - i
  {
    if i < j {
      ClockOnlyAdvances(states, steps, i, j - 1);
      assert StepAt(states, steps, j - 1);
    }
  }

  /** A drain ends in time only when no connection of the listener is left. */
  lemma DrainEndsDoneOrDue(states: seq<State>, steps: seq<Step>, k: nat, l: nat)
    requires IsRun(states, steps) && Initial(states[0]) && k < |steps| && l < |states[k].listeners|
    requires states[k].listeners[l].phase.Draining? && l < |states[k + 1].listeners| && states[k + 1].listeners[l].phase.Returned?
    ensures states[k].clock == states[k].listeners[l].phase.deadline || LiveOf(states[k + 1], l) == {}
  {
    InvHolds(states, steps, k);
    assert StepAt(states, steps, k);
  }

  /** A connection goes by ending, once it is active, or by being aborted, once its listener is gone. */
  lemma HowConnectionsGo(states: seq<State>, steps: seq<Step>, i: nat, c: Id)
    requires IsRun(states, steps) && Initial(states[0]) && i < |steps|
    requires c in states[i].pool.tasks && c !in states[i + 1].pool.tasks
    ensures var task := states[i].pool.tasks[c];
      || (steps[i] == EndTask(c) && task.stage.Active?)
      || (steps[i] == AbortTask(c) && task.owner < |states[i].listeners|
          && (states[i].listeners[task.owner].phase.Returned? || states[i].listeners[task.owner].phase.Panicked?))
  {
    InvHolds(states, steps, i);
    assert StepAt(states, steps, i);
    var p := states[i].pool;
    match steps[i]
    case EndTask(x) => DropRemovesOne(p, x);
    case AbortTask(x) => DropRemovesOne(p, x);
    case _ =>
  }

  /** No connection of a listener that returns is aborted before the full 10 s of its drain are over. */
  lemma DrainGivesTenSeconds(states: seq<State>, steps: seq<Step>, i: nat, j: nat, l: nat, c: Id)
    requires IsRun(states, steps) && Initial(states[0]) && i < j < |states|
    requires l < |states[i].listeners| && InAcceptLoop(states[i].listeners[l].phase)
    requires |states[i + 1].listeners| == |states[i].listeners| && states[i + 1].listeners[l].phase.Draining?
    requires |states[j].listeners| == |states[i].listeners| && states[j].listeners[l].phase.Returned?
    requires c in states[j].pool.tasks && states[j].pool.tasks[c].owner == l
    ensures states[j].clock >= states[i].clock + 10 * SECOND
  {
    var k := i + 1;
    while k < j && l < |states[k + 1].listeners| && states[k + 1].listeners[l].phase.Draining?
      invariant i < k <= j && l < |states[k].listeners| && states[k].listeners[l].phase.Draining?
    {
      k := k + 1;
    }
    AfterAcceptLoop(states, steps, i + 1, k, l);
    RunStepShutsDown(states, steps, k, l);
    AfterAcceptLoop(states, steps, k + 1, j, l);
    DrainEndsDoneOrDue(states, steps, k, l);
    assert c in LiveOf(states[j], l);
    ClockOnlyAdvances(states, steps, k, j);
    assert StepAt(states, steps, i);
  }

  /** What a draining listener has left: time to its deadline, and entries to join. */
  ghost function DrainMeasure(s: State, l: nat): int
    requires l < |s.listeners| && s.listeners[l].phase.Draining?
  {
    s.listeners[l].phase.deadline - s.clock + |s.listeners[l].connections|
  }

  function StepProgress(step: Step, l: nat): nat {
    match step
    case Tick(time) => time
    case JoinTask(k, _) => if k == l then 1 else 0
    case _ => 0
  }

  /** Time passed and entries joined by l over steps[i..j]. */
  function Progress(steps: seq<Step>, i: nat, j: nat, l: nat): nat
    requires i <= j <= |steps|
    decreases j - i
  {
    if i == j then 0 else Progress(steps, i, j - 1, l) + StepProgress(steps[j - 1], l)
  }

  lemma StepConsumesMeasure(states: seq<State>, steps: seq<Step>, i: nat, l: nat)
    requires IsRun(states, steps) && Initial(states[0]) && i < |steps|
    requires l < |states[i].listeners| && !InAcceptLoop(states[i].listeners[l].phase)
    requires l < |states[i + 1].listeners| && states[i + 1].listeners[l].phase.Draining?
    ensures states[i].listeners[l].phase.Draining?
    ensures DrainMeasure(states[i + 1], l) == DrainMeasure(states[i], l) - StepProgress(steps[i], l)
  {
    RunStepShutsDown(states, steps, i, l);
    var s, step := states[i], steps[i];
    assert StepAt(states, steps, i);
    if step.JoinTask? && step.l == l {
      var x := s.listeners[l].connections;
      assert |x - {step.c}| == |x| - 1;
    }
  }

  /** All the progress a drain makes comes out of its measure, which never goes below zero. */
  lemma {:induction false} DrainConsumesMeasure(states: seq<State>, steps: seq<Step>, i: nat, j: nat, l: nat)
    requires IsRun(states, steps) && Initial(states[0]) && i <= j < |states|
    requires l < |states[i].listeners| && states[i].listeners[l].phase.Draining?
    requires l < |states[j].listeners| && states[j].listeners[l].phase.Draining?
    ensures 0 <= DrainMeasure(states[j], l) == DrainMeasure(states[i], l) - Progress(steps, i, j, l)
    decreases j - i
  {
    DeadlineAhead(states, steps, j, l);
    if i < j {
      AfterAcceptLoop(states, steps, i, j - 1, l);
      StepConsumesMeasure(states, steps, j - 1, l);
      DrainConsumesMeasure(states, steps, i, j - 1, l);
    }
  }

  /** The timers never block each other for good: time can pass, or some drain can time out now. */
  lemma TimeNeverStuck(states: seq<State>, steps: seq<Step>, i: nat)
    requires IsRun(states, steps) && Initial(states[0]) && i < |states|
    ensures Enabled(states[i], Tick(1)) || exists l :: Enabled(states[i], DrainTimeout(l))
  {
    InvHolds(states, steps, i);
    var s := states[i];
    if !MayPass(s, 1) {
      var l :| 0 <= l < |s.listeners| && s.listeners[l].phase.Draining? && s.clock + 1 > s.listeners[l].phase.deadline;
      assert Enabled(s, DrainTimeout(l));
    }
  }

  ghost predicate AllGone(s: State) {
    forall l :: 0 <= l < |s.listeners| ==> IsGone(s.listeners[l].phase)
  }

  /** With every listener gone tasks only disappear, and with the last one both semaphores are whole. */
  lemma ShutdownRestores(states: seq<State>, steps: seq<Step>, i: nat, j: nat)
    requires IsRun(states, steps) && Initial(states[0]) && i <= j < |states| && AllGone(states[i])
    ensures AllGone(states[j]) && states[j].pool.tasks.Keys <= states[i].pool.tasks.Keys
    ensures states[j].pool.tasks == map[] ==>
              states[j].pool.free == states[0].maxConnections && states[j].pool.queueFree == states[0].maxQueue
  {
    InvHolds(states, steps, j);
    InvHolds(states, steps, i);
    forall l | 0 <= l < |states[j].listeners| ensures IsGone(states[j].listeners[l].phase) {
      AfterAcceptLoop(states, steps, i, j, l);
    }
    forall c | c in states[j].pool.tasks ensures c in states[i].pool.tasks {
      var l := states[j].pool.tasks[c].owner;
      AfterAcceptLoop(states, steps, i, j, l);
      assert c in LiveOf(states[j], l);
    }
    if states[j].pool.tasks == map[] {
      EmptyIsRestored(states[j].pool, states[j].maxConnections, states[j].maxQueue);
    }
  }

  /** A run of aborts, one per live task, that leaves none. */
  ghost predicate Empties(s: State, states: seq<State>, steps: seq<Step>) {
    && IsRun(states, steps) && states[0] == s && |steps| == |s.pool.tasks|
    && (forall k :: 0 <= k < |steps| ==> steps[k].AbortTask?)
    && states[|steps|].pool.tasks == map[]
  }

  /** And nothing can stop the aborts: one step per remaining task empties the pool. */
  lemma {:induction false} AbortsEmptyThePool(s: State) returns (states: seq<State>, steps: seq<Step>)
    requires Inv(s) && AllGone(s)
    ensures Empties(s, states, steps)
    decreases |s.pool.tasks|
  {
    if s.pool.tasks == map[] {
      return [s], [];
    }
    var c :| c in s.pool.tasks;
    AbortRemovesOne(s, c);
    var rest, more := AbortsEmptyThePool(Apply(s, AbortTask(c)));
    EmptiesPrepend(s, c, rest, more);
    return [s] + rest, [AbortTask(c)] + more;
  }

  lemma EmptiesPrepend(s: State, c: Id, states: seq<State>, steps: seq<Step>)
    requires Enabled(s, AbortTask(c)) && Empties(Apply(s, AbortTask(c)), states, steps)
    requires |Apply(s, AbortTask(c)).pool.tasks| == |s.pool.tasks| - 1
    ensures Empties(s, [s] + states, [AbortTask(c)] + steps)
  {
    RunPrepend(s, AbortTask(c), states, steps);
  }

  lemma RunPrepend(s: State, step: Step, states: seq<State>, steps: seq<Step>)
    requires Enabled(s, step) && IsRun(states, steps) && states[0] == Apply(s, step)
    ensures IsRun([s] + states, [step] + steps)
  {
    forall i | 0 <= i < |[step] + steps| ensures StepAt([s] + states, [step] + steps, i) {
      if i > 0 {
        assert StepAt(states, steps, i - 1);
      }
    }
  }

  lemma AbortRemovesOne(s: State, c: Id)
    requires Inv(s) && AllGone(s) && c in s.pool.tasks
    ensures Enabled(s, AbortTask(c))
    ensures var after := Apply(s, AbortTask(c));
      Inv(after) && AllGone(after) && |after.pool.tasks| == |s.pool.tasks| - 1
  {
    StepKeepsInv(s, AbortTask(c));
    DropRemovesOne(s.pool, c);
  }

  lemma DropRemovesOne(p: Pool, c: Id)
    requires QueueInv(p) && c in p.tasks
    ensures Drop(p, c).tasks.Keys == p.tasks.Keys - {c} && |Drop(p, c).tasks| == |p.tasks| - 1
  {
    assert p.waiters != [] ==> p.waiters[0] in p.waiters;
    assert |Drop(p, c).tasks.Keys| == |p.tasks.Keys| - 1;
  }

  // ---- Failure propagation ----

  /** A listener drains, whatever the reason, only with the token cancelled. */
  lemma DrainingMeansCancelled(states: seq<State>, steps: seq<Step>, i: nat, l: nat)
    requires IsRun(states, steps) && Initial(states[0]) && i < |states| && l < |states[i].listeners|
    requires states[i].listeners[l].phase.Draining? || states[i].listeners[l].phase.Returned?
    ensures states[i].cancelled
  {
    InvHolds(states, steps, i);
  }

  /**
   A signal, a permanent accept error or a failed listener joined by `run` cancels the token, it stays
   cancelled, and from then on any listener waiting in `accept` may leave.
   */
  lemma {:induction false} CancellationSticks(states: seq<State>, steps: seq<Step>, i: nat, j: nat)
    requires IsRun(states, steps) && Initial(states[0]) && i < j < |states|
    requires || states[i].cancelled || steps[i] == Signal || steps[i].LeaveFailed?
             || (steps[i].JoinListener? && steps[i].l < |states[i].listeners|
                 && (states[i].listeners[steps[i].l].phase.Panicked?
                     || (states[i].listeners[steps[i].l].phase.Returned? && states[i].listeners[steps[i].l].phase.outcome.Err?)))
    ensures states[j].cancelled
    ensures forall l: nat :: At(states[j], l) && states[j].listeners[l].phase.Accepting? ==> Enabled(states[j], LeaveCancelled(l))
    decreases j - i
  {
    if i + 1 < j {
      CancellationSticks(states, steps, i, j - 1);
    }
    assert StepAt(states, steps, j - 1);
  }

  /** The first error among the outcomes joined, in join order. */
  ghost function FirstError(s: State, joined: seq<nat>): Result<Unit>
    requires forall k :: 0 <= k < |joined| ==> joined[k] < |s.listeners| && IsGone(s.listeners[joined[k]].phase)
  {
    if joined == [] then Ok(Unit.Unit)
    else
      var before := FirstError(s, joined[..|joined| - 1]);
      if before.Err? then before else OutcomeOf(s.listeners[joined[|joined| - 1]].phase)
  }

  /** The listener returned without an error. */
  predicate IsWell(ph: Phase) { ph.Returned? && ph.outcome.Ok? }

  /** It returned this error, or it panicked, which is reported as a cancelled task. */
  predicate FailedWith(ph: Phase, e: ProxyError) {
    match ph
    case Returned(Err(error)) => e == error
    case Panicked => e == TaskCancellation
    case _ => false
  }

  /** The result of joining these listeners in this order: the first failure, if there is one. */
  ghost predicate IsFirstFailure(s: State, joined: seq<nat>, res: Result<Unit>)
    requires forall k :: 0 <= k < |joined| ==> joined[k] < |s.listeners|
  {
    match res
    case Ok(_) => forall k :: 0 <= k < |joined| ==> IsWell(s.listeners[joined[k]].phase)
    case Err(e) =>
      exists k :: 0 <= k < |joined| && FailedWith(s.listeners[joined[k]].phase, e)
                  && forall j :: 0 <= j < k ==> IsWell(s.listeners[joined[j]].phase)
  }

  lemma {:induction false} FirstErrorIs(s: State, joined: seq<nat>)
    requires forall k :: 0 <= k < |joined| ==> joined[k] < |s.listeners| && IsGone(s.listeners[joined[k]].phase)
    ensures IsFirstFailure(s, joined, FirstError(s, joined))
  {
    if joined != [] {
      var n := |joined| - 1;
      var before := joined[..n];
      FirstErrorIs(s, before);
      assert forall k :: 0 <= k < n ==> joined[k] == before[k];
    }
  }

  /** `run` has joined every listener it spawned. */
  ghost predicate AllJoined(s: State) {
    forall l :: 0 <= l < |s.listeners| ==> l in s.joined
  }

  /**
   What `run` may return at s: every listener has returned or panicked and has been joined; Ok exactly
   when all of them returned Ok; else, under a cancelled token, what the first failed one in join order
   failed with.
   */
  ghost predicate IsRunResult(s: State, res: Result<Unit>) {
    && AllJoined(s) && (forall k :: 0 <= k < |s.joined| ==> s.joined[k] < |s.listeners|)
    && (forall l :: 0 <= l < |s.listeners| ==> s.listeners[l].phase.Returned? || s.listeners[l].phase.Panicked?)
    && (res.Ok? <==> forall l :: 0 <= l < |s.listeners| ==> IsWell(s.listeners[l].phase))
    && (res.Err? ==> s.cancelled)
    && IsFirstFailure(s, s.joined, res)
  }

  lemma RunResult(states: seq<State>, steps: seq<Step>, i: nat)
    requires IsRun(states, steps) && Initial(states[0]) && i < |states| && AllJoined(states[i])
    ensures AllGone(states[i]) && JoinedAreGone(states[i])
    ensures IsRunResult(states[i], FirstError(states[i], states[i].joined))
  {
    InvHolds(states, steps, i);
    var s := states[i];
    var res := FirstError(s, s.joined);
    FirstErrorIs(s, s.joined);
    forall l | 0 <= l < |s.listeners| ensures IsGone(s.listeners[l].phase) && (res.Ok? ==> IsWell(s.listeners[l].phase)) {
      assert l in s.joined;
      var k :| 0 <= k < |s.joined| && s.joined[k] == l;
    }
  }
}
