/** Exactly when a connection can be served before another that is still waiting its turn. */
module Overtaking {
  import opened ConnectionPool
  import opened Admission
  import opened Paths
  import Runs = AdmissionRuns

  /** In some continuation d holds a permit while c, never aborted, has not had one yet. */
  ghost predicate CanBeServedBefore(s: State, d: Id, c: Id) {
    exists t :: Path(Skipping(c), s, t) && IsUnserved(t, c) && d in PermitHolders(t.pool.tasks)
  }

  predicate CanTake(ph: Phase) { ph.Reaping? || ph.Accepting? || HasSocket(ph) }

  /** Some listener can still take a socket, at once or after it has dealt with the one in hand. */
  predicate TakesSockets(s: State) {
    exists l :: 0 <= l < |s.listeners| && CanTake(s.listeners[l].phase)
  }

  /** d has no task yet, but it can still get one while a queue slot stays taken. */
  predicate MayStillCome(s: State, d: Id) {
    || (d >= s.nextId && TakesSockets(s))
    || (exists l :: 0 <= l < |s.listeners| && s.listeners[l].phase == Judging(d))
    || (s.maxQueue >= 2 && exists l :: 0 <= l < |s.listeners| && s.listeners[l].phase == Queueing(d))
  }

  predicate MayOvertake(s: State, d: Id, c: Id)
    requires c in s.pool.tasks
  {
    match s.pool.tasks[c].stage
    case Spawned => s.maxConnections > 0 && (d in s.pool.tasks || MayStillCome(s, d))
    case Waiting => d in PermitHolders(s.pool.tasks) || (s.maxConnections > 0 && d in AheadOf(s.pool.waiters, c))
    case _ => false
  }

  // ---- Building a continuation ----

  /** From s to t past c, which stands where it stood. */
  ghost predicate Skips(s: State, t: State, c: Id) {
    && Path(Skipping(c), s, t) && Inv(t) && t.maxConnections == s.maxConnections && t.maxQueue == s.maxQueue
    && |t.listeners| == |s.listeners| && IsUnserved(s, c) && c in t.pool.tasks && t.pool.tasks[c] == s.pool.tasks[c]
  }

  lemma SkipNothing(s: State, c: Id)
    requires Inv(s) && IsUnserved(s, c)
    ensures Skips(s, s, c)
  {
    PathHere(Skipping(c), s);
  }

  lemma SkipStep(s: State, step: Step, c: Id)
    requires Inv(s) && Enabled(s, step) && IsUnserved(s, c)
    requires c in Apply(s, step).pool.tasks && Apply(s, step).pool.tasks[c] == s.pool.tasks[c]
    ensures Skips(s, Apply(s, step), c)
  {
    PathStep(Skipping(c), s, step);
    StepKeepsInv(s, step);
  }

  lemma SkipJoin(s: State, t: State, u: State, c: Id)
    requires Skips(s, t, c) && Skips(t, u, c)
    ensures Skips(s, u, c)
  {
    PathJoin(Skipping(c), s, t, u);
  }

  /** Only the pool has changed. */
  ghost predicate SameOutside(s: State, t: State) { t == s.(pool := t.pool) }

  /** The next step of a task that has a permit: drop the queue slot, then end. */
  function Finish(s: State, x: Id): Step
    requires x in s.pool.tasks
  {
    if s.pool.tasks[x].stage.Handed? then ResumeTask(x) else EndTask(x)
  }

  /** Fewer tasks, or as many with fewer queue slots among them. */
  ghost predicate Fewer(q: Pool, p: Pool) {
    |q.tasks| < |p.tasks| || (|q.tasks| == |p.tasks| && |SlotHolders(q.tasks)| < |SlotHolders(p.tasks)|)
  }

  /** The tasks without a permit stand where they stood, but the first waiter may have been handed one. */
  ghost predicate OnlyFirstServed(p: Pool, q: Pool) {
    && (forall y :: y in p.tasks && !HasPermit(p.tasks[y]) && (p.waiters == [] || y != p.waiters[0]) ==>
          y in q.tasks && q.tasks[y] == p.tasks[y])
    && (q.waiters != p.waiters ==>
          p.waiters != [] && q.waiters == p.waiters[1..] && IsHanded(q, p.waiters[0]))
  }

  predicate IsHanded(p: Pool, d: Id) { d in p.tasks && p.tasks[d].stage.Handed? }

  lemma ResumeMovesOn(p: Pool, x: Id)
    requires IsHanded(p, x)
    ensures Fewer(Resume(p, x), p) && OnlyFirstServed(p, Resume(p, x))
  {
    SlotsAfterUpdate(p.tasks, x, p.tasks[x].(stage := Active));
    assert Resume(p, x).tasks.Keys == p.tasks.Keys;
    assert |p.tasks| == |p.tasks.Keys| && |Resume(p, x).tasks| == |Resume(p, x).tasks.Keys|;
  }

  lemma EndMovesOn(p: Pool, x: Id)
    requires QueueInv(p) && x in p.tasks && p.tasks[x].stage.Active?
    ensures Fewer(Drop(p, x), p) && OnlyFirstServed(p, Drop(p, x))
  {
    Runs.DropRemovesOne(p, x);
    assert p.waiters != [] ==> p.waiters[0] in p.waiters;
  }

  /** A permit holder moves on. */
  lemma FinishHolder(s: State, x: Id, c: Id)
    requires Inv(s) && IsUnserved(s, c) && x in PermitHolders(s.pool.tasks)
    requires s.pool.waiters == [] || s.pool.waiters[0] != c
    ensures Enabled(s, Finish(s, x))
    ensures var t := Apply(s, Finish(s, x));
      Skips(s, t, c) && SameOutside(s, t) && Fewer(t.pool, s.pool) && OnlyFirstServed(s.pool, t.pool)
  {
    if s.pool.tasks[x].stage.Handed? {
      ResumeMovesOn(s.pool, x);
    } else {
      EndMovesOn(s.pool, x);
    }
    SkipStep(s, Finish(s, x), c);
  }

  lemma SomeHolder(s: State) returns (x: Id)
    requires Inv(s) && s.maxConnections > 0 && s.pool.free == 0
    ensures x in PermitHolders(s.pool.tasks)
  {
    assert PermitHolders(s.pool.tasks) != {};
    x :| x in PermitHolders(s.pool.tasks);
  }

  predicate IsSpawned(s: State, c: Id) { c in s.pool.tasks && s.pool.tasks[c].stage.Spawned? }

  lemma SpawnedIsNoWaiter(s: State, c: Id)
    requires Inv(s) && IsSpawned(s, c)
    ensures s.pool.waiters == [] || s.pool.waiters[0] != c
  {
    assert s.pool.waiters != [] ==> s.pool.waiters[0] in s.pool.waiters;
  }

  /** Permit holders move on until a permit is free. */
  lemma {:induction false} FreePermit(s: State, c: Id) returns (t: State)
    requires Inv(s) && IsSpawned(s, c) && s.maxConnections > 0
    ensures Skips(s, t, c) && SameOutside(s, t) && t.pool.free > 0
    ensures forall y :: IsSpawned(s, y) ==> IsSpawned(t, y)
    decreases |s.pool.tasks|, |SlotHolders(s.pool.tasks)|
  {
    if s.pool.free > 0 {
      SkipNothing(s, c);
      return s;
    }
    var x := SomeHolder(s);
    SpawnedIsNoWaiter(s, c);
    FinishHolder(s, x, c);
    var next := Apply(s, Finish(s, x));
    forall y | IsSpawned(s, y) ensures IsSpawned(next, y) {
      SpawnedIsNoWaiter(s, y);
    }
    t := FreePermit(next, c);
    SkipJoin(s, next, t, c);
  }

  /** The waiter d can be served without c moving. */
  predicate IsPassedBy(s: State, c: Id, d: Id) {
    IsSpawned(s, c) || (c in s.pool.waiters && d in AheadOf(s.pool.waiters, c))
  }

  /** Permit holders move on until the waiter d is handed a permit. */
  lemma {:induction false} ServeWaiter(s: State, d: Id, c: Id) returns (t: State)
    requires Inv(s) && s.maxConnections > 0 && d in s.pool.waiters && IsPassedBy(s, c, d)
    ensures Skips(s, t, c) && SameOutside(s, t) && IsHanded(t.pool, d)
    decreases |s.pool.tasks|, |SlotHolders(s.pool.tasks)|
  {
    var w := s.pool.waiters;
    if IsSpawned(s, c) {
      SpawnedIsNoWaiter(s, c);
    }
    var x := SomeHolder(s);
    FinishHolder(s, x, c);
    var next := Apply(s, Finish(s, x));
    if next.pool.waiters != w && w[0] == d {
      return next;
    }
    assert d in next.pool.waiters;
    t := ServeWaiter(next, d, c);
    SkipJoin(s, next, t, c);
  }

  /** d is polled while a permit is free. */
  lemma PollServes(s: State, d: Id, c: Id)
    requires Inv(s) && s.pool.free > 0 && IsSpawned(s, c) && IsSpawned(s, d) && d != c
    ensures Enabled(s, PollTask(d))
    ensures var t := Apply(s, PollTask(d)); Skips(s, t, c) && SameOutside(s, t) && IsHanded(t.pool, d)
  {
    SkipStep(s, PollTask(d), c);
  }

  /** Any other live task can be served while c stays unpolled. */
  lemma ServeTask(s: State, d: Id, c: Id) returns (t: State)
    requires Inv(s) && s.maxConnections > 0 && IsSpawned(s, c) && d in s.pool.tasks && d != c
    ensures Skips(s, t, c) && SameOutside(s, t) && d in PermitHolders(t.pool.tasks)
    ensures !s.pool.tasks[d].stage.Active? ==> IsHanded(t.pool, d)
  {
    match s.pool.tasks[d].stage
    case Spawned =>
      var free := FreePermit(s, c);
      assert IsSpawned(free, d);
      PollServes(free, d, c);
      t := Apply(free, PollTask(d));
      SkipJoin(s, free, t, c);
    case Waiting => t := ServeWaiter(s, d, c);
    case _ =>
      SkipNothing(s, c);
      t := s;
  }

  lemma ResumeFrees(s: State, y: Id, c: Id)
    requires Inv(s) && IsSpawned(s, c) && IsHanded(s.pool, y)
    ensures Enabled(s, ResumeTask(y))
    ensures var t := Apply(s, ResumeTask(y)); Skips(s, t, c) && SameOutside(s, t) && t.pool.queueFree > 0
  {
    SkipStep(s, ResumeTask(y), c);
  }

  /** With two slots or more, one can be freed while c keeps its own. */
  lemma FreeSlot(s: State, c: Id) returns (t: State)
    requires Inv(s) && s.maxConnections > 0 && s.maxQueue >= 2 && IsSpawned(s, c)
    ensures Skips(s, t, c) && SameOutside(s, t) && t.pool.queueFree > 0
  {
    if s.pool.queueFree > 0 {
      SkipNothing(s, c);
      return s;
    }
    var others := SlotHolders(s.pool.tasks) - {c};
    assert |others| >= |SlotHolders(s.pool.tasks)| - 1;
    var y :| y in others;
    var served := ServeTask(s, y, c);
    ResumeFrees(served, y, c);
    t := Apply(served, ResumeTask(y));
    SkipJoin(s, served, t, c);
  }

  lemma PermitServes(s: State, l: nat, d: Id, c: Id)
    requires Inv(s) && s.pool.free > 0 && IsSpawned(s, c) && At(s, l) && s.listeners[l].phase == Judging(d)
    ensures var t := Apply(s, TryPermit(l));
      Skips(s, t, c) && d in PermitHolders(t.pool.tasks) && t.nextId == s.nextId && t.listeners[l].phase.Reaping?
  {
    SkipStep(s, TryPermit(l), c);
  }

  lemma SlotQueues(s: State, l: nat, d: Id, c: Id)
    requires Inv(s) && s.pool.queueFree > 0 && IsSpawned(s, c) && At(s, l) && s.listeners[l].phase == Queueing(d)
    ensures d != c
    ensures var t := Apply(s, TryQueue(l)); Skips(s, t, c) && IsSpawned(t, d)
  {
    SkipStep(s, TryQueue(l), c);
  }

  lemma ServeJudged(s: State, l: nat, d: Id, c: Id) returns (t: State)
    requires Inv(s) && s.maxConnections > 0 && IsSpawned(s, c) && At(s, l) && s.listeners[l].phase == Judging(d)
    ensures Skips(s, t, c) && d in PermitHolders(t.pool.tasks)
    ensures t.nextId == s.nextId && t.listeners[l].phase.Reaping?
  {
    var free := FreePermit(s, c);
    PermitServes(free, l, d, c);
    t := Apply(free, TryPermit(l));
    SkipJoin(s, free, t, c);
  }

  lemma ServeQueueing(s: State, l: nat, d: Id, c: Id) returns (t: State)
    requires Inv(s) && s.maxConnections > 0 && s.maxQueue >= 2 && IsSpawned(s, c)
    requires At(s, l) && s.listeners[l].phase == Queueing(d)
    ensures Skips(s, t, c) && d in PermitHolders(t.pool.tasks)
  {
    var free := FreeSlot(s, c);
    SlotQueues(free, l, d, c);
    var queued := Apply(free, TryQueue(l));
    t := ServeTask(queued, d, c);
    SkipJoin(free, queued, t, c);
    SkipJoin(s, free, t, c);
  }

  /** Steps of the accept loop still to come before its next `accept`. */
  function RoundsLeft(ph: Phase): nat {
    match ph
    case Judging(_) => 3
    case Queueing(_) => 2
    case Reaping => 1
    case _ => 0
  }

  function NextOwn(s: State, l: nat): Step
    requires At(s, l)
  {
    match s.listeners[l].phase
    case Judging(_) => TryPermit(l)
    case Queueing(_) => TryQueue(l)
    case _ => Reap(l)
  }

  /** The listener deals with what it has in hand and waits in `accept` again. */
  lemma {:induction false} GetReady(s: State, l: nat, c: Id) returns (t: State)
    requires Inv(s) && IsSpawned(s, c) && At(s, l) && CanTake(s.listeners[l].phase)
    ensures Skips(s, t, c) && t.nextId == s.nextId && t.listeners[l].phase.Accepting?
    decreases RoundsLeft(s.listeners[l].phase)
  {
    if s.listeners[l].phase.Accepting? {
      SkipNothing(s, c);
      return s;
    }
    SkipStep(s, NextOwn(s, l), c);
    var next := Apply(s, NextOwn(s, l));
    t := GetReady(next, l, c);
    SkipJoin(s, next, t, c);
  }

  /** The next connection to be accepted is served. */
  lemma ServeNext(s: State, l: nat, c: Id) returns (t: State)
    requires Inv(s) && s.maxConnections > 0 && IsSpawned(s, c) && At(s, l) && CanTake(s.listeners[l].phase)
    ensures Skips(s, t, c) && s.nextId in PermitHolders(t.pool.tasks)
    ensures t.nextId == s.nextId + 1 && At(t, l) && CanTake(t.listeners[l].phase)
  {
    var ready := GetReady(s, l, c);
    SkipStep(ready, Accept(l), c);
    var judging := Apply(ready, Accept(l));
    t := ServeJudged(judging, l, s.nextId, c);
    SkipJoin(ready, judging, t, c);
    SkipJoin(s, ready, t, c);
  }

  /** So is any connection accepted later still. */
  lemma {:induction false} ServeLater(s: State, l: nat, d: Id, c: Id) returns (t: State)
    requires Inv(s) && s.maxConnections > 0 && IsSpawned(s, c) && At(s, l) && CanTake(s.listeners[l].phase)
    requires d >= s.nextId
    ensures Skips(s, t, c) && d in PermitHolders(t.pool.tasks)
    decreases d - s.nextId
  {
    var next := ServeNext(s, l, c);
    if d == s.nextId {
      return next;
    }
    t := ServeLater(next, l, d, c);
    SkipJoin(s, next, t, c);
  }

  lemma SkippedIsServedBefore(s: State, t: State, d: Id, c: Id)
    requires Skips(s, t, c) && d in PermitHolders(t.pool.tasks)
    ensures CanBeServedBefore(s, d, c)
  {}

  /** The condition suffices. */
  lemma Overtakes(s: State, d: Id, c: Id)
    requires Inv(s) && c in s.pool.tasks && d != c && MayOvertake(s, d, c)
    ensures CanBeServedBefore(s, d, c)
  {
    var t := s;
    if d in PermitHolders(s.pool.tasks) {
      SkipNothing(s, c);
    } else if IsSpawned(s, c) {
      if d in s.pool.tasks {
        t := ServeTask(s, d, c);
      } else {
        t := ServeNewcomer(s, d, c);
      }
    } else {
      Runs.AheadInWaiters(s.pool.waiters, c);
      t := ServeWaiter(s, d, c);
    }
    SkippedIsServedBefore(s, t, d, c);
  }

  lemma ServeNewcomer(s: State, d: Id, c: Id) returns (t: State)
    requires Inv(s) && s.maxConnections > 0 && IsSpawned(s, c) && MayStillCome(s, d)
    ensures Skips(s, t, c) && d in PermitHolders(t.pool.tasks)
  {
    if d >= s.nextId && TakesSockets(s) {
      var l :| 0 <= l < |s.listeners| && CanTake(s.listeners[l].phase);
      t := ServeLater(s, l, d, c);
    } else if l :| 0 <= l < |s.listeners| && s.listeners[l].phase == Judging(d) {
      t := ServeJudged(s, l, d, c);
    } else {
      var l :| 0 <= l < |s.listeners| && s.listeners[l].phase == Queueing(d);
      t := ServeQueueing(s, l, d, c);
    }
  }

  // ---- No other continuation overtakes ----

  /** While c keeps its slot, nobody who could not come before can come now. */
  lemma StepKeepsAway(s: State, step: Step, d: Id, c: Id)
    requires Inv(s) && Enabled(s, step) && IsUnserved(s, c)
    requires d !in s.pool.tasks && !MayStillCome(s, d)
    ensures d !in Apply(s, step).pool.tasks && !MayStillCome(Apply(s, step), d)
  {
    if IsTaskStep(step) {
      TaskStepsAddNothing(s, step);
    } else {
      ListenerStepKeepsAway(s, step, d, c);
    }
  }

  lemma SlotTaken(s: State, c: Id)
    requires Inv(s) && IsUnserved(s, c) && s.maxQueue < 2
    ensures s.pool.queueFree == 0
  {
    assert c in SlotHolders(s.pool.tasks);
    assert |SlotHolders(s.pool.tasks)| >= 1;
  }

  lemma ListenerStepKeepsAway(s: State, step: Step, d: Id, c: Id)
    requires Inv(s) && Enabled(s, step) && IsUnserved(s, c) && !IsTaskStep(step)
    requires d !in s.pool.tasks && !MayStillCome(s, d)
    ensures d !in Apply(s, step).pool.tasks && !MayStillCome(Apply(s, step), d)
  {
    if s.maxQueue < 2 {
      SlotTaken(s, c);
    }
    if d >= s.nextId {
      NobodyTakesAgain(s, step);
      LaterIsInNoHands(Apply(s, step), d);
    } else {
      OutOfHandsStays(s, step, d);
    }
  }

  /** With no listener left to take a socket, none comes back. */
  lemma NobodyTakesAgain(s: State, step: Step)
    requires Enabled(s, step) && !IsTaskStep(step) && !TakesSockets(s)
    ensures !TakesSockets(Apply(s, step)) && Apply(s, step).pool == s.pool && Apply(s, step).nextId == s.nextId
  {
    assert forall l :: 0 <= l < |s.listeners| ==> !CanTake(s.listeners[l].phase);
  }

  lemma LaterIsInNoHands(s: State, d: Id)
    requires !TakesSockets(s)
    ensures !MayStillCome(s, d)
  {
    assert forall l :: 0 <= l < |s.listeners| ==> !CanTake(s.listeners[l].phase);
  }

  lemma OutOfHandsStays(s: State, step: Step, d: Id)
    requires Enabled(s, step) && !IsTaskStep(step) && d < s.nextId && d !in s.pool.tasks
    requires !MayStillCome(s, d) && (s.maxQueue < 2 ==> s.pool.queueFree == 0)
    ensures d !in Apply(s, step).pool.tasks && !MayStillCome(Apply(s, step), d)
  {}

  lemma {:induction false} StaysAway(states: seq<State>, steps: seq<Step>, i: nat, d: Id, c: Id)
    requires IsRun(states, steps) && Inv(states[0]) && i < |states|
    requires forall k :: 0 <= k < |steps| ==> IsUnserved(states[k], c)
    requires d !in states[0].pool.tasks && !MayStillCome(states[0], d)
    ensures d !in states[i].pool.tasks && !MayStillCome(states[i], d)
  {
    if i > 0 {
      StaysAway(states, steps, i - 1, d, c);
      assert IsUnserved(states[i - 1], c);
      Runs.InvHolds(states, steps, i - 1);
      assert StepAt(states, steps, i - 1);
      StepKeepsAway(states[i - 1], steps[i - 1], d, c);
    }
  }

  lemma UnservedIsLive(states: seq<State>, steps: seq<Step>, k: nat, c: Id)
    requires IsRun(states, steps) && Inv(states[0]) && 0 < k < |states| && IsUnserved(states[k], c)
    ensures c !in PermitHolders(states[k].pool.tasks) && steps[k - 1] != AbortTask(c)
  {
    Runs.InvHolds(states, steps, k - 1);
    assert StepAt(states, steps, k - 1);
    if steps[k - 1] == AbortTask(c) {
      Runs.DropRemovesOne(states[k - 1].pool, c);
    }
  }

  /** A waiter who is not aborted is only passed by those ahead of it. */
  lemma WaiterIsPassedByThoseAhead(states: seq<State>, steps: seq<Step>, d: Id, c: Id)
    requires IsRun(states, steps) && Inv(states[0]) && c in states[0].pool.waiters && d != c
    requires forall k :: 0 <= k < |states| ==> IsUnserved(states[k], c)
    requires d in PermitHolders(states[|steps|].pool.tasks)
    ensures d in PermitHolders(states[0].pool.tasks) || d in AheadOf(states[0].pool.waiters, c)
  {
    if d !in PermitHolders(states[0].pool.tasks) && d !in AheadOf(states[0].pool.waiters, c) {
      Runs.NoOvertaking(states, steps, 0, |steps|, c, d);
      var k :| 0 < k <= |steps| && Runs.ServedFirst(states, steps, 0, k, c, d);
      UnservedIsLive(states, steps, k, c);
    }
  }

  /** The condition is necessary. */
  lemma OvertakingNeeds(s: State, d: Id, c: Id)
    requires Inv(s) && c in s.pool.tasks && d != c && CanBeServedBefore(s, d, c)
    ensures MayOvertake(s, d, c)
  {
    var t :| Path(Skipping(c), s, t) && IsUnserved(t, c) && d in PermitHolders(t.pool.tasks);
    var states, steps :| Links(Skipping(c), s, states, steps, t);
    Runs.InvHolds(states, steps, |steps|);
    assert |PermitHolders(t.pool.tasks)| > 0;
    forall k | 0 <= k < |states| ensures IsUnserved(states[k], c) {
      if k < |steps| {
        assert Fits(Skipping(c), states[k], steps[k]);
      }
    }
    assert IsUnserved(s, c);
    if IsSpawned(s, c) {
      if d !in s.pool.tasks && !MayStillCome(s, d) {
        StaysAway(states, steps, |steps|, d, c);
      }
    } else {
      WaiterIsPassedByThoseAhead(states, steps, d, c);
    }
  }

  /**
   Exactly who can be served before a live connection c. While c is unpolled: anybody live, in the hands
   of a listener (for the queue, if there is a second slot) or yet to be accepted. Once c waits: only
   those ahead of it. Nobody once it holds a permit.
   */
  lemma OvertakenIff(s: State, d: Id, c: Id)
    requires Inv(s) && c in s.pool.tasks && d != c
    ensures CanBeServedBefore(s, d, c) <==> MayOvertake(s, d, c)
  {
    if MayOvertake(s, d, c) {
      Overtakes(s, d, c);
    }
    if CanBeServedBefore(s, d, c) {
      OvertakingNeeds(s, d, c);
    }
  }

  /**
   When "first come, first served" from `accept` on fails: in a reachable state a live connection can be
   overtaken by one not even accepted yet exactly when it is unpolled, the pool has any room at all, and
   some listener can still take a socket.
   */
  lemma LaterOvertakesIff(states: seq<State>, steps: seq<Step>, i: nat, c: Id)
    requires IsRun(states, steps) && Initial(states[0]) && i < |states| && c in states[i].pool.tasks
    ensures var s := states[i];
      (exists d :: d >= s.nextId && CanBeServedBefore(s, d, c))
        <==> s.pool.tasks[c].stage.Spawned? && s.maxConnections > 0 && TakesSockets(s)
  {
    Runs.InvHolds(states, steps, i);
    var s := states[i];
    Runs.AheadInWaiters(s.pool.waiters, c);
    forall d | d >= s.nextId
      ensures CanBeServedBefore(s, d, c) <==> s.pool.tasks[c].stage.Spawned? && s.maxConnections > 0 && TakesSockets(s)
    {
      OvertakenIff(s, d, c);
    }
    assert CanBeServedBefore(s, s.nextId, c) ==> exists d :: d >= s.nextId && CanBeServedBefore(s, d, c);
  }
}
