/** One call's effect on the real cooldown table, and the errors the real wiring rules out. */
module Effects {
  import opened Types
  import opened Network
  import opened RoundRobin
  import Selection
  import Cooldown
  import CooldownRaces
  import Configuration

  /** The balancer's own expiry check agrees with the timer's view of the status. */
  lemma JudgeMatchesHealth(status: BackendStatus, at: Instant)
    ensures Judge(Ok(status), at) == Available <==> Cooldown.HealthAt(status, at) == Cooldown.Up
    ensures Judge(Ok(status), at) == Cooling <==> Cooldown.HealthAt(status, at).Cooling?
    ensures Judge(Ok(status), at) == Drained <==> Cooldown.HealthAt(status, at) == Cooldown.Drained
  {
    match status
    case Drain =>
    case Alive(None) =>
    case Alive(Some(until)) =>
  }

  // ---- Replaying reports ----

  lemma {:induction false} OnlyReportsMatter(t: Table, events: seq<Event>)
    ensures Replay(t, events) == Replay(t, Selection.ReportsIn(events))
  {
    if events != [] {
      var before := events[..|events| - 1];
      var e := events[|events| - 1];
      OnlyReportsMatter(t, before);
      if e.Reported? {
        assert Selection.ReportsIn(events)[..|Selection.ReportsIn(before)|] == Selection.ReportsIn(before);
      } else {
        assert Selection.ReportsIn(events) == Selection.ReportsIn(before);
      }
    }
  }

  lemma {:induction false} DrainSurvivesReports(t: Table, events: seq<Event>, x: string)
    requires x in t && t[x] == Drain
    ensures Replay(t, events)[x] == Drain
  {
    if events != [] {
      DrainSurvivesReports(t, events[..|events| - 1], x);
    }
  }

  /** The instant the last failure report on x based its cooldown on. */
  function LastFailure(reports: seq<Event>, x: string): Option<Instant> {
    if reports == [] then None
    else
      var e := reports[|reports| - 1];
      if e.Reported? && e.target == x && e.result == Failure then Some(e.at)
      else LastFailure(reports[..|reports| - 1], x)
  }

  function Cooled(status: BackendStatus, failed: Option<Instant>): BackendStatus {
    if failed.None? then status else Alive(Some(failed.value + Cooldown.COOLDOWN))
  }

  lemma {:induction false} FailuresCool(t: Table, reports: seq<Event>, x: string)
    requires x in t && t[x] != Drain
    requires forall k :: 0 <= k < |reports| && reports[k].Reported? && reports[k].target == x ==> reports[k].result == Failure
    ensures Replay(t, reports)[x] == Cooled(t[x], LastFailure(reports, x))
  {
    if reports != [] {
      FailuresCool(t, reports[..|reports| - 1], x);
      assert reports[|reports| - 1].Reported? && reports[|reports| - 1].target == x ==> reports[|reports| - 1].result == Failure;
    }
  }

  lemma {:induction false} SomeFailure(reports: seq<Event>, x: string, k: nat)
    requires k < |reports| && Reports(reports[k], x, Failure)
    ensures LastFailure(reports, x).Some?
  {
    if k < |reports| - 1 {
      SomeFailure(reports[..|reports| - 1], x, k);
    }
  }

  lemma {:induction false} NoFailure(reports: seq<Event>, x: string)
    requires forall k :: 0 <= k < |reports| ==> !Reports(reports[k], x, Failure)
    ensures LastFailure(reports, x).None?
  {
    if reports != [] {
      assert !Reports(reports[|reports| - 1], x, Failure);
      NoFailure(reports[..|reports| - 1], x);
    }
  }

  // ---- Drained targets are left alone ----

  lemma {:induction false} CheckIsLogged(first: seq<Visit>, j: nat) returns (i: nat)
    requires j < |first|
    ensures i < |FirstEvents(first)|
    ensures FirstEvents(first)[i] == Checked(first[j].target, first[j].status, first[j].at)
  {
    var n := |first| - 1;
    if j < n {
      i := CheckIsLogged(first[..n], j);
    } else {
      i := |FirstEvents(first[..n])|;
    }
  }

  lemma AttemptWasObserved(pool: seq<string>, port: Port, order: seq<nat>, call: Call, r: Answer, k: nat) returns (j: nat)
    requires Selects(pool, port, order, call, r) && Distinct(order) && k < |Attempts(call)|
    ensures j < |call.first| && call.first[j].target == Attempts(call)[k].target
    ensures call.first[j].Verdict() == Available || call.first[j].Verdict() == Cooling
  {
    Selection.CallFollowsCandidates(pool, port, order, call, r);
    Selection.AttemptsAreGenuine(pool, port, order, call, r, k);
    Selection.ObservedDistinct(pool, order, call.first, Available);
    Selection.ObservedDistinct(pool, order, call.first, Cooling);
    var p := Attempts(call)[k].pos;
    assert Selection.Positions(Attempts(call))[k] == Selection.Candidates(call.first)[k] == p;
    assert p in Observed(call.first, Available) || p in Observed(call.first, Cooling);
    j :| 0 <= j < |call.first| && order[j] == p
         && (call.first[j].Verdict() == Available || call.first[j].Verdict() == Cooling);
    assert IsVisit(pool, call.first[j], order[j]);
  }

  ghost predicate Attempted(call: Call, x: string) {
    exists k :: 0 <= k < |Attempts(call)| && Attempts(call)[k].target == x
  }

  lemma DrainedNotAttempted(t: Table, pool: seq<string>, port: Port, order: seq<nat>, call: Call, r: Answer, x: string)
    requires Selects(pool, port, order, call, r) && Distinct(order) && Faithful(t, CallEvents(call))
    requires x in t && t[x] == Drain
    ensures !Attempted(call, x)
  {
    if Attempted(call, x) {
      var k :| 0 <= k < |Attempts(call)| && Attempts(call)[k].target == x;
      var j := AttemptWasObserved(pool, port, order, call, r, k);
      var i := CheckIsLogged(call.first, j);
      var events := CallEvents(call);
      assert events[i] == Checked(x, call.first[j].status, call.first[j].at) && SeesReports(t, events, i);
      DrainSurvivesReports(t, events[..i], x);
    }
  }

  // ---- The effect of a whole call ----

  /** x is the target the call connected to. */
  ghost predicate ConnectedTo(call: Call, r: Answer, x: string) {
    r.Ok? && Attempts(call) != [] && Attempts(call)[|Attempts(call)| - 1].target == x
  }

  /**
   Any target but the connected one: its last failure instant plus 120 s if an attempt on it failed,
   else exactly what it was.
   */
  lemma EffectOnOthers(t: Table, pool: seq<string>, port: Port, order: seq<nat>, call: Call, r: Answer, x: string)
    requires Selects(pool, port, order, call, r) && Distinct(order) && Faithful(t, CallEvents(call))
    requires x in t && !ConnectedTo(call, r, x)
    ensures var failed := LastFailure(Selection.ReportsIn(CallEvents(call)), x);
      && Replay(t, CallEvents(call))[x] == Cooled(t[x], failed)
      && (failed.Some? <==> FailedOn(call, x))
  {
    OnlyReportsMatter(t, CallEvents(call));
    OthersOnlyFail(pool, port, order, call, r, x);
    if t[x] == Drain {
      DrainedNotAttempted(t, pool, port, order, call, r, x);
      DrainSurvivesReports(t, CallEvents(call), x);
    } else {
      FailuresCool(t, Selection.ReportsIn(CallEvents(call)), x);
    }
  }

  ghost predicate FailedOn(call: Call, x: string) {
    exists k :: 0 <= k < |Attempts(call)| && Attempts(call)[k].target == x && Attempts(call)[k].outcome == TryNext
  }

  lemma OthersOnlyFail(pool: seq<string>, port: Port, order: seq<nat>, call: Call, r: Answer, x: string)
    requires Selects(pool, port, order, call, r) && !ConnectedTo(call, r, x)
    ensures var reports := Selection.ReportsIn(CallEvents(call));
      && (forall k :: 0 <= k < |reports| && reports[k].Reported? && reports[k].target == x ==> reports[k].result == Failure)
      && (LastFailure(reports, x).Some? <==> FailedOn(call, x))
  {
    var attempts, reports := Attempts(call), Selection.ReportsIn(CallEvents(call));
    Selection.OneReportPerCallAttempt(pool, port, order, call, r);
    Selection.CallFollowsCandidates(pool, port, order, call, r);
    forall k | 0 <= k < |reports| && reports[k].Reported? && reports[k].target == x
      ensures reports[k].result == Failure && attempts[k].target == x && attempts[k].outcome == TryNext
    {
      assert Selection.MatchesAttempt(reports[k], attempts[k]);
    }
    if FailedOn(call, x) {
      var k :| 0 <= k < |attempts| && attempts[k].target == x && attempts[k].outcome == TryNext;
      assert Selection.MatchesAttempt(reports[k], attempts[k]);
      SomeFailure(reports, x, k);
    } else {
      NoFailure(reports, x);
    }
  }

  lemma {:induction false} ReportsAreLogged(events: seq<Event>, e: Event)
    requires e in Selection.ReportsIn(events)
    ensures e in events
  {
    var n := |events| - 1;
    if e in Selection.ReportsIn(events[..n]) {
      ReportsAreLogged(events[..n], e);
    }
  }

  lemma ReportedInThePast(before: seq<Event>, events: seq<Event>, e: Event, clock: Instant)
    requires InTimeOrder(before + events, clock) && e.Reported? && e in Selection.ReportsIn(events)
    ensures e.now <= clock
  {
    ReportsAreLogged(events, e);
    var k :| 0 <= k < |events| && events[k] == e;
    assert (before + events)[|before| + k] == e;
    LoggedInThePast(before + events, clock, |before| + k);
  }

  /** The last report of a call that connected is the success on its target. */
  lemma LastReportSucceeds(pool: seq<string>, port: Port, order: seq<nat>, call: Call, r: Answer, x: string)
    requires Selects(pool, port, order, call, r) && ConnectedTo(call, r, x)
    ensures var reports := Selection.ReportsIn(CallEvents(call));
      reports != [] && Reports(reports[|reports| - 1], x, Success)
  {
    var attempts, reports := Attempts(call), Selection.ReportsIn(CallEvents(call));
    Selection.CallFollowsCandidates(pool, port, order, call, r);
    Selection.OneReportPerCallAttempt(pool, port, order, call, r);
    assert Selection.MatchesAttempt(reports[|attempts| - 1], attempts[|attempts| - 1]);
  }

  lemma SuccessClears(t: Table, reports: seq<Event>, x: string, clock: Instant)
    requires x in t && reports != [] && Reports(reports[|reports| - 1], x, Success) && reports[|reports| - 1].now <= clock
    ensures !Cooldown.HealthAt(Replay(t, reports)[x], clock).Cooling?
  {
    var before := Replay(t, reports[..|reports| - 1]);
    assert Replay(t, reports) == AfterEvent(before, reports[|reports| - 1]);
  }

  /** The target connected to is not cooling once the call is over: `before` was logged before the call. */
  lemma EffectOnConnected(t: Table, pool: seq<string>, port: Port, order: seq<nat>, before: seq<Event>, call: Call, r: Answer, x: string, clock: Instant)
    requires Selects(pool, port, order, call, r) && x in t && ConnectedTo(call, r, x)
    requires InTimeOrder(before + CallEvents(call), clock)
    ensures !Cooldown.HealthAt(Replay(t, CallEvents(call))[x], clock).Cooling?
  {
    var reports := Selection.ReportsIn(CallEvents(call));
    LastReportSucceeds(pool, port, order, call, r, x);
    OnlyReportsMatter(t, CallEvents(call));
    ReportedInThePast(before, CallEvents(call), reports[|reports| - 1], clock);
    SuccessClears(t, reports, x, clock);
  }

  /** After exhaustion every pool target that is not drained cools for 120 s from its last failure. */
  lemma EffectOfExhaustion(t: Table, pool: seq<string>, port: Port, order: seq<nat>, call: Call, r: Answer, x: string)
    requires Selects(pool, port, order, call, r) && EndsExhausted(pool, port, call, r) && Selection.IsOrder(order, |pool|)
    requires Faithful(t, CallEvents(call)) && x in pool && x in t
    ensures t[x] == Drain ==> Replay(t, CallEvents(call))[x] == Drain
    ensures t[x] != Drain ==>
      var failed := LastFailure(Selection.ReportsIn(CallEvents(call)), x);
      failed.Some? && Replay(t, CallEvents(call))[x] == Alive(Some(failed.value + 120 * SECOND))
  {
    EffectOnOthers(t, pool, port, order, call, r, x);
    if t[x] == Drain {
      DrainSurvivesReports(t, CallEvents(call), x);
    } else {
      var p :| 0 <= p < |pool| && pool[p] == x;
      NotDrainedIsTried(t, pool, port, order, call, r, p);
    }
  }

  lemma NotDrainedIsTried(t: Table, pool: seq<string>, port: Port, order: seq<nat>, call: Call, r: Answer, p: nat)
    requires Selects(pool, port, order, call, r) && EndsExhausted(pool, port, call, r) && Selection.IsOrder(order, |pool|)
    requires Faithful(t, CallEvents(call)) && p < |pool| && pool[p] in t && t[pool[p]] != Drain
    ensures FailedOn(call, pool[p])
  {
    Selection.ExhaustionIsComplete(pool, port, order, call, r);
    Selection.ObservedDistinct(pool, order, call.first, Drained);
    if p in Observed(call.first, Drained) {
      var j :| 0 <= j < |call.first| && order[j] == p && call.first[j].Verdict() == Drained;
      assert IsVisit(pool, call.first[j], order[j]);
      var i := CheckIsLogged(call.first, j);
      var events := CallEvents(call);
      assert events[i] == Checked(pool[p], call.first[j].status, call.first[j].at) && SeesReports(t, events, i);
      NeverBecomesDrained(t, events[..i], pool[p]);
    } else {
      var k :| 0 <= k < |Attempts(call)| && Selection.Positions(Attempts(call))[k] == p;
      Selection.AttemptsAreGenuine(pool, port, order, call, r, k);
    }
  }

  lemma {:induction false} NeverBecomesDrained(t: Table, events: seq<Event>, x: string)
    requires x in t && t[x] != Drain
    ensures Replay(t, events)[x] != Drain
  {
    if events != [] {
      NeverBecomesDrained(t, events[..|events| - 1], x);
    }
  }

  // ---- Errors the wiring in main makes unreachable ----

  /**
   Config, counters and status table come from one configuration. Then, however reports, drains and
   other calls interleave, no status check of a call fails and no counter is missing.
   */
  lemma InternalErrorsUnreachable(
    raw: RawConfig, config: Configuration.ProxyConfig, counters: map<Port, nat>,
    states: seq<CooldownRaces.Table>, steps: seq<CooldownRaces.Step>,
    port: Port, order: seq<nat>, call: Call, r: Answer)
    requires Configuration.ServesExactly(raw.apps, config) && config.GetPool(port).Some?
    requires forall p :: p in counters <==> p in config.portToPool
    requires CooldownRaces.IsRun(states, steps) && CooldownRaces.Initial(states[0])
    requires states[0].cells.Keys == Configuration.AllTargets(raw.apps)
    requires forall k :: 0 <= k < |call.first| ==>
               exists i :: 0 <= i < |states| && call.first[k].status == Look(states[i].cells, call.first[k].target)
    requires Selects(config.GetPool(port).value, port, order, call, r)
    ensures port in counters && NoneMissing(call.first) && !EndsAtCheck(call, r)
  {
    var pool := config.GetPool(port).value;
    forall k | 0 <= k < |call.first| ensures call.first[k].Verdict() != Missing {
      assert IsVisit(pool, call.first[k], order[k]);
      var i :| 0 <= i < |states| && call.first[k].status == Look(states[i].cells, call.first[k].target);
      CooldownRaces.PendingStaysBounded(states, steps, i);
      var a := config.portToPool[port];
      assert Configuration.Lists(raw.apps, a, port) && pool == raw.apps[a].targets;
      assert call.first[k].target in raw.apps[a].targets;
    }
    assert call.first != [] ==> call.first[|call.first| - 1].Verdict() != Missing;
  }
}
