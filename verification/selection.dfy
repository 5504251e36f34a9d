/** What every `connect_backend` call guarantees, whatever the world answers during it. */
module Selection {
  import opened Types
  import opened Network
  import opened RoundRobin
  import Modular

  /** Every pool position once, in some order. */
  ghost predicate IsOrder(order: seq<nat>, n: nat) {
    && |order| == n && Distinct(order)
    && (forall k :: 0 <= k < n ==> order[k] < n)
    && (forall p: nat :: p < n ==> p in order)
  }

  lemma RotationIsOrder(start: nat, n: nat)
    requires n > 0
    ensures IsOrder(Rotation(start, n), n)
  {
    var order, s := Rotation(start, n), start % n;
    forall k | 0 <= k < n ensures order[k] == Modular.Wrap(s + k, n) {
      Modular.ShiftIsWrap(start, k, n);
    }
    forall p: nat | p < n ensures p in order {
      assert order[Modular.Wrap(p + n - s, n)] == p;
    }
  }

  // ---- Candidates, attempts and the result ----

  function Positions(attempts: seq<Attempt>): seq<nat> {
    seq(|attempts|, k requires 0 <= k < |attempts| => attempts[k].pos)
  }

  /** Positions seen available, then positions seen cooling, each judged when it was checked. */
  function Candidates(first: seq<Visit>): seq<nat> {
    Observed(first, Available) + Observed(first, Cooling)
  }

  lemma {:induction false} PassOneAttempts(pool: seq<string>, order: seq<nat>, first: seq<Visit>)
    requires PassOne(pool, order, first)
    ensures Positions(FirstAttempts(first)) == Observed(first, Available)
  {
    if first != [] {
      PassOneAttempts(pool, order, first[..|first| - 1]);
      assert IsVisit(pool, first[|first| - 1], order[|first| - 1]);
    }
  }

  /** The reference reading of a call: walk the candidates until one decides. */
  lemma CallFollowsCandidates(pool: seq<string>, port: Port, order: seq<nat>, call: Call, r: Answer)
    requires Selects(pool, port, order, call, r)
    ensures Positions(Attempts(call)) <= Candidates(call.first)
    ensures forall k :: 0 <= k < |Attempts(call)| - 1 ==> Attempts(call)[k].outcome == TryNext
    ensures r.Ok? <==> exists k :: 0 <= k < |Attempts(call)| && Attempts(call)[k].outcome.Ready?
    ensures r.Ok? ==> var last := Attempts(call)[|Attempts(call)| - 1].outcome;
                      last.Ready? && r.value == (last.stream, last.addr)
    ensures r.Err? ==> || (call.first != [] && call.first[|call.first| - 1].status == Err(r.error) && call.second == [])
                       || (Attempts(call) != [] && Attempts(call)[|Attempts(call)| - 1].outcome == Fatal(r.error))
                       || (Positions(Attempts(call)) == Candidates(call.first) && |call.first| == |pool|
                           && r.error == ConnectionError(port))
  {
    PassOneAttempts(pool, order, call.first);
    var attempts := Attempts(call);
    assert Positions(attempts) == Positions(FirstAttempts(call.first)) + Positions(call.second);
    assert Positions(call.second) <= Observed(call.first, Cooling);
    if call.second == [] && !EndsExhausted(pool, port, call, r) {
      assert Positions(attempts) == Observed(call.first, Available);
    }
    if EndsAtAttempt(pool, call, r) {
      assert forall k :: 0 <= k < |attempts| - 1 ==> attempts[..|attempts| - 1][k] == attempts[k];
    }
  }

  /**
   What ends a call. Targets are checked in rotated order; a failed check or a fatal attempt is the last
   thing that happens and gives the answer; deferred targets are tried only after the whole pool was
   visited; and without a connection, a failed check or a fatal attempt the answer is a connection error.
   */
  lemma WhatEndsACall(pool: seq<string>, port: Port, order: seq<nat>, call: Call, r: Answer)
    requires Selects(pool, port, order, call, r)
    ensures forall k :: 0 <= k < |call.first| ==> call.first[k].pos == order[k] < |pool| && call.first[k].target == pool[order[k]]
    ensures forall k :: 0 <= k < |call.first| && call.first[k].status.Err? ==>
              k == |call.first| - 1 && call.second == [] && r == Err(call.first[k].status.error)
    ensures forall k :: 0 <= k < |Attempts(call)| && Attempts(call)[k].outcome.Fatal? ==>
              k == |Attempts(call)| - 1 && r == Err(Attempts(call)[k].outcome.error)
    ensures call.second != [] ==> |call.first| == |pool|
    ensures (forall k :: 0 <= k < |call.first| ==> call.first[k].status.Ok?)
            && (forall k :: 0 <= k < |Attempts(call)| ==> Attempts(call)[k].outcome.TryNext?)
            ==> |call.first| == |pool| && r == Err(ConnectionError(port))
  {
    forall k | 0 <= k < |call.first| ensures IsVisit(pool, call.first[k], order[k]) {}
    ChecksPass(call, r);
    var attempts := Attempts(call);
    if EndsAtAttempt(pool, call, r) {
      assert forall k :: 0 <= k < |attempts| - 1 ==> attempts[..|attempts| - 1][k] == attempts[k];
    }
  }

  lemma ChecksPass(call: Call, r: Answer)
    requires NoneMissing(call.first) || EndsAtCheck(call, r)
    ensures forall k :: 0 <= k < |call.first| && call.first[k].status.Err? ==>
              k == |call.first| - 1 && call.second == [] && r == Err(call.first[k].status.error)
  {
    assert forall k :: 0 <= k < |call.first| && call.first[k].status.Err? ==> call.first[k].Verdict() == Missing;
    if !NoneMissing(call.first) {
      var n := |call.first| - 1;
      assert forall k :: 0 <= k < n ==> call.first[k] == call.first[..n][k];
    }
  }

  /** Ascending, with entries below n. */
  ghost predicate IsAscending(at: seq<nat>, n: nat) {
    (forall i, j :: 0 <= i < j < |at| ==> at[i] < at[j]) && forall i :: 0 <= i < |at| ==> at[i] < n
  }

  /** The visits, in order, behind what pass one observed. */
  lemma {:induction false} ObservedAt(pool: seq<string>, order: seq<nat>, first: seq<Visit>, verdict: Verdict)
    returns (at: seq<nat>)
    requires PassOne(pool, order, first)
    ensures IsAscending(at, |first|) && |at| == |Observed(first, verdict)|
    ensures forall i :: 0 <= i < |at| ==> Observed(first, verdict)[i] == order[at[i]]
    ensures forall k :: 0 <= k < |first| ==> (k in at <==> first[k].Verdict() == verdict)
  {
    at := [];
    if first != [] {
      var n := |first| - 1;
      assert IsVisit(pool, first[n], order[n]);
      at := ObservedAt(pool, order, first[..n], verdict);
      assert forall k :: 0 <= k < n ==> first[..n][k] == first[k];
      if first[n].Verdict() == verdict {
        at := at + [n];
      }
    }
  }

  /** The status was read as alive, with no cooldown or one already over. */
  predicate SeenUp(v: Visit) {
    v.status.Ok? && v.status.value.Alive? && (v.status.value.coolUntil.None? || v.status.value.coolUntil.value <= v.at)
  }

  /** The status was read as alive, with a cooldown not yet over. */
  predicate SeenCooling(v: Visit) {
    v.status.Ok? && v.status.value.Alive? && v.status.value.coolUntil.Some? && v.status.value.coolUntil.value > v.at
  }

  /**
   The order of the attempts, in terms of the visits: first the positions seen up, in rotated order;
   then, in rotated order again, those seen cooling, up to where the call ended.
   */
  lemma AttemptsInRotatedOrder(pool: seq<string>, port: Port, order: seq<nat>, call: Call, r: Answer)
    returns (up: seq<nat>, cooling: seq<nat>)
    requires Selects(pool, port, order, call, r)
    ensures IsAscending(up, |call.first|) && IsAscending(cooling, |call.first|)
    ensures forall k :: 0 <= k < |call.first| ==> (k in up <==> SeenUp(call.first[k])) && (k in cooling <==> SeenCooling(call.first[k]))
    ensures |up| <= |Attempts(call)| <= |up| + |cooling|
    ensures forall i :: 0 <= i < |Attempts(call)| ==>
              Attempts(call)[i].pos == order[if i < |up| then up[i] else cooling[i - |up|]] < |pool|
              && Attempts(call)[i].target == pool[Attempts(call)[i].pos]
  {
    up := ObservedAt(pool, order, call.first, Available);
    cooling := ObservedAt(pool, order, call.first, Cooling);
    forall k | 0 <= k < |call.first|
      ensures (k in up <==> SeenUp(call.first[k])) && (k in cooling <==> SeenCooling(call.first[k]))
    {
      VerdictIsSeen(call.first[k]);
    }
    PassOneAttempts(pool, order, call.first);
    CallFollowsCandidates(pool, port, order, call, r);
    assert |FirstAttempts(call.first)| == |Positions(FirstAttempts(call.first))|;
    forall i | 0 <= i < |Attempts(call)|
      ensures Attempts(call)[i].pos == order[if i < |up| then up[i] else cooling[i - |up|]] < |pool|
              && Attempts(call)[i].target == pool[Attempts(call)[i].pos]
    {
      AttemptsAreGenuine(pool, port, order, call, r, i);
      CandidateAt(call, i);
    }
  }

  lemma VerdictIsSeen(v: Visit)
    ensures v.Verdict() == Available <==> SeenUp(v)
    ensures v.Verdict() == Cooling <==> SeenCooling(v)
  {
    match v.status
    case Err(_) =>
    case Ok(Drain) =>
    case Ok(Alive(None)) =>
    case Ok(Alive(Some(until))) =>
  }

  lemma CandidateAt(call: Call, i: nat)
    requires Positions(Attempts(call)) <= Candidates(call.first) && i < |Attempts(call)|
    ensures i < |Candidates(call.first)|
    ensures var seen := Observed(call.first, Available);
      Attempts(call)[i].pos == if i < |seen| then seen[i] else Observed(call.first, Cooling)[i - |seen|]
  {
    assert Positions(Attempts(call))[i] == Candidates(call.first)[i];
  }

  // ---- No position is attempted twice ----

  /** What pass one observed sits at distinct positions, and each verdict at its own. */
  lemma {:induction false} ObservedDistinct(pool: seq<string>, order: seq<nat>, first: seq<Visit>, verdict: Verdict)
    requires PassOne(pool, order, first) && Distinct(order)
    ensures Distinct(Observed(first, verdict))
    ensures forall p :: p in Observed(first, verdict) <==>
                        exists k :: 0 <= k < |first| && order[k] == p && first[k].Verdict() == verdict
  {
    if first != [] {
      var k := |first| - 1;
      var before := first[..k];
      assert IsVisit(pool, first[k], order[k]);
      ObservedDistinct(pool, order, before, verdict);
      assert forall j :: 0 <= j < k ==> before[j] == first[j];
      assert forall j :: 0 <= j < k ==> order[j] != order[k];
      assert order[k] !in Observed(before, verdict);
      forall p | p in Observed(first, verdict)
        ensures exists j :: 0 <= j < |first| && order[j] == p && first[j].Verdict() == verdict
      {
        if p in Observed(before, verdict) {
          var j :| 0 <= j < k && order[j] == p && before[j].Verdict() == verdict;
          assert first[j].Verdict() == verdict;
        }
      }
    }
  }

  lemma NoPositionTwice(pool: seq<string>, port: Port, order: seq<nat>, call: Call, r: Answer)
    requires Selects(pool, port, order, call, r) && Distinct(order)
    ensures Distinct(Positions(Attempts(call)))
  {
    CallFollowsCandidates(pool, port, order, call, r);
    ObservedDistinct(pool, order, call.first, Available);
    ObservedDistinct(pool, order, call.first, Cooling);
    var a, c := Observed(call.first, Available), Observed(call.first, Cooling);
    forall i, j | 0 <= i < j < |a + c| ensures (a + c)[i] != (a + c)[j] {
      if i < |a| <= j {
        assert a[i] in a && c[j - |a|] in c;
      }
    }
  }

  ghost predicate TriedInVain(a: Attempt) {
    a.outcome == TryNext && a.events != [] && Reports(a.events[|a.events| - 1], a.target, Failure)
  }

  /** On exhaustion every position was seen drained and left alone, or tried exactly once in vain. */
  lemma ExhaustionIsComplete(pool: seq<string>, port: Port, order: seq<nat>, call: Call, r: Answer)
    requires Selects(pool, port, order, call, r) && EndsExhausted(pool, port, call, r) && IsOrder(order, |pool|)
    ensures Distinct(Positions(Attempts(call)))
    ensures forall p: nat :: p < |pool| ==>
              (p in Positions(Attempts(call)) <==> p !in Observed(call.first, Drained))
    ensures forall k :: 0 <= k < |Attempts(call)| ==> TriedInVain(Attempts(call)[k])
  {
    NoPositionTwice(pool, port, order, call, r);
    ExhaustionCovers(pool, port, order, call, r);
    forall k | 0 <= k < |Attempts(call)| ensures TriedInVain(Attempts(call)[k]) {
      AttemptsAreGenuine(pool, port, order, call, r, k);
    }
  }

  lemma ExhaustionCovers(pool: seq<string>, port: Port, order: seq<nat>, call: Call, r: Answer)
    requires Selects(pool, port, order, call, r) && EndsExhausted(pool, port, call, r) && IsOrder(order, |pool|)
    ensures forall p: nat :: p < |pool| ==>
              (p in Positions(Attempts(call)) <==> p !in Observed(call.first, Drained))
  {
    PassOneAttempts(pool, order, call.first);
    assert Positions(Attempts(call)) == Observed(call.first, Available) + Observed(call.first, Cooling) by {
      assert Positions(Attempts(call)) == Positions(FirstAttempts(call.first)) + Positions(call.second);
      assert Positions(call.second) == Observed(call.first, Cooling);
    }
    ObservedDistinct(pool, order, call.first, Available);
    ObservedDistinct(pool, order, call.first, Cooling);
    ObservedDistinct(pool, order, call.first, Drained);
    forall p: nat | p < |pool| ensures p in Candidates(call.first) <==> p !in Observed(call.first, Drained) {
      assert p in order;
      var k :| 0 <= k < |order| && order[k] == p;
      assert call.first[k].Verdict() != Missing;
      assert forall j :: 0 <= j < |order| && order[j] == p ==> j == k;
    }
  }

  lemma {:induction false} FirstAttemptsAreGenuine(pool: seq<string>, order: seq<nat>, first: seq<Visit>, k: nat)
    requires PassOne(pool, order, first) && k < |FirstAttempts(first)|
    ensures var a := FirstAttempts(first)[k]; IsAttemptAt(pool, a, a.pos)
  {
    var n := |first| - 1;
    assert IsVisit(pool, first[n], order[n]);
    if k < |FirstAttempts(first[..n])| {
      FirstAttemptsAreGenuine(pool, order, first[..n], k);
    }
  }

  lemma AttemptsAreGenuine(pool: seq<string>, port: Port, order: seq<nat>, call: Call, r: Answer, k: nat)
    requires Selects(pool, port, order, call, r) && k < |Attempts(call)|
    ensures var a := Attempts(call)[k]; IsAttemptAt(pool, a, a.pos)
  {
    if k < |FirstAttempts(call.first)| {
      FirstAttemptsAreGenuine(pool, order, call.first, k);
    }
  }

  // ---- One report per completed attempt ----

  function ReportsIn(events: seq<Event>): seq<Event> {
    if events == [] then []
    else
      var e := events[|events| - 1];
      ReportsIn(events[..|events| - 1]) + if e.Reported? then [e] else []
  }

  lemma {:induction false} ReportsInConcat(a: seq<Event>, b: seq<Event>)
    ensures ReportsIn(a + b) == ReportsIn(a) + ReportsIn(b)
    decreases |b|
  {
    if b == [] {
      assert a + b == a;
    } else {
      ReportsInConcat(a, b[..|b| - 1]);
      assert (a + b)[..|a + b| - 1] == a + b[..|b| - 1];
    }
  }

  lemma {:induction false} NoReports(events: seq<Event>)
    requires forall k :: 0 <= k < |events| ==> !events[k].Reported?
    ensures ReportsIn(events) == []
  {
    if events != [] {
      NoReports(events[..|events| - 1]);
    }
  }

  /** Only the last event of an attempt can be a report. */
  lemma ReportComesLast(target: string, events: seq<Event>, outcome: ConnectAttempt, k: nat)
    requires IsAttempt(target, events, outcome) && k < |events| - 1
    ensures !events[k].Reported?
  {
    if events[0].answer.Ok? && k > 0 {
      var dials := events[1..|events| - 1];
      assert events[k] == dials[k - 1];
    }
  }

  /**
   A completed attempt reports once, as its very last act, and Success exactly when it is ready; a
   fatal attempt reports nothing, and neither does one cut off before its end.
   */
  lemma OneReportPerAttempt(target: string, events: seq<Event>, outcome: ConnectAttempt)
    requires IsAttempt(target, events, outcome)
    ensures outcome.Fatal? ==> ReportsIn(events) == []
    ensures !outcome.Fatal? ==>
      var last := events[|events| - 1];
      ReportsIn(events) == [last] && Reports(last, target, if outcome.Ready? then Success else Failure)
    ensures forall k :: 0 <= k < |events| ==> ReportsIn(events[..k]) == []
  {
    forall k | 0 <= k < |events| ensures ReportsIn(events[..k]) == [] {
      forall j | 0 <= j < k ensures !events[..k][j].Reported? {
        ReportComesLast(target, events, outcome, j);
      }
      NoReports(events[..k]);
    }
    assert ReportsIn(events[..|events| - 1]) == [];
  }

  /** The reports of a call are its attempts' reports, in order. */
  function ReportsOf(attempts: seq<Attempt>): seq<Event> {
    if attempts == [] then []
    else ReportsOf(attempts[..|attempts| - 1]) + ReportsIn(attempts[|attempts| - 1].events)
  }

  lemma {:induction false} ReportsOfFirst(first: seq<Visit>)
    ensures ReportsIn(FirstEvents(first)) == ReportsOf(FirstAttempts(first))
  {
    if first != [] {
      var v := first[|first| - 1];
      var before := first[..|first| - 1];
      ReportsOfFirst(before);
      ReportsInConcat(FirstEvents(before), VisitEvents(v));
      ReportsOfVisit(v);
      ReportsOfConcat(FirstAttempts(before), if v.attempt.Some? then [v.attempt.value] else []);
    }
  }

  lemma ReportsOfVisit(v: Visit)
    ensures ReportsIn(VisitEvents(v)) == ReportsOf(if v.attempt.Some? then [v.attempt.value] else [])
  {
    var check := [Checked(v.target, v.status, v.at)];
    NoReports(check);
    if v.attempt.Some? {
      ReportsInConcat(check, v.attempt.value.events);
    } else {
      assert VisitEvents(v) == check;
    }
  }

  lemma {:induction false} ReportsOfSecond(second: seq<Attempt>)
    ensures ReportsIn(SecondEvents(second)) == ReportsOf(second)
  {
    if second != [] {
      var n := |second| - 1;
      ReportsOfSecond(second[..n]);
      ReportsInConcat(SecondEvents(second[..n]), second[n].events);
    }
  }

  lemma {:induction false} ReportsOfConcat(a: seq<Attempt>, b: seq<Attempt>)
    ensures ReportsOf(a + b) == ReportsOf(a) + ReportsOf(b)
    decreases |b|
  {
    if b == [] {
      assert a + b == a;
    } else {
      var before, last := b[..|b| - 1], b[|b| - 1];
      assert (a + b)[..|a + b| - 1] == a + before && (a + b)[|a + b| - 1] == last;
      calc {
        ReportsOf(a + b);
        ReportsOf(a + before) + ReportsIn(last.events);
        { ReportsOfConcat(a, before); }
        ReportsOf(a) + ReportsOf(before) + ReportsIn(last.events);
        ReportsOf(a) + (ReportsOf(before) + ReportsIn(last.events));
        ReportsOf(a) + ReportsOf(b);
      }
    }
  }

  lemma ReportsOfCall(call: Call)
    ensures ReportsIn(CallEvents(call)) == ReportsOf(Attempts(call))
  {
    ReportsInConcat(FirstEvents(call.first), SecondEvents(call.second));
    ReportsOfFirst(call.first);
    ReportsOfSecond(call.second);
    ReportsOfConcat(FirstAttempts(call.first), call.second);
  }

  /** The report an attempt leaves behind. */
  ghost predicate MatchesAttempt(e: Event, a: Attempt) {
    Reports(e, a.target, if a.outcome.Ready? then Success else Failure)
  }

  lemma ReportOfGenuine(a: Attempt)
    requires HasReported(a)
    ensures |ReportsIn(a.events)| == 1 && MatchesAttempt(ReportsIn(a.events)[0], a)
  {
    OneReportPerAttempt(a.target, a.events, a.outcome);
  }

  /** One report per attempt, in order. */
  ghost predicate AllMatch(reports: seq<Event>, attempts: seq<Attempt>) {
    |reports| == |attempts| && forall k :: 0 <= k < |reports| ==> MatchesAttempt(reports[k], attempts[k])
  }

  lemma MatchPlus(reports: seq<Event>, attempts: seq<Attempt>, e: Event, a: Attempt)
    requires AllMatch(reports, attempts) && MatchesAttempt(e, a)
    ensures AllMatch(reports + [e], attempts + [a])
  {
    forall k | 0 <= k < |reports + [e]| ensures MatchesAttempt((reports + [e])[k], (attempts + [a])[k]) {
      if k < |reports| {
        assert (reports + [e])[k] == reports[k] && (attempts + [a])[k] == attempts[k];
      }
    }
  }

  /** An attempt that completed. */
  ghost predicate HasReported(a: Attempt) { IsGenuine(a) && !a.outcome.Fatal? }

  lemma {:induction false} ReportsMatchAttempts(attempts: seq<Attempt>)
    requires forall k :: 0 <= k < |attempts| ==> HasReported(attempts[k])
    ensures AllMatch(ReportsOf(attempts), attempts)
  {
    if attempts != [] {
      var n := |attempts| - 1;
      var before, a := attempts[..n], attempts[n];
      assert forall k :: 0 <= k < n ==> before[k] == attempts[k];
      ReportsMatchAttempts(before);
      ReportOfGenuine(a);
      var reports := ReportsIn(a.events);
      MatchPlus(ReportsOf(before), before, reports[0], a);
      assert reports == [reports[0]] && attempts == before + [a];
    }
  }

  /** Over a whole call: one report per attempt that completed, none for a fatal last one. */
  lemma OneReportPerCallAttempt(pool: seq<string>, port: Port, order: seq<nat>, call: Call, r: Answer)
    requires Selects(pool, port, order, call, r)
    ensures var attempts, reports := Attempts(call), ReportsIn(CallEvents(call));
      && |reports| == (if attempts != [] && attempts[|attempts| - 1].outcome.Fatal? then |attempts| - 1 else |attempts|)
      && forall k :: 0 <= k < |reports| ==> MatchesAttempt(reports[k], attempts[k])
  {
    CallFollowsCandidates(pool, port, order, call, r);
    ReportsOfCall(call);
    forall k | 0 <= k < |Attempts(call)| ensures IsGenuine(Attempts(call)[k]) {
      AttemptsAreGenuine(pool, port, order, call, r, k);
    }
    ReportsOfRun(Attempts(call));
  }

  ghost predicate IsGenuine(a: Attempt) {
    IsAttempt(a.target, a.events, a.outcome)
  }

  lemma ReportsOfRun(attempts: seq<Attempt>)
    requires forall k :: 0 <= k < |attempts| ==> IsGenuine(attempts[k])
    requires forall k :: 0 <= k < |attempts| - 1 ==> attempts[k].outcome == TryNext
    ensures |ReportsOf(attempts)| == (if attempts != [] && attempts[|attempts| - 1].outcome.Fatal? then |attempts| - 1 else |attempts|)
    ensures forall k :: 0 <= k < |ReportsOf(attempts)| ==> MatchesAttempt(ReportsOf(attempts)[k], attempts[k])
  {
    if attempts != [] && attempts[|attempts| - 1].outcome.Fatal? {
      var a := attempts[|attempts| - 1];
      OneReportPerAttempt(a.target, a.events, a.outcome);
      ReportsMatchAttempts(attempts[..|attempts| - 1]);
    } else {
      ReportsMatchAttempts(attempts);
    }
  }

  // ---- How long a call can wait ----

  function Waited(events: seq<Event>): nat {
    if events == [] then 0
    else
      var e := events[|events| - 1];
      Waited(events[..|events| - 1]) + match e {
        case Resolved(_, _, waited, _) => waited
        case Dialed(_, _, waited, _) => waited
        case _ => 0
      }
  }

  lemma {:induction false} WaitedConcat(a: seq<Event>, b: seq<Event>)
    ensures Waited(a + b) == Waited(a) + Waited(b)
    decreases |b|
  {
    if b == [] {
      assert a + b == a;
    } else {
      WaitedConcat(a, b[..|b| - 1]);
      assert (a + b)[..|a + b| - 1] == a + b[..|b| - 1];
    }
  }

  /** Lookup time plus five seconds for each address it returned. */
  function Budget(a: Attempt): nat
    requires a.events != [] && a.events[0].Resolved?
  {
    a.events[0].waited + if a.events[0].answer.Ok? then 5 * SECOND * |a.events[0].answer.value| else 0
  }

  function Budgets(attempts: seq<Attempt>): nat
    requires forall k :: 0 <= k < |attempts| ==> attempts[k].events != [] && attempts[k].events[0].Resolved?
  {
    if attempts == [] then 0 else Budgets(attempts[..|attempts| - 1]) + Budget(attempts[|attempts| - 1])
  }

  lemma {:induction false} DialsWithin(dials: seq<Event>, addrs: seq<SocketAddr>)
    requires DialsInOrder(dials, addrs)
    ensures Waited(dials) <= CONNECT_TIMEOUT * |dials|
  {
    if dials != [] {
      DialsWithin(dials[..|dials| - 1], addrs);
    }
  }

  lemma AttemptWithinBudget(pool: seq<string>, a: Attempt)
    requires IsAttemptAt(pool, a, a.pos)
    ensures a.events != [] && a.events[0].Resolved? && Waited(a.events) <= Budget(a)
  {
    var n := |a.events| - 1;
    assert Waited([a.events[0]]) == a.events[0].waited;
    if n == 0 {
      assert a.events == [a.events[0]];
    } else {
      var dials := a.events[1..n];
      assert a.events[..n] == [a.events[0]] + dials;
      WaitedConcat([a.events[0]], dials);
      if a.events[0].answer.Ok? {
        DialsWithin(dials, a.events[0].answer.value);
      }
    }
  }

  lemma {:induction false} WaitsOfFirst(first: seq<Visit>)
    ensures Waited(FirstEvents(first)) == Waited(SecondEvents(FirstAttempts(first)))
  {
    if first != [] {
      var v := first[|first| - 1];
      var before := first[..|first| - 1];
      WaitsOfFirst(before);
      WaitedConcat(FirstEvents(before), VisitEvents(v));
      var check := [Checked(v.target, v.status, v.at)];
      assert Waited(check) == 0;
      if v.attempt.Some? {
        WaitedConcat(check, v.attempt.value.events);
        assert FirstAttempts(first)[..|FirstAttempts(before)|] == FirstAttempts(before);
        WaitedConcat(SecondEvents(FirstAttempts(before)), v.attempt.value.events);
      } else {
        assert VisitEvents(v) == check;
        assert FirstAttempts(first) == FirstAttempts(before);
      }
    }
  }

  lemma {:induction false} SecondEventsConcat(a: seq<Attempt>, b: seq<Attempt>)
    ensures SecondEvents(a + b) == SecondEvents(a) + SecondEvents(b)
    decreases |b|
  {
    if b == [] {
      assert a + b == a;
    } else {
      SecondEventsConcat(a, b[..|b| - 1]);
      assert (a + b)[..|a + b| - 1] == a + b[..|b| - 1];
    }
  }

  lemma WaitsAreAttempts(call: Call)
    ensures Waited(CallEvents(call)) == Waited(SecondEvents(Attempts(call)))
  {
    WaitedConcat(FirstEvents(call.first), SecondEvents(call.second));
    WaitsOfFirst(call.first);
    SecondEventsConcat(FirstAttempts(call.first), call.second);
    WaitedConcat(SecondEvents(FirstAttempts(call.first)), SecondEvents(call.second));
  }

  lemma {:induction false} AttemptsWithinBudgets(pool: seq<string>, attempts: seq<Attempt>)
    requires forall k :: 0 <= k < |attempts| ==> IsAttemptAt(pool, attempts[k], attempts[k].pos)
    ensures forall k :: 0 <= k < |attempts| ==> attempts[k].events != [] && attempts[k].events[0].Resolved?
    ensures Waited(SecondEvents(attempts)) <= Budgets(attempts)
  {
    if attempts != [] {
      var a := attempts[|attempts| - 1];
      var before := attempts[..|attempts| - 1];
      AttemptsWithinBudgets(pool, before);
      AttemptWithinBudget(pool, a);
      WaitedConcat(SecondEvents(before), a.events);
    }
  }

  /** A call waits no longer than its attempts' lookups plus 5 s per address they returned. */
  lemma CallWithinBudget(pool: seq<string>, port: Port, order: seq<nat>, call: Call, r: Answer)
    requires Selects(pool, port, order, call, r)
    ensures forall k :: 0 <= k < |Attempts(call)| ==>
              Attempts(call)[k].events != [] && Attempts(call)[k].events[0].Resolved?
    ensures Waited(CallEvents(call)) <= Budgets(Attempts(call))
  {
    forall k | 0 <= k < |Attempts(call)| ensures IsAttemptAt(pool, Attempts(call)[k], Attempts(call)[k].pos) {
      AttemptsAreGenuine(pool, port, order, call, r, k);
    }
    AttemptsWithinBudgets(pool, Attempts(call));
    WaitsAreAttempts(call);
  }
}
