/** Where calls start: fairness of the wrapping per-port ticket, and the load it produces. */
module Tickets {
  import opened Types
  import opened RoundRobin
  import Selection
  import opened Modular
  import Configuration

  // ---- Interleaved calls draw consecutive tickets ----

  function CallsOn(calls: seq<Port>, port: Port): nat {
    if calls == [] then 0
    else CallsOn(calls[..|calls| - 1], port) + if calls[|calls| - 1] == port then 1 else 0
  }

  /** However calls interleave, a port's counter has advanced by its own consuming calls, no others. */
  lemma {:induction false} TicketsAreConsecutive(config: Configuration.ProxyConfig, counters: map<Port, nat>, calls: seq<Port>, port: Port)
    requires port in counters && counters[port] < USIZE_VALUES
    ensures DrawAll(config, counters, calls).Keys == counters.Keys
    ensures DrawAll(config, counters, calls)[port] ==
            if config.GetPool(port).Some? && config.GetPool(port).value != []
            then (counters[port] + CallsOn(calls, port)) % 0x1_0000_0000_0000_0000
            else counters[port]
  {
    if calls != [] {
      var before := calls[..|calls| - 1];
      TicketsAreConsecutive(config, counters, before, port);
      WrapStep(counters[port] + CallsOn(before, port), USIZE_VALUES);
    }
  }

  // ---- Start positions over a window of tickets ----

  /** The start position of the k-th call after the counter stood at c; m counter values, n targets. */
  function StartAt(c: nat, k: nat, m: nat, n: nat): nat
    requires m > 0 && n > 0
  {
    ((c + k) % m) % n
  }

  function Starts(c: nat, w: nat, m: nat, n: nat, p: nat): nat
    requires m > 0 && n > 0
  {
    if w == 0 then 0 else Starts(c, w - 1, m, n, p) + if StartAt(c, w - 1, m, n) == p then 1 else 0
  }

  /** Tickets in the window, after its first, that start over at zero. */
  function Wraps(c: nat, w: nat, m: nat): nat
    requires m > 0
  {
    if w <= 1 then 0 else Wraps(c, w - 1, m) + if (c + w - 1) % m == 0 then 1 else 0
  }

  /** How many numbers below x are p modulo n. */
  function Below(x: nat, n: nat, p: nat): nat
    requires p < n
  {
    x / n + if x % n > p then 1 else 0
  }

  lemma BelowStep(x: nat, n: nat, p: nat)
    requires p < n
    ensures Below(x + 1, n, p) == Below(x, n, p) + if x % n == p then 1 else 0
  {
    if x % n + 1 < n {
      DivideUnique(x + 1, n, x / n, x % n + 1);
    } else {
      DivideUnique(x + 1, n, x / n + 1, 0);
    }
  }

  /** No wrap inside the window, or a counter range the pool divides: starts just count up. */
  ghost predicate Counting(c: nat, w: nat, m: nat, n: nat)
    requires m > 0 && n > 0
  {
    forall k :: 0 <= k < w ==> StartAt(c, k, m, n) == (c + k) % n
  }

  lemma {:induction false} StartsWhenCounting(c: nat, w: nat, m: nat, n: nat, p: nat)
    requires p < n && m > 0 && Counting(c, w, m, n)
    ensures Starts(c, w, m, n, p) == Below(c + w, n, p) - Below(c, n, p)
  {
    if w > 0 {
      StartsWhenCounting(c, w - 1, m, n, p);
      BelowStep(c + w - 1, n, p);
      assert StartAt(c, w - 1, m, n) == (c + (w - 1)) % n;
    }
  }

  lemma CountingIsFair(c: nat, w: nat, m: nat, n: nat, p: nat, q: nat)
    requires p < n && q < n && m > 0 && Counting(c, w, m, n)
    ensures Starts(c, w, m, n, p) <= Starts(c, w, m, n, q) + 1
  {
    StartsWhenCounting(c, w, m, n, p);
    StartsWhenCounting(c, w, m, n, q);
  }

  /** Taking the window apart at its first v tickets. */
  lemma {:induction false} StartsSplit(c: nat, v: nat, w: nat, m: nat, n: nat, p: nat)
    requires m > 0 && n > 0 && (c + v) % m == 0
    ensures Starts(c, v + w, m, n, p) == Starts(c, v, m, n, p) + Starts(0, w, m, n, p)
  {
    if w > 0 {
      StartsSplit(c, v, w - 1, m, n, p);
      ModShift(c + v, w - 1, m);
      assert c + (v + w - 1) == c + v + (w - 1);
    }
  }

  lemma {:induction false} WrapsSplit(c: nat, v: nat, w: nat, m: nat)
    requires m > 0 && v > 0 && w > 0 && (c + v) % m == 0
    ensures Wraps(c, v + w, m) == Wraps(c, v, m) + 1 + Wraps(0, w, m)
  {
    if w > 1 {
      WrapsSplit(c, v, w - 1, m);
      ModShift(c + v, w - 1, m);
      assert c + (v + w) - 1 == c + v + (w - 1);
    } else {
      assert c + (v + 1) - 1 == c + v;
    }
  }

  lemma SmallStart(c: nat, k: nat, m: nat, n: nat)
    requires n > 0 && c + k < m
    ensures StartAt(c, k, m, n) == (c + k) % n
  {
    DivideUnique(c + k, m, 0, c + k);
  }

  lemma CountsBeforeWrap(c: nat, w: nat, m: nat, n: nat)
    requires m > 0 && n > 0 && c + w <= m
    ensures Counting(c, w, m, n)
  {
    forall k | 0 <= k < w ensures StartAt(c, k, m, n) == (c + k) % n {
      SmallStart(c, k, m, n);
    }
  }

  /**
   Over any window of consecutive tickets, two positions' start counts differ by at most one more
   than the number of wraps inside the window.
   */
  lemma {:induction false} TicketFairness(c: nat, w: nat, m: nat, n: nat, p: nat, q: nat)
    requires c < m && p < n && q < n
    ensures Starts(c, w, m, n, p) <= Starts(c, w, m, n, q) + 1 + Wraps(c, w, m)
    decreases w
  {
    var v := m - c;
    CountsBeforeWrap(c, if w <= v then w else v, m, n);
    if w <= v {
      CountingIsFair(c, w, m, n, p, q);
    } else {
      CountingIsFair(c, v, m, n, p, q);
      DivideUnique(c + v, m, 1, 0);
      StartsSplit(c, v, w - v, m, n, p);
      StartsSplit(c, v, w - v, m, n, q);
      WrapsSplit(c, v, w - v, m);
      TicketFairness(0, w - v, m, n, p, q);
    }
  }

  /** When the pool size divides the counter range, wrapping costs no fairness at all. */
  lemma FairDespiteWraps(c: nat, w: nat, m: nat, n: nat, p: nat, q: nat)
    requires p < n && q < n && m > 0 && m % n == 0
    ensures Starts(c, w, m, n, p) <= Starts(c, w, m, n, q) + 1
  {
    forall k | 0 <= k < w ensures StartAt(c, k, m, n) == (c + k) % n {
      ModMod(c + k, m, n);
    }
    CountingIsFair(c, w, m, n, p, q);
  }

  /** Fewer than n tickets from a multiple of n on, before the wrap: each position below r starts once. */
  lemma {:induction false} StartsFromMultiple(c: nat, r: nat, m: nat, n: nat, p: nat)
    requires p < n && r < n && c % n == 0 && c + r <= m && m > 0
    ensures Starts(c, r, m, n, p) == if p < r then 1 else 0
  {
    if r > 0 {
      StartsFromMultiple(c, r - 1, m, n, p);
      SmallStart(c, r - 1, m, n);
      ModShift(c, r - 1, n);
      DivideUnique(r - 1, n, 0, r - 1);
    }
  }

  /** The remainder r of a counter range the pool does not divide: 2r tickets around the wrap. */
  lemma StartsAroundWrap(m: nat, n: nat, p: nat)
    requires m > 0 && p < n && m % n > 0
    ensures var r := m % n; Starts(m - r, r + r, m, n, p) == if p < r then 2 else 0
  {
    var r := m % n;
    DivideUnique(m - r, n, m / n, 0);
    DivideUnique(m, m, 1, 0);
    StartsFromMultiple(m - r, r, m, n, p);
    StartsFromMultiple(0, r, m, n, p);
    StartsSplit(m - r, r, r, m, n, p);
  }

  ghost predicate FairWindow(c: nat, w: nat, m: nat, n: nat, p: nat, q: nat)
    requires m > 0 && n > 0
  {
    Starts(c, w, m, n, p) <= Starts(c, w, m, n, q) + 1
  }

  /** Over every window of tickets any two positions' start counts differ by at most one. */
  ghost predicate AlwaysFair(m: nat, n: nat)
    requires m > 0 && n > 0
  {
    forall c: nat, w: nat, p: nat, q: nat :: p < n && q < n ==> FairWindow(c, w, m, n, p, q)
  }

  lemma DividingIsAlwaysFair(m: nat, n: nat)
    requires m > 0 && n > 0 && m % n == 0
    ensures AlwaysFair(m, n)
  {
    forall c: nat, w: nat, p: nat, q: nat | p < n && q < n ensures FairWindow(c, w, m, n, p, q) {
      FairDespiteWraps(c, w, m, n, p, q);
    }
  }

  lemma UnfairWindow(m: nat, n: nat, r: nat)
    requires n > 0 && 0 < r <= m && r == m % n
    ensures !FairWindow(m - r, r + r, m, n, 0, n - 1)
  {
    StartsAroundWrap(m, n, 0);
    StartsAroundWrap(m, n, n - 1);
  }

  lemma OneUnfairWindow(c: nat, w: nat, m: nat, n: nat, p: nat, q: nat)
    requires m > 0 && p < n && q < n && !FairWindow(c, w, m, n, p, q)
    ensures !AlwaysFair(m, n)
  {}

  lemma NotDividingIsUnfair(m: nat, n: nat)
    requires m > 0 && n > 0 && m % n > 0
    ensures !AlwaysFair(m, n)
  {
    var r := m % n;
    ModAtMost(m, n);
    UnfairWindow(m, n, r);
    OneUnfairWindow(m - r, r + r, m, n, 0, n - 1);
  }

  /** Wrapping costs fairness exactly when the pool size does not divide the counter range. */
  lemma FairDespiteWrapsIff(m: nat, n: nat)
    requires m > 0 && n > 0
    ensures AlwaysFair(m, n) <==> m % n == 0
  {
    if m % n == 0 {
      DividingIsAlwaysFair(m, n);
    } else {
      NotDividingIsUnfair(m, n);
    }
  }

  // ---- Load under a partial outage ----

  /**
   For this call a position that is up is seen available and connects; any other is drained, cooling
   or refuses.
   */
  ghost predicate BehavesAs(up: seq<bool>, call: Call) {
    && (forall k :: 0 <= k < |call.first| && call.first[k].pos < |up| ==>
          call.first[k].Verdict() != Missing && (up[call.first[k].pos] ==> call.first[k].Verdict() == Available))
    && (forall k :: 0 <= k < |Attempts(call)| && Attempts(call)[k].pos < |up| ==>
          if up[Attempts(call)[k].pos] then Attempts(call)[k].outcome.Ready? else Attempts(call)[k].outcome == TryNext)
  }

  lemma {:induction false} AttemptOfVisit(first: seq<Visit>, j: nat) returns (i: nat)
    requires j < |first| && first[j].attempt.Some?
    ensures i < |FirstAttempts(first)| && FirstAttempts(first)[i] == first[j].attempt.value
    ensures j < |first| - 1 && first[|first| - 1].attempt.Some? ==> i < |FirstAttempts(first)| - 1
    ensures j == |first| - 1 ==> i == |FirstAttempts(first)| - 1
  {
    var n := |first| - 1;
    if j < n {
      i := AttemptOfVisit(first[..n], j);
    } else {
      i := |FirstAttempts(first[..n])|;
    }
  }

  /** A call connects at the first position, in its order, that is up. */
  lemma ConnectsAtFirstUp(pool: seq<string>, port: Port, order: seq<nat>, up: seq<bool>, call: Call, r: Answer)
    requires Selects(pool, port, order, call, r) && Selection.IsOrder(order, |pool|)
    requires |up| == |pool| && BehavesAs(up, call) && true in up
    ensures r.Ok? && call.second == [] && call.first != []
    ensures var k := |call.first| - 1;
      && Attempts(call) != [] && Attempts(call)[|Attempts(call)| - 1].pos == order[k]
      && up[order[k]] && forall j :: 0 <= j < k ==> !up[order[j]]
  {
    var attempts := Attempts(call);
    Selection.CallFollowsCandidates(pool, port, order, call, r);
    forall k | 0 <= k < |call.first| ensures call.first[k].pos == order[k] < |up| && call.first[k].Verdict() != Missing {
      assert IsVisit(pool, call.first[k], order[k]);
    }
    assert !EndsAtCheck(call, r);
    forall k | 0 <= k < |attempts| ensures attempts[k].pos < |up| {
      Selection.AttemptsAreGenuine(pool, port, order, call, r, k);
    }
    forall j | 0 <= j < |call.first| && up[order[j]]
      ensures j == |call.first| - 1 && call.second == []
    {
      UpIsLast(pool, port, order, up, call, r, j);
    }
    if |call.first| == |pool| {
      var p :| 0 <= p < |up| && up[p];
      assert p in order;
      var k :| 0 <= k < |order| && order[k] == p;
    }
    var last := attempts[|attempts| - 1];
    assert EndsAtAttempt(pool, call, r);
    assert last.outcome.Ready? && up[last.pos];
    var i := AttemptOfVisit(call.first, |call.first| - 1);
    assert IsVisit(pool, call.first[|call.first| - 1], order[|call.first| - 1]);
  }

  lemma UpIsLast(pool: seq<string>, port: Port, order: seq<nat>, up: seq<bool>, call: Call, r: Answer, j: nat)
    requires Selects(pool, port, order, call, r) && j < |call.first| && !EndsAtCheck(call, r)
    requires |up| == |pool| && BehavesAs(up, call) && order[j] < |up| && up[order[j]]
    ensures j == |call.first| - 1 && call.second == []
  {
    assert IsVisit(pool, call.first[j], order[j]);
    var i := AttemptOfVisit(call.first, j);
    assert Attempts(call)[i] == call.first[j].attempt.value;
    Selection.CallFollowsCandidates(pool, port, order, call, r);
    assert i == |Attempts(call)| - 1;
  }

  /** The position e steps after s. */
  function Ahead(s: nat, e: nat, n: nat): nat
    requires s < n && e <= n
  {
    Wrap(s + e, n)
  }

  /** The position e steps before p. */
  function Behind(p: nat, e: nat, n: nat): nat
    requires p < n && 1 <= e <= n
  {
    Wrap(p + n - e, n)
  }

  /** Steps from s to the first position that is up, of those at distance d or more. */
  function Steps(up: seq<bool>, s: nat, d: nat): (f: nat)
    requires s < |up| && d <= |up|
    ensures d <= f <= |up|
    ensures f < |up| ==> up[Ahead(s, f, |up|)]
    ensures forall e :: d <= e < f ==> !up[Ahead(s, e, |up|)]
    decreases |up| - d
  {
    if d == |up| || up[Ahead(s, d, |up|)] then d else Steps(up, s, d + 1)
  }

  /** Where a call starting at s lands. */
  function Landing(up: seq<bool>, s: nat): nat
    requires s < |up|
  {
    Ahead(s, Steps(up, s, 0), |up|)
  }

  /** Length of the run of positions that are not up just before p, going back round the pool. */
  function RunBefore(up: seq<bool>, p: nat, k: nat): (len: nat)
    requires p < |up| && 1 <= k <= |up|
    ensures k + len <= |up|
    ensures forall e :: k <= e < k + len ==> !up[Behind(p, e, |up|)]
    ensures k + len < |up| ==> up[Behind(p, k + len, |up|)]
    decreases |up| - k
  {
    if k < |up| && !up[Behind(p, k, |up|)] then 1 + RunBefore(up, p, k + 1) else 0
  }

  /** A start lands on p exactly from p itself and from the run before it. */
  lemma LandingIff(up: seq<bool>, s: nat, p: nat)
    requires s < |up| && p < |up| && up[p]
    ensures Landing(up, s) == p <==> Wrap(p + |up| - s, |up|) <= RunBefore(up, p, 1)
  {
    var n, f, run := |up|, Steps(up, s, 0), RunBefore(up, p, 1);
    var d := Wrap(p + n - s, n);
    assert Ahead(s, d, n) == p;
    if f < d {
      assert Behind(p, d - f, n) == Ahead(s, f, n);
      assert run < d - f;
    }
    if run < d {
      assert Behind(p, run + 1, n) == Ahead(s, d - (run + 1), n);
    }
  }

  /** Calls of the window landing on p. */
  function Landings(up: seq<bool>, c: nat, w: nat, m: nat, p: nat): nat
    requires m > 0 && |up| > 0
  {
    if w == 0 then 0
    else Landings(up, c, w - 1, m, p) + if Landing(up, StartAt(c, w - 1, m, |up|)) == p then 1 else 0
  }

  function Max(a: int, b: int): int { if a < b then b else a }

  function Min(a: int, b: int): int { if a < b then a else b }

  /** Of w starts counting up from s, those at most `run` steps before p. */
  function Near(s: nat, p: nat, run: nat, w: nat, n: nat): nat
    requires s < n && p < n && w <= n
  {
    if w == 0 then 0
    else Near(s, p, run, w - 1, n) + if Wrap(p + n - Ahead(s, w - 1, n), n) <= run then 1 else 0
  }

  lemma {:induction false} NearSoFar(s: nat, p: nat, run: nat, w: nat, n: nat)
    requires s < n && p < n && w <= n && run < n
    ensures Near(s, p, run, w, n) == Within(Wrap(p + n - s, n), run, w, n)
  {
    if w > 0 {
      NearSoFar(s, p, run, w - 1, n);
    }
  }

  /** The same count in closed form, where p is a steps ahead of s. */
  function Within(a: nat, run: nat, w: nat, n: nat): int {
    Max(0, Min(w, a + 1) - Max(0, a - run)) + Max(0, w - Max(a + 1, n + a - run))
  }

  lemma {:induction false} LandingsSoFar(up: seq<bool>, c: nat, s: nat, w: nat, m: nat, p: nat)
    requires p < |up| && up[p] && w <= |up| && s < |up| && m > 0
    requires forall k :: 0 <= k < |up| ==> StartAt(c, k, m, |up|) == Ahead(s, k, |up|)
    ensures Landings(up, c, w, m, p) == Near(s, p, RunBefore(up, p, 1), w, |up|)
  {
    if w > 0 {
      LandingsSoFar(up, c, s, w - 1, m, p);
      LandingIff(up, Ahead(s, w - 1, |up|), p);
    }
  }

  lemma StartIsAhead(c: nat, k: nat, m: nat, n: nat)
    requires k < n && c + k < m
    ensures StartAt(c, k, m, n) == Ahead(c % n, k, n)
  {
    SmallStart(c, k, m, n);
    ShiftIsWrap(c, k, n);
  }

  /**
   Load shape: over as many consecutive tickets as the pool is long, a position that is up serves
   one call plus one for each position of the outage just before it.
   */
  lemma LoadShape(up: seq<bool>, c: nat, m: nat, p: nat)
    requires p < |up| && c + |up| <= m
    ensures up[p] ==> Landings(up, c, |up|, m, p) == 1 + RunBefore(up, p, 1)
    ensures !up[p] && true in up ==> Landings(up, c, |up|, m, p) == 0
  {
    if up[p] {
      forall k | 0 <= k < |up| ensures StartAt(c, k, m, |up|) == Ahead(c % |up|, k, |up|) {
        StartIsAhead(c, k, m, |up|);
      }
      LandingsSoFar(up, c, c % |up|, |up|, m, p);
      NearSoFar(c % |up|, p, RunBefore(up, p, 1), |up|, |up|);
    } else if true in up {
      NeverLandsOnDown(up, c, |up|, m, p);
    }
  }

  lemma {:induction false} NeverLandsOnDown(up: seq<bool>, c: nat, w: nat, m: nat, p: nat)
    requires p < |up| && !up[p] && true in up && m > 0
    ensures Landings(up, c, w, m, p) == 0
  {
    if w > 0 {
      NeverLandsOnDown(up, c, w - 1, m, p);
      SomeStep(up, StartAt(c, w - 1, m, |up|));
    }
  }

  lemma SomeStep(up: seq<bool>, s: nat)
    requires s < |up| && true in up
    ensures Steps(up, s, 0) < |up|
  {
    var q :| 0 <= q < |up| && up[q];
    var d := Wrap(q + |up| - s, |up|);
    assert Ahead(s, d, |up|) == q;
  }

  lemma {:induction false} FirstIsSteps(up: seq<bool>, s: nat, d: nat, k: nat)
    requires s < |up| && d <= k < |up| && up[Ahead(s, k, |up|)]
    requires forall j :: d <= j < k ==> !up[Ahead(s, j, |up|)]
    ensures Steps(up, s, d) == k
    decreases k - d
  {
    if d < k {
      FirstIsSteps(up, s, d + 1, k);
    }
  }

  /** A call that starts at s connects where `Landing` says. */
  lemma CallLands(pool: seq<string>, port: Port, s: nat, up: seq<bool>, call: Call, r: Answer)
    requires 0 < |pool| == |up| && s < |pool| && CallFrom(pool, port, s, up, call, r) && true in up
    ensures r.Ok? && forall p :: ServedBy(call, r, p) <==> p == Landing(up, s)
  {
    var n, order := |pool|, Rotation(s, |pool|);
    Selection.RotationIsOrder(s, n);
    ConnectsAtFirstUp(pool, port, order, up, call, r);
    var k := |call.first| - 1;
    forall j | 0 <= j < n ensures order[j] == Ahead(s, j, n) {
      WrapIsMod(s + j, n);
    }
    FirstIsSteps(up, s, 0, k);
  }

  /** A window of consecutive calls on one port, the k-th starting where the k-th ticket says. */
  ghost predicate Window(pool: seq<string>, port: Port, c: nat, m: nat, up: seq<bool>, calls: seq<Call>, answers: seq<Answer>)
    requires m > 0
  {
    && 0 < |pool| == |up| && |calls| == |answers|
    && forall k :: 0 <= k < |calls| ==> CallFrom(pool, port, StartAt(c, k, m, |pool|), up, calls[k], answers[k])
  }

  /** A call that starts at s, while the targets behave as `up` says. */
  ghost predicate CallFrom(pool: seq<string>, port: Port, s: nat, up: seq<bool>, call: Call, r: Answer)
    requires |pool| > 0
  {
    Selects(pool, port, Rotation(s, |pool|), call, r) && BehavesAs(up, call)
  }

  /** The call connected through position p. */
  predicate ServedBy(call: Call, r: Answer, p: nat) {
    r.Ok? && Attempts(call) != [] && Attempts(call)[|Attempts(call)| - 1].pos == p
  }

  /** Calls among the first w that connected through position p. */
  function Served(calls: seq<Call>, answers: seq<Answer>, w: nat, p: nat): nat
    requires w <= |calls| == |answers|
  {
    if w == 0 then 0
    else Served(calls, answers, w - 1, p) + if ServedBy(calls[w - 1], answers[w - 1], p) then 1 else 0
  }

  ghost predicate LandsAt(up: seq<bool>, c: nat, k: nat, m: nat, call: Call, r: Answer, p: nat)
    requires m > 0 && |up| > 0
  {
    ServedBy(call, r, p) <==> Landing(up, StartAt(c, k, m, |up|)) == p
  }

  lemma {:induction false} ServedAreLandings(c: nat, m: nat, up: seq<bool>, calls: seq<Call>, answers: seq<Answer>, w: nat, p: nat)
    requires m > 0 && |up| > 0 && w <= |calls| == |answers|
    requires forall k :: 0 <= k < w ==> LandsAt(up, c, k, m, calls[k], answers[k], p)
    ensures Served(calls, answers, w, p) == Landings(up, c, w, m, p)
  {
    if w > 0 {
      ServedAreLandings(c, m, up, calls, answers, w - 1, p);
      assert LandsAt(up, c, w - 1, m, calls[w - 1], answers[w - 1], p);
    }
  }

  /**
   The load shape of real calls: as many consecutive calls as the pool is long, without a counter wrap.
   Each position that is up connects one call plus one per position of the outage before it, no other
   position connects any, and every call connects.
   */
  lemma CallLoadShape(pool: seq<string>, port: Port, c: nat, m: nat, up: seq<bool>,
                      calls: seq<Call>, answers: seq<Answer>, p: nat)
    requires m > 0 && Window(pool, port, c, m, up, calls, answers) && true in up
    requires |calls| == |pool| && c + |pool| <= m && p < |pool|
    ensures Served(calls, answers, |calls|, p) == if up[p] then 1 + RunBefore(up, p, 1) else 0
    ensures forall k :: 0 <= k < |answers| ==> answers[k].Ok?
  {
    forall k | 0 <= k < |calls| ensures answers[k].Ok? && LandsAt(up, c, k, m, calls[k], answers[k], p) {
      CallLands(pool, port, StartAt(c, k, m, |pool|), up, calls[k], answers[k]);
    }
    ServedAreLandings(c, m, up, calls, answers, |calls|, p);
    LoadShape(up, c, m, p);
  }
}
