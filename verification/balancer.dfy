/** The outside world as the balancer meets it: any answer, at any time, after any delay. */
module Network {
  import opened Types
  import Cooldown

  datatype SocketAddr = SocketAddr(ip: string, port: Port)

  datatype Stream = Stream(handle: nat)

  /** One connection attempt under a time limit. */
  datatype Dial = Connected(stream: Stream) | Refused(error: ProxyError) | TimedOut

  /** What the balancer did to the world; `at` is the clock once it was done. */
  datatype Event =
    | Checked(target: string, status: Result<BackendStatus>, at: Instant)
    | Resolved(target: string, answer: Result<seq<SocketAddr>>, waited: Instant, at: Instant)
    | Dialed(addr: SocketAddr, dial: Dial, waited: Instant, at: Instant)
    | Reported(target: string, result: ConnectResult, now: Instant, at: Instant)

  /** A value nothing is known about. */
  method Any<T(0)>() returns (t: T) {
    t := *;
  }

  // ---- The log in time, and against a status table ----

  /** The event began no sooner than `before`, and took at least as long as it says. */
  predicate Follows(e: Event, before: Instant) {
    match e
    case Checked(_, _, at) => before <= at
    case Resolved(_, _, waited, at) => before + waited <= at
    case Dialed(_, _, waited, at) => before + waited <= at
    case Reported(_, _, now, at) => before <= now <= at
  }

  /** Where an event may start: the end of the one before it. */
  function EndOf(log: seq<Event>): Instant {
    if log == [] then 0 else log[|log| - 1].at
  }

  predicate FollowsAt(log: seq<Event>, k: nat)
    requires k < |log|
  {
    Follows(log[k], EndOf(log[..k]))
  }

  /** Each event follows the one before it, and none lies ahead of the clock. */
  ghost predicate InTimeOrder(log: seq<Event>, now: Instant) {
    EndOf(log) <= now && forall k :: 0 <= k < |log| ==> FollowsAt(log, k)
  }

  lemma InTimeOrderPlus(log: seq<Event>, e: Event, now: Instant)
    requires InTimeOrder(log, e.at) && Follows(e, EndOf(log)) && e.at <= now
    ensures InTimeOrder(log + [e], now)
  {
    forall k | 0 <= k < |log + [e]| ensures FollowsAt(log + [e], k) {
      if k < |log| {
        assert FollowsAt(log, k) && (log + [e])[..k] == log[..k];
      } else {
        assert (log + [e])[..k] == log;
      }
    }
  }

  type Table = map<string, BackendStatus>

  function Look(t: Table, target: string): Result<BackendStatus> {
    if target in t then Ok(t[target]) else Err(BackendNotFound(target))
  }

  function AfterEvent(t: Table, e: Event): Table {
    if e.Reported? && e.target in t
    then t[e.target := Cooldown.AfterReport(t[e.target], e.result, e.now, e.at)]
    else t
  }

  /** The table once the handler has taken the reports among the events. */
  function Replay(t: Table, events: seq<Event>): (after: Table)
    ensures after.Keys == t.Keys
  {
    if events == [] then t else AfterEvent(Replay(t, events[..|events| - 1]), events[|events| - 1])
  }

  /** A status read at i sees exactly the reports made before it. */
  predicate SeesReports(t: Table, events: seq<Event>, i: nat)
    requires i < |events|
  {
    events[i].Checked? ==> events[i].status == Look(Replay(t, events[..i]), events[i].target)
  }

  /** Run sequentially: nobody else wrote to the table. */
  ghost predicate Faithful(t: Table, events: seq<Event>) {
    forall i :: 0 <= i < |events| ==> SeesReports(t, events, i)
  }

  lemma LogPlus(t: Table, log: seq<Event>, e: Event)
    ensures Replay(t, log + [e]) == AfterEvent(Replay(t, log), e)
    ensures Faithful(t, log) && (e.Checked? ==> e.status == Look(Replay(t, log), e.target)) ==> Faithful(t, log + [e])
  {
    assert (log + [e])[..|log|] == log;
    if Faithful(t, log) {
      forall i | 0 <= i < |log| ensures SeesReports(t, log + [e], i) {
        assert SeesReports(t, log, i) && (log + [e])[..i] == log[..i];
      }
    }
  }

  lemma {:induction false} ReplayConcat(t: Table, a: seq<Event>, b: seq<Event>)
    ensures Replay(t, a + b) == Replay(Replay(t, a), b)
    decreases |b|
  {
    if b == [] {
      assert a + b == a;
    } else {
      var before := b[..|b| - 1];
      assert (a + b)[..|a + b| - 1] == a + before && (a + b)[|a + b| - 1] == b[|b| - 1];
      ReplayConcat(t, a, before);
    }
  }

  /** A later part of a faithful log is faithful to the table it started from. */
  lemma FaithfulSuffix(t: Table, a: seq<Event>, b: seq<Event>)
    requires Faithful(t, a + b)
    ensures Faithful(Replay(t, a), b) && Replay(t, a + b) == Replay(Replay(t, a), b)
  {
    ReplayConcat(t, a, b);
    forall i | 0 <= i < |b| ensures SeesReports(Replay(t, a), b, i) {
      assert SeesReports(t, a + b, |a| + i);
      assert (a + b)[|a| + i] == b[i] && (a + b)[..|a| + i] == a + b[..i];
      ReplayConcat(t, a, b[..i]);
    }
  }

  /** Nothing in a log lies ahead of the clock. */
  lemma {:induction false} LoggedInThePast(log: seq<Event>, now: Instant, k: nat)
    requires InTimeOrder(log, now) && k < |log|
    ensures log[k].at <= now && (log[k].Reported? ==> log[k].now <= now)
  {
    var n := |log| - 1;
    assert FollowsAt(log, n);
    if k < n {
      forall j | 0 <= j < n ensures FollowsAt(log[..n], j) {
        assert FollowsAt(log, j) && log[..n][..j] == log[..j];
      }
      LoggedInThePast(log[..n], log[n].at, k);
    }
  }

  /**
   Resolver, connector, cooldown handler and clock. Each method may first let any amount of time
   pass, in which other tasks may do anything: nothing is promised about the answers. Only if a handler
   is given are statuses read from it and reports made to it, with nobody else using it meanwhile.
   */
  class Environment {
    var now: Instant
    ghost var log: seq<Event>
    const handler: Cooldown.SimpleCooldownHandler?
    ghost const start: Table

    constructor (now: Instant)
      ensures Valid() && this.now == now && log == [] && handler == null
    {
      this.now, log, handler := now, [], null;
    }

    constructor Alone(now: Instant, handler: Cooldown.SimpleCooldownHandler)
      ensures Valid() && this.now == now && log == [] && this.handler == handler
    {
      this.now, log, this.handler := now, [], handler;
      start := handler.targets.targetStatus;
    }

    function Cells(): set<object> {
      if handler == null then {} else {handler.targets}
    }

    ghost predicate Valid()
      reads this, Cells()
    {
      && InTimeOrder(log, now)
      && (handler != null ==> Faithful(start, log) && handler.targets.targetStatus == Replay(start, log))
    }

    method Delay()
      modifies this`now
      ensures old(now) <= now
    {
      var d: nat := Any();
      now := now + d;
    }

    ghost method Log(e: Event)
      requires InTimeOrder(log, e.at) && e.at <= now && Follows(e, EndOf(log))
      requires handler != null ==>
        && Faithful(start, log) && (e.Checked? ==> e.status == Look(Replay(start, log), e.target))
        && handler.targets.targetStatus == AfterEvent(Replay(start, log), e)
      modifies this`log
      ensures Valid() && log == old(log) + [e]
    {
      LogPlus(start, log, e);
      InTimeOrderPlus(log, e, now);
      log := log + [e];
    }

    /** Load a target's status and read the clock it is judged against. */
    method GetTargetStatus(target: string) returns (status: Result<BackendStatus>, at: Instant)
      requires Valid()
      modifies this
      ensures Valid() && log == old(log) + [Checked(target, status, at)] && old(now) <= at == now
    {
      if handler == null {
        status := Any();
      } else {
        status := handler.GetTargetStatus(target);
      }
      Delay();
      at := now;
      Log(Checked(target, status, at));
    }

    method LookupHost(target: string) returns (answer: Result<seq<SocketAddr>>, ghost waited: Instant)
      requires Valid()
      modifies this
      ensures Valid() && log == old(log) + [Resolved(target, answer, waited, now)] && old(now) + waited <= now
    {
      answer := Any();
      var before := now;
      Delay();
      waited := now - before;
      Log(Resolved(target, answer, waited, now));
    }

    /** The connector raced against a timer: it loses when it needs longer than the limit. */
    method ConnectWithin(limit: nat, addr: SocketAddr) returns (dial: Dial, ghost waited: Instant)
      requires Valid()
      modifies this
      ensures Valid() && log == old(log) + [Dialed(addr, dial, waited, now)]
      ensures waited <= limit && old(now) + waited <= now && (dial.TimedOut? ==> waited == limit)
    {
      var needs: nat := Any();
      var answer: Result<Stream> := Any();
      dial := if needs > limit then TimedOut else if answer.Ok? then Connected(answer.value) else Refused(answer.error);
      var spent := if needs > limit then limit else needs;
      now := now + spent;
      waited := spent;
      Delay();
      Log(Dialed(addr, dial, waited, now));
    }

    /** The balancer ignores whether the handler knew the target. */
    method ReportConnectionAttempt(target: string, result: ConnectResult) returns (ghost first: Instant)
      requires Valid()
      modifies this, Cells()
      ensures Valid() && old(now) <= first <= now && log == old(log) + [Reported(target, result, first, now)]
    {
      Delay();
      var earlier := now;
      Delay();
      if handler != null {
        var ignored := handler.ReportConnectionAttempt(target, result, earlier, now);
      }
      first := earlier;
      Log(Reported(target, result, first, now));
    }
  }
}

/** Round-robin selection with deferred cooling targets (src/balancer/roundrobin.rs). */
module RoundRobin {
  import opened Types
  import opened Network
  import Configuration

  const CONNECT_TIMEOUT: nat := 5 * SECOND

  /** The number of values of `usize`; the per-port counter wraps there. */
  const USIZE_VALUES: nat := 0x1_0000_0000_0000_0000

  datatype ConnectAttempt = Ready(stream: Stream, addr: SocketAddr) | TryNext | Fatal(error: ProxyError)

  datatype Verdict = Missing | Drained | Cooling | Available

  function Judge(status: Result<BackendStatus>, at: Instant): Verdict {
    match status
    case Err(_) => Missing
    case Ok(Drain) => Drained
    case Ok(Alive(None)) => Available
    case Ok(Alive(Some(until))) => if until > at then Cooling else Available
  }

  // ---- What one attempt may look like ----

  ghost predicate Reports(e: Event, target: string, result: ConnectResult) {
    e.Reported? && e.target == target && e.result == result
  }

  /** Addresses are dialled in order, each within the time limit. */
  ghost predicate DialsInOrder(dials: seq<Event>, addrs: seq<SocketAddr>) {
    && |dials| <= |addrs|
    && forall k :: 0 <= k < |dials| ==>
         dials[k].Dialed? && dials[k].addr == addrs[k] && dials[k].waited <= CONNECT_TIMEOUT
  }

  ghost predicate NoneConnects(dials: seq<Event>) {
    forall k :: 0 <= k < |dials| ==> dials[k].Dialed? && !dials[k].dial.Connected?
  }

  /** The events and the outcome of one complete attempt on a target. */
  ghost predicate IsAttempt(target: string, events: seq<Event>, outcome: ConnectAttempt) {
    && |events| > 0 && events[0].Resolved? && events[0].target == target
    && var last := events[|events| - 1];
       match events[0].answer
       case Err(e) =>
         if e.DnsNxError? || e.DnsTransientError?
         then outcome == TryNext && |events| == 2 && Reports(last, target, Failure)
         else outcome == Fatal(e) && |events| == 1
       case Ok(addrs) =>
         |events| >= 2 && AddressesTried(target, addrs, events[1..|events| - 1], last, outcome)
  }

  /** The first address to connect in time wins; only if none does is the attempt a failure. */
  ghost predicate AddressesTried(target: string, addrs: seq<SocketAddr>, dials: seq<Event>, last: Event, outcome: ConnectAttempt) {
    && DialsInOrder(dials, addrs)
    && match outcome
       case Ready(stream, addr) =>
         && |dials| > 0 && NoneConnects(dials[..|dials| - 1])
         && addr == addrs[|dials| - 1] && dials[|dials| - 1].dial == Connected(stream)
         && Reports(last, target, Success)
       case TryNext => |dials| == |addrs| && NoneConnects(dials) && Reports(last, target, Failure)
       case Fatal(_) => false
  }

  /**
   What an attempt does with each answer of the resolver. No address for now or at all: a failure is
   reported and the next target is due. Any other error ends the call unreported. Addresses: dialled in
   order up to the first that connects within 5 s, which is reported as a success; if none does, all were
   dialled, a failure is reported and the next target is due.
   */
  ghost predicate IsAnswered(target: string, events: seq<Event>, outcome: ConnectAttempt) {
    && |events| > 0 && events[0].Resolved? && events[0].target == target
    && var last := events[|events| - 1];
       match events[0].answer
       case Err(DnsNxError) => |events| == 2 && Reports(last, target, Failure) && outcome == TryNext
       case Err(DnsTransientError) => |events| == 2 && Reports(last, target, Failure) && outcome == TryNext
       case Err(e) => |events| == 1 && outcome == Fatal(e)
       case Ok(addrs) =>
         var n := |events| - 2;
         && 0 <= n <= |addrs|
         && (forall j :: 1 <= j <= n ==>
               events[j].Dialed? && events[j].addr == addrs[j - 1] && events[j].waited <= 5 * SECOND)
         && (forall j :: 1 <= j < n ==> events[j].Dialed? && !events[j].dial.Connected?)
         && if n > 0 && events[n].Dialed? && events[n].dial.Connected?
            then Reports(last, target, Success) && outcome == Ready(events[n].dial.stream, addrs[n - 1])
            else n == |addrs| && Reports(last, target, Failure) && outcome == TryNext
  }

  lemma AttemptIsAnswered(target: string, events: seq<Event>, outcome: ConnectAttempt)
    requires IsAttempt(target, events, outcome)
    ensures IsAnswered(target, events, outcome)
  {
    if events[0].answer.Ok? {
      var dials := events[1..|events| - 1];
      assert forall j :: 1 <= j <= |dials| ==> events[j] == dials[j - 1];
      assert outcome.Ready? ==> forall k :: 0 <= k < |dials| - 1 ==> dials[..|dials| - 1][k] == dials[k];
    }
  }

  lemma DialAdded(target: string, addrs: seq<SocketAddr>, dials: seq<Event>, e: Event)
    requires DialsInOrder(dials, addrs) && NoneConnects(dials) && |dials| < |addrs|
    requires e.Dialed? && e.addr == addrs[|dials|] && e.waited <= CONNECT_TIMEOUT
    ensures DialsInOrder(dials + [e], addrs)
    ensures !e.dial.Connected? ==> NoneConnects(dials + [e])
    ensures e.dial.Connected? ==>
      forall report :: Reports(report, target, Success) ==>
        AddressesTried(target, addrs, dials + [e], report, Ready(e.dial.stream, e.addr))
  {
    assert (dials + [e])[..|dials|] == dials;
  }

  lemma AttemptOfDials(target: string, resolved: Event, dials: seq<Event>, report: Event, outcome: ConnectAttempt)
    requires resolved.Resolved? && resolved.target == target && resolved.answer.Ok?
    requires AddressesTried(target, resolved.answer.value, dials, report, outcome)
    ensures IsAttempt(target, [resolved] + dials + [report], outcome)
  {
    var events := [resolved] + dials + [report];
    assert events[1..|events| - 1] == dials;
  }

  // ---- What one call may look like ----

  datatype Attempt = Attempt(pos: nat, target: string, events: seq<Event>, outcome: ConnectAttempt)

  /** A pass-one stop at a pool position. */
  datatype Visit = Visit(pos: nat, target: string, status: Result<BackendStatus>, at: Instant, attempt: Option<Attempt>) {
    function Verdict(): Verdict { Judge(status, at) }
  }

  datatype Call = Call(first: seq<Visit>, second: seq<Attempt>)

  function VisitEvents(v: Visit): seq<Event> {
    [Checked(v.target, v.status, v.at)] + if v.attempt.Some? then v.attempt.value.events else []
  }

  function FirstEvents(first: seq<Visit>): seq<Event> {
    if first == [] then [] else FirstEvents(first[..|first| - 1]) + VisitEvents(first[|first| - 1])
  }

  function SecondEvents(second: seq<Attempt>): seq<Event> {
    if second == [] then [] else SecondEvents(second[..|second| - 1]) + second[|second| - 1].events
  }

  function CallEvents(call: Call): seq<Event> {
    FirstEvents(call.first) + SecondEvents(call.second)
  }

  /** The positions at which pass one observed a verdict, in visiting order. */
  function Observed(first: seq<Visit>, verdict: Verdict): seq<nat> {
    if first == [] then []
    else
      var v := first[|first| - 1];
      Observed(first[..|first| - 1], verdict) + if v.Verdict() == verdict then [v.pos] else []
  }

  function FirstAttempts(first: seq<Visit>): seq<Attempt> {
    if first == [] then []
    else
      var v := first[|first| - 1];
      FirstAttempts(first[..|first| - 1]) + if v.attempt.Some? then [v.attempt.value] else []
  }

  function Attempts(call: Call): seq<Attempt> {
    FirstAttempts(call.first) + call.second
  }

  ghost predicate IsAttemptAt(pool: seq<string>, a: Attempt, pos: nat) {
    pos < |pool| && a.pos == pos && a.target == pool[pos] && IsAttempt(a.target, a.events, a.outcome)
  }

  /** A position is attempted exactly when it was observed available. */
  ghost predicate IsVisit(pool: seq<string>, v: Visit, pos: nat) {
    && pos < |pool| && v.pos == pos && v.target == pool[pos]
    && (v.attempt.Some? <==> v.Verdict() == Available)
    && (v.attempt.Some? ==> IsAttemptAt(pool, v.attempt.value, v.pos))
  }

  /** The pool positions in the order a call starting at `start` visits them. */
  function Rotation(start: nat, n: nat): (order: seq<nat>)
    requires n > 0
    ensures |order| == n && forall k :: 0 <= k < n ==> order[k] == (start + k) % n
  {
    seq(n, k requires 0 <= k => (start + k) % n)
  }

  /** Visits follow the given order of the positions. */
  ghost predicate PassOne(pool: seq<string>, order: seq<nat>, first: seq<Visit>) {
    && |first| <= |order| == |pool|
    && forall k :: 0 <= k < |first| ==> IsVisit(pool, first[k], order[k])
  }

  /** Deferred attempts follow the positions observed cooling. */
  ghost predicate PassTwo(pool: seq<string>, deferred: seq<nat>, second: seq<Attempt>) {
    && |second| <= |deferred|
    && forall k :: 0 <= k < |second| ==> IsAttemptAt(pool, second[k], deferred[k])
  }

  ghost predicate AllTryNext(attempts: seq<Attempt>) {
    forall k :: 0 <= k < |attempts| ==> attempts[k].outcome == TryNext
  }

  ghost predicate NoneMissing(first: seq<Visit>) {
    forall k :: 0 <= k < |first| ==> first[k].Verdict() != Missing
  }

  type Answer = Result<(Stream, SocketAddr)>

  /** The answer of an attempt that ends the call. */
  function Answering(outcome: ConnectAttempt): Answer
    requires !outcome.TryNext?
  {
    match outcome
    case Ready(stream, addr) => Ok((stream, addr))
    case Fatal(error) => Err(error)
  }

  /** The call ended at a failed status check. */
  ghost predicate EndsAtCheck(call: Call, r: Answer) {
    && call.first != [] && call.second == [] && AllTryNext(Attempts(call))
    && var k := |call.first| - 1;
       NoneMissing(call.first[..k]) && call.first[k].status.Err? && r == Err(call.first[k].status.error)
  }

  /** The call ended at its last attempt, with nothing done after it. */
  ghost predicate EndsAtAttempt(pool: seq<string>, call: Call, r: Answer) {
    var attempts := Attempts(call);
    && NoneMissing(call.first) && attempts != []
    && AllTryNext(attempts[..|attempts| - 1])
    && !attempts[|attempts| - 1].outcome.TryNext? && r == Answering(attempts[|attempts| - 1].outcome)
    && (call.second == [] ==> call.first != [] && call.first[|call.first| - 1].attempt.Some?)
    && (call.second != [] ==> |call.first| == |pool|)
  }

  /** The call ran out of candidates. */
  ghost predicate EndsExhausted(pool: seq<string>, port: Port, call: Call, r: Answer) {
    && NoneMissing(call.first) && AllTryNext(Attempts(call))
    && |call.first| == |pool| && |call.second| == |Observed(call.first, Cooling)|
    && r == Err(ConnectionError(port))
  }

  ghost predicate Selects(pool: seq<string>, port: Port, order: seq<nat>, call: Call, r: Answer) {
    && PassOne(pool, order, call.first)
    && PassTwo(pool, Observed(call.first, Cooling), call.second)
    && (EndsAtCheck(call, r) || EndsAtAttempt(pool, call, r) || EndsExhausted(pool, port, call, r))
  }

  /** The buffer of deferred targets names the deferred positions. */
  ghost predicate Names(pool: seq<string>, positions: seq<nat>, targets: seq<string>) {
    && |positions| == |targets|
    && forall k :: 0 <= k < |positions| ==> positions[k] < |pool| && pool[positions[k]] == targets[k]
  }

  /** Pass one has gone on so far without ending the call. */
  ghost predicate Passing(pool: seq<string>, order: seq<nat>, first: seq<Visit>) {
    PassOne(pool, order, first) && NoneMissing(first) && AllTryNext(FirstAttempts(first))
  }

  lemma FirstPlus(first: seq<Visit>, v: Visit)
    ensures FirstEvents(first + [v]) == FirstEvents(first) + VisitEvents(v)
    ensures Observed(first + [v], Cooling) == Observed(first, Cooling) + if v.Verdict() == Cooling then [v.pos] else []
    ensures FirstAttempts(first + [v]) == FirstAttempts(first) + if v.attempt.Some? then [v.attempt.value] else []
  {
    assert (first + [v])[..|first|] == first;
  }

  lemma PassOnePlus(pool: seq<string>, order: seq<nat>, first: seq<Visit>, v: Visit)
    requires PassOne(pool, order, first) && |first| < |pool| && IsVisit(pool, v, order[|first|])
    ensures PassOne(pool, order, first + [v])
  {
    forall k | 0 <= k < |first + [v]| ensures IsVisit(pool, (first + [v])[k], order[k]) {
      if k < |first| {
        assert (first + [v])[k] == first[k];
      }
    }
  }

  lemma NamesPlus(pool: seq<string>, positions: seq<nat>, targets: seq<string>, pos: nat)
    requires Names(pool, positions, targets) && pos < |pool|
    ensures Names(pool, positions + [pos], targets + [pool[pos]])
  {}

  lemma NoneMissingPlus(first: seq<Visit>, v: Visit)
    requires NoneMissing(first) && v.Verdict() != Missing
    ensures NoneMissing(first + [v])
  {}

  lemma AllTryNextPlus(a: seq<Attempt>, b: seq<Attempt>)
    requires AllTryNext(a) && AllTryNext(b)
    ensures AllTryNext(a + b)
  {}

  lemma VisitAdded(pool: seq<string>, order: seq<nat>, first: seq<Visit>, v: Visit)
    requires Passing(pool, order, first) && |first| < |pool| && IsVisit(pool, v, order[|first|])
    requires v.Verdict() != Missing && (v.attempt.Some? ==> v.attempt.value.outcome == TryNext)
    ensures Passing(pool, order, first + [v])
  {
    FirstPlus(first, v);
    PassOnePlus(pool, order, first, v);
    NoneMissingPlus(first, v);
    AllTryNextPlus(FirstAttempts(first), if v.attempt.Some? then [v.attempt.value] else []);
  }

  /** The call ends at the visit just made. */
  lemma VisitEnds(pool: seq<string>, port: Port, order: seq<nat>, first: seq<Visit>, v: Visit, r: Answer)
    requires Passing(pool, order, first) && |first| < |pool| && IsVisit(pool, v, order[|first|])
    requires v.status.Err? ==> r == Err(v.status.error)
    requires v.status.Ok? ==> v.attempt.Some? && !v.attempt.value.outcome.TryNext? && r == Answering(v.attempt.value.outcome)
    ensures Selects(pool, port, order, Call(first + [v], []), r)
  {
    FirstPlus(first, v);
    var call := Call(first + [v], []);
    PassOnePlus(pool, order, first, v);
    assert call.first[..|first|] == first;
    if v.status.Err? {
      assert Attempts(call) == FirstAttempts(first);
      assert EndsAtCheck(call, r);
    } else {
      NoneMissingPlus(first, v);
      assert Attempts(call) == FirstAttempts(first) + [v.attempt.value];
      assert Attempts(call)[..|Attempts(call)| - 1] == FirstAttempts(first);
      assert EndsAtAttempt(pool, call, r);
    }
  }

  /** Pass two has gone on so far without ending the call. */
  ghost predicate Retrying(pool: seq<string>, order: seq<nat>, call: Call) {
    && Passing(pool, order, call.first) && |call.first| == |pool|
    && PassTwo(pool, Observed(call.first, Cooling), call.second) && AllTryNext(Attempts(call))
  }

  lemma PassTwoPlus(pool: seq<string>, deferred: seq<nat>, second: seq<Attempt>, a: Attempt)
    requires PassTwo(pool, deferred, second) && |second| < |deferred| && IsAttemptAt(pool, a, deferred[|second|])
    ensures PassTwo(pool, deferred, second + [a])
  {
    forall k | 0 <= k < |second + [a]| ensures IsAttemptAt(pool, (second + [a])[k], deferred[k]) {
      if k < |second| {
        assert (second + [a])[k] == second[k];
      }
    }
  }

  lemma SecondPlus(call: Call, a: Attempt)
    ensures CallEvents(call.(second := call.second + [a])) == CallEvents(call) + a.events
    ensures SecondEvents(call.second + [a]) == SecondEvents(call.second) + a.events
    ensures Attempts(call.(second := call.second + [a])) == Attempts(call) + [a]
  {
    assert (call.second + [a])[..|call.second|] == call.second;
  }

  lemma RetryAdded(pool: seq<string>, port: Port, order: seq<nat>, call: Call, a: Attempt)
    requires Retrying(pool, order, call) && |call.second| < |Observed(call.first, Cooling)|
    requires IsAttemptAt(pool, a, Observed(call.first, Cooling)[|call.second|])
    ensures SecondEvents(call.second + [a]) == SecondEvents(call.second) + a.events
    ensures var next := call.(second := call.second + [a]);
      && (a.outcome == TryNext ==> Retrying(pool, order, next))
      && (a.outcome != TryNext ==> Selects(pool, port, order, next, Answering(a.outcome)))
  {
    var next := call.(second := call.second + [a]);
    SecondPlus(call, a);
    PassTwoPlus(pool, Observed(call.first, Cooling), call.second, a);
    if a.outcome == TryNext {
      AllTryNextPlus(Attempts(call), [a]);
    } else {
      assert Attempts(next)[..|Attempts(next)| - 1] == Attempts(call);
      assert EndsAtAttempt(pool, next, Answering(a.outcome));
    }
  }

  lemma RetriesExhausted(pool: seq<string>, port: Port, order: seq<nat>, call: Call)
    requires Retrying(pool, order, call) && |call.second| == |Observed(call.first, Cooling)|
    ensures Selects(pool, port, order, call, Err(ConnectionError(port)))
  {
    assert EndsExhausted(pool, port, call, Err(ConnectionError(port)));
  }

  /** A call's draw: only a configured, non-empty pool with a counter consumes a ticket. */
  function Draw(config: Configuration.ProxyConfig, counters: map<Port, nat>, port: Port): map<Port, nat> {
    if Consumes(config, counters, port) then counters[port := (counters[port] + 1) % USIZE_VALUES] else counters
  }

  predicate Consumes(config: Configuration.ProxyConfig, counters: map<Port, nat>, port: Port) {
    config.GetPool(port).Some? && config.GetPool(port).value != [] && port in counters
  }

  /** The counters after calls on these ports, in this order. */
  function DrawAll(config: Configuration.ProxyConfig, counters: map<Port, nat>, calls: seq<Port>): map<Port, nat> {
    if calls == [] then counters
    else Draw(config, DrawAll(config, counters, calls[..|calls| - 1]), calls[|calls| - 1])
  }

  class RoundRobinBalancer {
    const config: Configuration.ProxyConfig
    var counters: map<Port, nat>

    ghost predicate Valid()
      reads this
    {
      forall p :: p in counters ==> counters[p] < USIZE_VALUES
    }

    constructor (config: Configuration.ProxyConfig)
      ensures this.config == config && Valid()
      ensures forall p :: p in counters <==> p in config.portToPool
      ensures forall p :: p in counters ==> counters[p] == 0
    {
      this.config := config;
      counters := map[];
      new;
      var ports := config.Ports();
      for i := 0 to |ports|
        invariant forall p :: p in counters <==> p in ports[..i]
        invariant forall p :: p in counters ==> counters[p] == 0
      {
        counters := counters[ports[i] := 0];
      }
      assert ports[..|ports|] == ports;
    }

    /** Try the addresses in order, each within the time limit, and report how it went. */
    method DialAddresses(env: Environment, target: string, addrs: seq<SocketAddr>)
      returns (r: ConnectAttempt, ghost dials: seq<Event>, ghost report: Event)
      requires env.Valid()
      modifies env, env.Cells()
      ensures env.Valid()
      ensures env.log == old(env.log) + dials + [report]
      ensures AddressesTried(target, addrs, dials, report, r)
    {
      dials := [];
      ghost var start := env.log;
      for i := 0 to |addrs|
        invariant |dials| == i && DialsInOrder(dials, addrs) && NoneConnects(dials)
        invariant env.Valid() && env.log == start + dials
      {
        var dial, spent := env.ConnectWithin(CONNECT_TIMEOUT, addrs[i]);
        ghost var dialed := Dialed(addrs[i], dial, spent, env.now);
        DialAdded(target, addrs, dials, dialed);
        dials := dials + [dialed];
        if dial.Connected? {
          ghost var first := env.ReportConnectionAttempt(target, Success);
          return Ready(dial.stream, addrs[i]), dials, Reported(target, Success, first, env.now);
        }
      }
      ghost var first := env.ReportConnectionAttempt(target, Failure);
      return TryNext, dials, Reported(target, Failure, first, env.now);
    }

    /** Resolve a target and dial what it resolves to. */
    method Connect(env: Environment, target: string) returns (r: ConnectAttempt, ghost events: seq<Event>)
      requires env.Valid()
      modifies env, env.Cells()
      ensures env.Valid()
      ensures env.log == old(env.log) + events
      ensures IsAttempt(target, events, r)
      ensures match events[0].answer
        case Err(DnsNxError) => r == TryNext && |events| == 2 && Reports(events[1], target, Failure)
        case Err(DnsTransientError) => r == TryNext && |events| == 2 && Reports(events[1], target, Failure)
        case Err(e) => r == Fatal(e) && |events| == 1
        case Ok(_) => !r.Fatal?
    {
      ghost var start := env.log;
      var answer, waited := env.LookupHost(target);
      ghost var resolved := Resolved(target, answer, waited, env.now);
      if answer.Err? {
        if answer.error.DnsNxError? || answer.error.DnsTransientError? {
          ghost var first := env.ReportConnectionAttempt(target, Failure);
          r, events := TryNext, [resolved, Reported(target, Failure, first, env.now)];
          assert env.log == start + events;
          return;
        }
        return Fatal(answer.error), [resolved];
      }
      ghost var dials, report;
      r, dials, report := DialAddresses(env, target, answer.value);
      events := [resolved] + dials + [report];
      assert env.log == start + events;
      AttemptOfDials(target, resolved, dials, report, r);
    }

    /** Check one pool position, and attempt it at once if it is available. */
    method VisitTarget(env: Environment, target: string, ghost pos: nat)
      returns (status: Result<BackendStatus>, at: Instant, attempt: Option<ConnectAttempt>, ghost v: Visit)
      requires env.Valid()
      modifies env, env.Cells()
      ensures env.Valid()
      ensures env.log == old(env.log) + VisitEvents(v)
      ensures v.pos == pos && v.target == target && v.status == status && v.at == at
      ensures attempt.Some? <==> v.Verdict() == Available
      ensures attempt.Some? <==>
        status.Ok? && status.value.Alive? && (status.value.coolUntil.None? || status.value.coolUntil.value <= at)
      ensures v.attempt.Some? <==> attempt.Some?
      ensures attempt.Some? ==> var a := v.attempt.value;
                                a.pos == pos && a.target == target && a.outcome == attempt.value
                                && IsAttempt(target, a.events, a.outcome)
    {
      status, at := env.GetTargetStatus(target);
      attempt, v := None, Visit(pos, target, status, at, None);
      if status.Err? || status.value.Drain? {
        return;
      }
      if status.value.coolUntil.Some? && status.value.coolUntil.value > at {
        return;
      }
      var outcome, events := Connect(env, target);
      attempt := Some(outcome);
      v := v.(attempt := Some(Attempt(pos, target, events, outcome)));
    }

    /** Visit the next position: skip it if drained, defer it if cooling, else attempt it. */
    method VisitNext(env: Environment, port: Port, backends: seq<string>, target: string, deferred: seq<string>,
                     ghost order: seq<nat>, ghost visited: seq<Visit>, ghost start: seq<Event>)
      returns (r: Option<Answer>, cooling: seq<string>, ghost first: seq<Visit>)
      requires Passing(backends, order, visited) && |visited| < |backends|
      requires order[|visited|] < |backends| && target == backends[order[|visited|]]
      requires Names(backends, Observed(visited, Cooling), deferred)
      requires env.log == start + FirstEvents(visited)
      requires env.Valid()
      modifies env, env.Cells()
      ensures env.Valid()
      ensures env.log == start + FirstEvents(first) && |first| == |visited| + 1
      ensures r.Some? ==> Selects(backends, port, order, Call(first, []), r.value)
      ensures r.None? ==> Passing(backends, order, first) && Names(backends, Observed(first, Cooling), cooling)
    {
      var status, at, attempt, visit := VisitTarget(env, target, order[|visited|]);
      cooling, first := deferred, visited + [visit];
      FirstPlus(visited, visit);
      assert env.log == start + (FirstEvents(visited) + VisitEvents(visit));
      if status.Err? || (attempt.Some? && !attempt.value.TryNext?) {
        r := Some(if status.Err? then Err(status.error) else Answering(attempt.value));
        VisitEnds(backends, port, order, visited, visit, r.value);
        return;
      }
      r := None;
      VisitAdded(backends, order, visited, visit);
      if attempt.None? && status.value.Alive? {
        NamesPlus(backends, Observed(visited, Cooling), deferred, order[|visited|]);
        cooling := deferred + [target];
      }
    }

    /** Pass one: the pool from the start position on, wrapping round. */
    method FirstPass(env: Environment, port: Port, backends: seq<string>, startIdx: nat, ghost order: seq<nat>)
      returns (r: Option<Answer>, cooling: seq<string>, ghost first: seq<Visit>)
      requires |backends| > 0 && order == Rotation(startIdx, |backends|)
      requires env.Valid()
      modifies env, env.Cells()
      ensures env.Valid()
      ensures env.log == old(env.log) + FirstEvents(first)
      ensures r.Some? ==> Selects(backends, port, order, Call(first, []), r.value)
      ensures r.None? ==> Passing(backends, order, first) && |first| == |backends|
      ensures r.None? ==> Names(backends, Observed(first, Cooling), cooling)
    {
      cooling, first := [], [];
      ghost var start := env.log;
      for i := 0 to |backends|
        invariant env.Valid() && env.log == start + FirstEvents(first)
        invariant |first| == i && Passing(backends, order, first)
        invariant Names(backends, Observed(first, Cooling), cooling)
      {
        var target := backends[(startIdx + i) % |backends|];
        r, cooling, first := VisitNext(env, port, backends, target, cooling, order, first, start);
        if r.Some? {
          return;
        }
      }
      r := None;
    }

    /** Attempt the next deferred target. */
    method RetryNext(env: Environment, port: Port, backends: seq<string>, target: string,
                     ghost order: seq<nat>, ghost call: Call, ghost start: seq<Event>)
      returns (attempt: ConnectAttempt, ghost next: Call)
      requires Retrying(backends, order, call) && |call.second| < |Observed(call.first, Cooling)|
      requires var pos := Observed(call.first, Cooling)[|call.second|]; pos < |backends| && target == backends[pos]
      requires env.Valid() && env.log == start + SecondEvents(call.second)
      modifies env, env.Cells()
      ensures env.Valid() && env.log == start + SecondEvents(next.second)
      ensures next.first == call.first && |next.second| == |call.second| + 1
      ensures attempt == TryNext ==> Retrying(backends, order, next)
      ensures attempt != TryNext ==> Selects(backends, port, order, next, Answering(attempt))
    {
      ghost var pos := Observed(call.first, Cooling)[|call.second|];
      ghost var events;
      attempt, events := Connect(env, target);
      ghost var retry := Attempt(pos, target, events, attempt);
      RetryAdded(backends, port, order, call, retry);
      assert env.log == start + (SecondEvents(call.second) + events);
      next := call.(second := call.second + [retry]);
    }

    /** Pass two: attempt the deferred targets in the order they were deferred. */
    method SecondPass(env: Environment, port: Port, backends: seq<string>, ghost order: seq<nat>,
                      cooling: seq<string>, ghost first: seq<Visit>)
      returns (r: Answer, ghost call: Call)
      requires Passing(backends, order, first) && |first| == |backends|
      requires Names(backends, Observed(first, Cooling), cooling)
      requires env.Valid()
      modifies env, env.Cells()
      ensures env.Valid()
      ensures call.first == first && env.log == old(env.log) + SecondEvents(call.second)
      ensures Selects(backends, port, order, call, r)
    {
      call := Call(first, []);
      ghost var start := env.log;
      for i := 0 to |cooling|
        invariant env.Valid() && env.log == start + SecondEvents(call.second)
        invariant call.first == first && |call.second| == i && Retrying(backends, order, call)
      {
        var attempt;
        attempt, call := RetryNext(env, port, backends, cooling[i], order, call, start);
        if !attempt.TryNext? {
          return Answering(attempt), call;
        }
      }
      RetriesExhausted(backends, port, order, call);
      r := Err(ConnectionError(port));
    }

    /** Calls on other connections draw their tickets; any number, on any ports. */
    method OthersDraw() returns (ghost others: seq<Port>)
      requires Valid()
      modifies this
      ensures Valid() && counters == DrawAll(config, old(counters), others)
    {
      var n: nat := Any();
      others := [];
      for i := 0 to n
        invariant Valid() && counters == DrawAll(config, old(counters), others)
      {
        var port: Port := Any();
        assert (others + [port])[..|others|] == others;
        others := others + [port];
        counters := Draw(config, counters, port);
      }
    }

    /** `ticket` is what this call drew, `others` the ports on which other calls have drawn since. */
    method ConnectBackend(env: Environment, port: Port)
      returns (r: Answer, ghost ticket: nat, ghost others: seq<Port>, ghost call: Call)
      requires Valid() && env.Valid()
      modifies this, env, env.Cells()
      ensures Valid() && env.Valid()
      ensures counters == DrawAll(config, Draw(config, old(counters), port), others)
      ensures config.GetPool(port).None? || config.GetPool(port).value == [] ==>
        r == Err(TargetResolutionError(port)) && env.log == old(env.log) && counters == old(counters)
      ensures config.GetPool(port).Some? && config.GetPool(port).value != [] && port !in old(counters) ==>
        r == Err(ProxyStateError(port)) && env.log == old(env.log) && counters == old(counters)
      ensures config.GetPool(port).Some? && config.GetPool(port).value != [] && port in old(counters) ==>
        var pool := config.GetPool(port).value;
        && ticket == old(counters)[port]
        && Draw(config, old(counters), port) == old(counters)[port := (ticket + 1) % 0x1_0000_0000_0000_0000]
        && Selects(pool, port, Rotation(ticket % |pool|, |pool|), call, r)
        && env.log == old(env.log) + CallEvents(call)
      ensures config.GetPool(port).Some? && config.GetPool(port).value != [] && port in old(counters) && env.handler != null ==>
        var t := old(env.handler.targets.targetStatus);
        Faithful(t, CallEvents(call)) && env.handler.targets.targetStatus == Replay(t, CallEvents(call))
    {
      ghost var before := env.log;
      ticket, others, call := 0, [], Call([], []);
      var found := config.GetPool(port);
      if found.None? {
        return Err(TargetResolutionError(port)), ticket, others, call;
      }
      var backends := found.value;
      if backends == [] {
        return Err(TargetResolutionError(port)), ticket, others, call;
      }
      if port !in counters {
        return Err(ProxyStateError(port)), ticket, others, call;
      }
      ticket := counters[port];
      var startIdx := counters[port] % |backends|;
      counters := counters[port := (counters[port] + 1) % USIZE_VALUES];
      others := OthersDraw();
      r, call := Select(env, port, backends, startIdx);
      if env.handler != null {
        FaithfulSuffix(env.start, before, CallEvents(call));
      }
    }

    /** The two passes over the pool. */
    method Select(env: Environment, port: Port, backends: seq<string>, startIdx: nat) returns (r: Answer, ghost call: Call)
      requires env.Valid() && |backends| > 0
      modifies env, env.Cells()
      ensures env.Valid() && env.log == old(env.log) + CallEvents(call)
      ensures Selects(backends, port, Rotation(startIdx, |backends|), call, r)
    {
      ghost var order, start := Rotation(startIdx, |backends|), env.log;
      var early, cooling, first := FirstPass(env, port, backends, startIdx, order);
      if early.Some? {
        call := Call(first, []);
        assert CallEvents(call) == FirstEvents(first);
        return early.value, call;
      }
      r, call := SecondPass(env, port, backends, order, cooling, first);
      assert env.log == start + (FirstEvents(first) + SecondEvents(call.second));
    }
  }
}
