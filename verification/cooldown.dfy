/** The constant-time cooldown handler, run without interleaving (src/balancer/simplecooldownhandler.rs). */
module Cooldown {
  import opened Types
  import Configuration

  const COOLDOWN: nat := 120 * SECOND

  /** The status a report leaves behind; `now` and `later` are its two clock reads. */
  function AfterReport(status: BackendStatus, result: ConnectResult, now: Instant, later: Instant): BackendStatus {
    match status
    case Drain => Drain
    case Alive(coolUntil) =>
      if result == Failure then Alive(Some(later + COOLDOWN))
      else if coolUntil.Some? && coolUntil.value > now then Alive(None)
      else status
  }

  class SimpleCooldownHandler {
    const targets: Configuration.TargetState

    constructor (targets: Configuration.TargetState)
      ensures this.targets == targets
    {
      this.targets := targets;
    }

    function GetTargetStatus(target: string): Result<BackendStatus>
      reads targets
    {
      targets.GetTargetStatus(target)
    }

    method ReportConnectionAttempt(target: string, result: ConnectResult, now: Instant, later: Instant)
      returns (r: Result<Unit>)
      requires now <= later
      modifies targets
      ensures target !in old(targets.targetStatus) ==>
                r == Err(BackendNotFound(target)) && targets.targetStatus == old(targets.targetStatus)
      ensures target in old(targets.targetStatus) ==>
                r.Ok? && targets.targetStatus ==
                         old(targets.targetStatus)[target := AfterReport(old(targets.targetStatus)[target], result, now, later)]
    {
      var status := GetTargetStatus(target);
      if status.Err? {
        return Err(status.error);
      }
      if status.value.Drain? {
        return Ok(Unit.Unit);
      }
      if result == Failure {
        r := targets.UpdateTargetStatus(target, Alive(Some(later + COOLDOWN)));
        return;
      }
      if status.value.coolUntil.None? {
        return Ok(Unit.Unit);
      }
      if status.value.coolUntil.value > now {
        r := targets.UpdateTargetStatus(target, Alive(None));
        return;
      }
      r := Ok(Unit.Unit);
    }

    method DrainTarget(target: string) returns (r: Result<Unit>)
      modifies targets
      ensures target in old(targets.targetStatus) ==>
                r.Ok? && targets.targetStatus == old(targets.targetStatus)[target := Drain]
      ensures target !in old(targets.targetStatus) ==>
                r == Err(BackendNotFound(target)) && targets.targetStatus == old(targets.targetStatus)
    {
      r := targets.UpdateTargetStatus(target, Drain);
    }
  }

  // ---- The two-variant encoding against a machine with a real timer ----

  /** What a target is, to somebody watching it in real time. */
  datatype Health = Up | Cooling(remaining: Instant) | Drained

  /** Reading a stored status at an instant. */
  function HealthAt(status: BackendStatus, clock: Instant): Health {
    match status
    case Drain => Drained
    case Alive(None) => Up
    case Alive(Some(until)) => if until > clock then Cooling(until - clock) else Up
  }

  /** An operation on one target; a report takes `wait` between its two clock reads. */
  datatype Op = Pass(time: Instant) | Report(result: ConnectResult, wait: Instant) | DrainIt

  datatype Stored = Stored(status: BackendStatus, clock: Instant)

  /** The handler: expired cooldowns are never written back. */
  function LazyStep(s: Stored, op: Op): Stored {
    match op
    case Pass(time) => s.(clock := s.clock + time)
    case Report(result, wait) =>
      Stored(AfterReport(s.status, result, s.clock, s.clock + wait), s.clock + wait)
    case DrainIt => s.(status := Drain)
  }

  /** The timer machine: time itself flips a cooling target to up. */
  function Elapse(h: Health, time: Instant): Health {
    if h.Cooling? then if h.remaining > time then Cooling(h.remaining - time) else Up else h
  }

  function EagerStep(h: Health, op: Op): Health {
    match op
    case Pass(time) => Elapse(h, time)
    case Report(result, _) => if h.Drained? then Drained else if result == Failure then Cooling(COOLDOWN) else Up
    case DrainIt => Drained
  }

  function LazyRun(s: Stored, ops: seq<Op>): Stored
    decreases |ops|
  {
    if ops == [] then s else LazyRun(LazyStep(s, ops[0]), ops[1..])
  }

  function EagerRun(h: Health, ops: seq<Op>): Health
    decreases |ops|
  {
    if ops == [] then h else EagerRun(EagerStep(h, ops[0]), ops[1..])
  }

  /** Over every sequential run the handler is indistinguishable from the timer machine. */
  lemma {:induction false} LazyRefinesEager(s: Stored, ops: seq<Op>)
    ensures var end := LazyRun(s, ops); HealthAt(end.status, end.clock) == EagerRun(HealthAt(s.status, s.clock), ops)
    decreases |ops|
  {
    if ops != [] {
      LazyRefinesEager(LazyStep(s, ops[0]), ops[1..]);
    }
  }
}
