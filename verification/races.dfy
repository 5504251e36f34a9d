/**
 The cooldown handler under interleaving. A report loads the status, reads the clock and stores in
 separate steps; reports, drains and the clock may interleave in any way
 (src/balancer/simplecooldownhandler.rs, src/state.rs).
 */
module CooldownRaces {
  import opened Types
  import Cooldown

  /** A report that has loaded an `Alive` status and has not stored or returned yet. */
  datatype Pending =
    | Loaded(target: string, result: ConnectResult, coolUntil: Option<Instant>)
    | Clocked(target: string, result: ConnectResult, coolUntil: Option<Instant>, now: Instant)
    | Storing(target: string, until: Instant)

  datatype Table = Table(cells: map<string, BackendStatus>, clock: Instant, pending: map<nat, Pending>, nextId: nat)

  datatype Step =
    | Tick(time: Instant)
    | Load(target: string, result: ConnectResult)
    | ReadNow(id: nat)    // the `now` of every report
    | ReadLater(id: nat)  // the second read, inside a failure's new deadline
    | Store(id: nat)
    | Leave(id: nat)      // return without storing
    | StoreDrain(target: string)

  ghost predicate Initial(s: Table) {
    s.pending == map[] && forall t :: t in s.cells ==> s.cells[t] == Alive(None)
  }

  /** A clocked success that found its target still cooling is about to clear the cooldown. */
  predicate Clears(p: Pending) {
    p.Clocked? && p.result == Success && p.coolUntil.Some? && p.coolUntil.value > p.now
  }

  predicate Enabled(s: Table, step: Step) {
    match step
    case Tick(_) => true
    case Load(target, _) => target in s.cells
    case ReadNow(id) => id in s.pending && s.pending[id].Loaded?
    case ReadLater(id) => id in s.pending && s.pending[id].Clocked? && s.pending[id].result == Failure
    case Store(id) => id in s.pending && (s.pending[id].Storing? || Clears(s.pending[id]))
    case Leave(id) => id in s.pending && s.pending[id].Clocked? && s.pending[id].result == Success && !Clears(s.pending[id])
    case StoreDrain(target) => target in s.cells
  }

  function Apply(s: Table, step: Step): Table
    requires Enabled(s, step)
  {
    match step
    case Tick(time) => s.(clock := s.clock + time)
    case Load(target, result) =>
      var next := s.(nextId := s.nextId + 1);
      if s.cells[target].Drain? then next
      else next.(pending := s.pending[s.nextId := Loaded(target, result, s.cells[target].coolUntil)])
    case ReadNow(id) =>
      var p := s.pending[id];
      s.(pending := s.pending[id := Clocked(p.target, p.result, p.coolUntil, s.clock)])
    case ReadLater(id) => s.(pending := s.pending[id := Storing(s.pending[id].target, s.clock + Cooldown.COOLDOWN)])
    case Store(id) =>
      var p := s.pending[id];
      s.(pending := s.pending - {id},
         cells := s.cells[p.target := Alive(if p.Storing? then Some(p.until) else None)])
    case Leave(id) => s.(pending := s.pending - {id})
    case StoreDrain(target) => s.(cells := s.cells[target := Drain])
  }

  ghost predicate IsRun(states: seq<Table>, steps: seq<Step>) {
    && |states| == |steps| + 1
    && forall i :: 0 <= i < |steps| ==> Enabled(states[i], steps[i]) && states[i + 1] == Apply(states[i], steps[i])
  }

  /** The steps of one report that nothing interrupts; `wait` passes between its clock reads. */
  function Uninterrupted(s: Table, target: string, result: ConnectResult, wait: Instant): seq<Step>
    requires target in s.cells
  {
    var id := s.nextId;
    match s.cells[target]
    case Drain => [Load(target, result), Tick(wait)]
    case Alive(coolUntil) =>
      if result == Failure then [Load(target, result), ReadNow(id), Tick(wait), ReadLater(id), Store(id)]
      else if coolUntil.Some? && coolUntil.value > s.clock then [Load(target, result), ReadNow(id), Tick(wait), Store(id)]
      else [Load(target, result), ReadNow(id), Tick(wait), Leave(id)]
  }

  /** The table the sequential handler leaves after a report with these two clock reads. */
  function Reported(s: Table, target: string, result: ConnectResult, wait: Instant): Table
    requires target in s.cells
  {
    Table(s.cells[target := Cooldown.AfterReport(s.cells[target], result, s.clock, s.clock + wait)],
          s.clock + wait, s.pending, s.nextId + 1)
  }

  /** Without interleaving the separate steps add up to the sequential handler's report. */
  lemma UninterruptedIsSequential(s: Table, target: string, result: ConnectResult, wait: Instant)
    returns (states: seq<Table>)
    requires target in s.cells && s.nextId !in s.pending
    ensures IsRun(states, Uninterrupted(s, target, result, wait))
    ensures states[0] == s && states[|states| - 1] == Reported(s, target, result, wait)
  {
    var steps := Uninterrupted(s, target, result, wait);
    assert s.cells[target := s.cells[target]] == s.cells;
    var s1 := Apply(s, steps[0]);
    var s2 := Apply(s1, steps[1]);
    states := [s, s1, s2];
    if s.cells[target].Alive? {
      if result == Failure {
        states := states + FailureEnds(s2, s.nextId, wait);
      } else {
        states := states + SuccessEnds(s2, s.nextId, wait);
      }
      assert states[|states| - 1].pending == s.pending;
    }
  }

  /** The states after the first clock read of an uninterrupted failure. */
  function FailureEnds(s: Table, id: nat, wait: Instant): seq<Table>
    requires Enabled(s, ReadLater(id))
  {
    var s3 := Apply(s, Tick(wait));
    var s4 := Apply(s3, ReadLater(id));
    [s3, s4, Apply(s4, Store(id))]
  }

  function SuccessEnds(s: Table, id: nat, wait: Instant): seq<Table>
    requires id in s.pending && s.pending[id].Clocked? && s.pending[id].result == Success
  {
    var s3 := Apply(s, Tick(wait));
    [s3, Apply(s3, if Clears(s.pending[id]) then Store(id) else Leave(id))]
  }

  // ---- What a report stores, and what a cell holds ----

  /**
   The history of report `id`, pending in state k: it loaded the status in step l, read the clock in step
   n, and, about to store a failure, read it again in step m.
   */
  ghost predicate IsHistory(states: seq<Table>, steps: seq<Step>, k: nat, id: nat, l: nat, n: nat, m: nat)
    requires IsRun(states, steps) && k < |states| && id in states[k].pending
  {
    var p := states[k].pending[id];
    && l < k && steps[l].Load? && steps[l].target == p.target && states[l].nextId == id
    && p.target in states[l].cells && states[l].cells[p.target].Alive?
    && (!p.Storing? ==> p.result == steps[l].result && p.coolUntil == states[l].cells[p.target].coolUntil)
    && (!p.Loaded? ==> l < n < k && steps[n] == ReadNow(id))
    && (p.Clocked? ==> p.now == states[n].clock)
    && (p.Storing? ==> n < m < k && steps[m] == ReadLater(id) && steps[l].result == Failure
                       && p.until == states[m].clock + 120 * SECOND)
  }

  lemma {:induction false} PendingHasHistory(states: seq<Table>, steps: seq<Step>, k: nat, id: nat)
    returns (l: nat, n: nat, m: nat)
    requires IsRun(states, steps) && Initial(states[0]) && k < |states| && id in states[k].pending
    ensures IsHistory(states, steps, k, id, l, n, m)
  {
    PendingStaysBounded(states, steps, k - 1);
    var before, step := states[k - 1], steps[k - 1];
    assert Enabled(before, step) && states[k] == Apply(before, step);
    l, n, m := k - 1, k - 1, k - 1;
    if id in before.pending {
      l, n, m := PendingHasHistory(states, steps, k - 1, id);
      if step == ReadNow(id) {
        n := k - 1;
      } else if step == ReadLater(id) {
        m := k - 1;
      }
    }
  }

  /**
   Whatever happens in between, a report stores by what it loaded and what the clock showed: a failure
   always, 120 s after its second read; a success only where it had loaded a cooldown not yet over.
   */
  lemma StoreGoesByLoad(states: seq<Table>, steps: seq<Step>, j: nat, id: nat) returns (l: nat, n: nat, m: nat)
    requires IsRun(states, steps) && Initial(states[0]) && j < |steps| && steps[j] == Store(id)
    ensures l < n < j && steps[l].Load? && states[l].nextId == id && steps[n] == ReadNow(id)
    ensures var target := steps[l].target;
      && target in states[l].cells && states[l].cells[target].Alive?
      && if steps[l].result == Failure
         then n < m < j && steps[m] == ReadLater(id)
              && states[j + 1].cells == states[j].cells[target := Alive(Some(states[m].clock + 120 * SECOND))]
         else states[l].cells[target].coolUntil.Some? && states[l].cells[target].coolUntil.value > states[n].clock
              && states[j + 1].cells == states[j].cells[target := Alive(None)]
  {
    assert Enabled(states[j], steps[j]) && states[j + 1] == Apply(states[j], steps[j]);
    l, n, m := PendingHasHistory(states, steps, j, id);
  }

  /** And it leaves without storing only as a success that loaded no cooldown, or one already over. */
  lemma LeaveGoesByLoad(states: seq<Table>, steps: seq<Step>, j: nat, id: nat) returns (l: nat, n: nat)
    requires IsRun(states, steps) && Initial(states[0]) && j < |steps| && steps[j] == Leave(id)
    ensures l < n < j && steps[l].Load? && states[l].nextId == id && steps[n] == ReadNow(id)
    ensures var target := steps[l].target;
      && target in states[l].cells && states[l].cells[target].Alive? && steps[l].result == Success
      && (states[l].cells[target].coolUntil.None? || states[l].cells[target].coolUntil.value <= states[n].clock)
      && states[j + 1].cells == states[j].cells
  {
    assert Enabled(states[j], steps[j]) && states[j + 1] == Apply(states[j], steps[j]);
    var m;
    l, n, m := PendingHasHistory(states, steps, j, id);
  }

  /** Step j stores on the target, as a report or as a drain. */
  ghost predicate StoresOn(states: seq<Table>, steps: seq<Step>, j: nat, target: string)
    requires IsRun(states, steps) && j < |steps|
  {
    steps[j] == StoreDrain(target) || (steps[j].Store? && states[j].pending[steps[j].id].target == target)
  }

  /** A cell nobody stores on keeps what it holds: nothing else changes it, not even time. */
  lemma {:induction false} UnstoredKeeps(states: seq<Table>, steps: seq<Step>, i: nat, k: nat, target: string)
    requires IsRun(states, steps) && i <= k < |states| && target in states[i].cells
    requires forall j :: i <= j < k ==> !StoresOn(states, steps, j, target)
    ensures target in states[k].cells && states[k].cells[target] == states[i].cells[target]
    decreases k - i
  {
    if i < k {
      UnstoredKeeps(states, steps, i, k - 1, target);
      assert Enabled(states[k - 1], steps[k - 1]) && states[k] == Apply(states[k - 1], steps[k - 1]);
      assert !StoresOn(states, steps, k - 1, target);
    }
  }

  /**
   The last store wins: a cell holds what the last drain or report stored there, and if there was none
   it is as it was initially. Reports that load, wait or leave in between make no difference.
   */
  lemma LastStoreWins(states: seq<Table>, steps: seq<Step>, j: nat, k: nat, target: string)
    returns (l: nat, n: nat, m: nat)
    requires IsRun(states, steps) && Initial(states[0]) && j < k < |states| && target in states[0].cells
    requires StoresOn(states, steps, j, target)
    requires forall i :: j < i < k ==> !StoresOn(states, steps, i, target)
    ensures target in states[k].cells
    ensures steps[j] == StoreDrain(target) ==> states[k].cells[target] == Drain
    ensures steps[j] != StoreDrain(target) ==>
      && l < n < j && steps[l].Load? && steps[l].target == target
      && steps[j] == Store(states[l].nextId) && steps[n] == ReadNow(states[l].nextId)
      && if steps[l].result == Failure
         then n < m < j && steps[m] == ReadLater(states[l].nextId)
              && states[k].cells[target] == Alive(Some(states[m].clock + 120 * SECOND))
         else states[k].cells[target] == Alive(None)
  {
    assert Enabled(states[j], steps[j]) && states[j + 1] == Apply(states[j], steps[j]);
    PendingStaysBounded(states, steps, j);
    l, n, m := 0, 0, 0;
    if steps[j] != StoreDrain(target) {
      l, n, m := PendingHasHistory(states, steps, j, steps[j].id);
    }
    UnstoredKeeps(states, steps, j + 1, k, target);
  }

  // ---- Cooldowns stay bounded ----

  /** Step i stores a failure's cooldown on the target. */
  ghost predicate StoresFailure(states: seq<Table>, steps: seq<Step>, i: nat, target: string)
    requires IsRun(states, steps)
  {
    i < |steps| && steps[i].Store? && states[i].pending[steps[i].id].Storing?
    && states[i].pending[steps[i].id].target == target
  }

  ghost predicate PendingBounded(s: Table) {
    && (forall id :: id in s.pending ==> id < s.nextId && s.pending[id].target in s.cells)
    && (forall id :: id in s.pending && s.pending[id].Storing? ==> s.pending[id].until <= s.clock + Cooldown.COOLDOWN)
  }

  lemma {:induction false} PendingStaysBounded(states: seq<Table>, steps: seq<Step>, k: nat)
    requires IsRun(states, steps) && k < |states| && PendingBounded(states[0])
    ensures PendingBounded(states[k]) && states[k].cells.Keys == states[0].cells.Keys
  {
    if k > 0 {
      PendingStaysBounded(states, steps, k - 1);
      assert states[k] == Apply(states[k - 1], steps[k - 1]);
    }
  }

  /** Every stored deadline was put there by a failure store, at most 120 s before it. */
  lemma {:induction false} DeadlineHasStore(states: seq<Table>, steps: seq<Step>, k: nat, target: string)
    requires IsRun(states, steps) && Initial(states[0]) && k < |states|
    requires target in states[k].cells && states[k].cells[target].Alive? && states[k].cells[target].coolUntil.Some?
    ensures exists j :: 0 <= j < k && StoresFailure(states, steps, j, target)
                        && states[k].cells[target].coolUntil.value <= states[j].clock + 120 * SECOND
                        && states[j].clock <= states[k].clock
  {
    var before, step := states[k - 1], steps[k - 1];
    assert Enabled(before, step) && states[k] == Apply(before, step);
    PendingStaysBounded(states, steps, k - 1);
    if before.cells == states[k].cells || before.cells[target] == states[k].cells[target] {
      DeadlineHasStore(states, steps, k - 1, target);
    } else {
      assert StoresFailure(states, steps, k - 1, target);
    }
  }

  /** A target seen cooling had a failure stored on it within the last 120 s. */
  lemma CoolingMeansRecentFailure(states: seq<Table>, steps: seq<Step>, k: nat, target: string)
    requires IsRun(states, steps) && Initial(states[0]) && k < |states| && target in states[k].cells
    requires Cooldown.HealthAt(states[k].cells[target], states[k].clock).Cooling?
    ensures Cooldown.HealthAt(states[k].cells[target], states[k].clock).remaining <= 120 * SECOND
    ensures exists j :: 0 <= j < k && StoresFailure(states, steps, j, target)
                        && states[k].clock < states[j].clock + 120 * SECOND
  {
    DeadlineHasStore(states, steps, k, target);
  }

  // ---- When a drain is durable ----

  /** This report can still store over the target's cell. */
  predicate CanOverwrite(s: Table, p: Pending, target: string) {
    p.target == target &&
    match p
    case Loaded(_, Failure, _) => true
    case Loaded(_, Success, coolUntil) => coolUntil.Some? && coolUntil.value > s.clock
    case Clocked(_, Failure, _, _) => true
    case Clocked(_, Success, coolUntil, now) => coolUntil.Some? && coolUntil.value > now
    case Storing(_, _) => true
  }

  ghost predicate Overwritable(s: Table, target: string) {
    exists id :: id in s.pending && CanOverwrite(s, s.pending[id], target)
  }

  ghost predicate IsDrained(s: Table, target: string) {
    target in s.cells && s.cells[target] == Drain
  }

  /** The target stays drained in every state of every continuation. */
  ghost predicate Durable(s: Table, target: string) {
    forall states, steps, k :: IsRun(states, steps) && states[0] == s && 0 <= k < |states| ==> IsDrained(states[k], target)
  }

  lemma {:induction false} NoOverwriterKeepsDrain(states: seq<Table>, steps: seq<Step>, target: string, k: nat)
    requires IsRun(states, steps) && IsDrained(states[0], target) && !Overwritable(states[0], target) && k < |states|
    ensures IsDrained(states[k], target) && !Overwritable(states[k], target)
  {
    if k > 0 {
      NoOverwriterKeepsDrain(states, steps, target, k - 1);
      var before, step := states[k - 1], steps[k - 1];
      assert Enabled(before, step) && states[k] == Apply(before, step);
      forall id | id in states[k].pending && CanOverwrite(states[k], states[k].pending[id], target)
        ensures false
      {
        assert id in before.pending && CanOverwrite(before, before.pending[id], target);
      }
    }
  }

  /** Steps that let the report with this id finish at once. */
  function Finish(s: Table, id: nat): seq<Step>
    requires id in s.pending
  {
    match s.pending[id]
    case Loaded(_, Failure, _) => [ReadNow(id), ReadLater(id), Store(id)]
    case Loaded(_, Success, coolUntil) =>
      [ReadNow(id), if coolUntil.Some? && coolUntil.value > s.clock then Store(id) else Leave(id)]
    case Clocked(_, Failure, _, _) => [ReadLater(id), Store(id)]
    case Clocked(_, Success, _, _) => [if Clears(s.pending[id]) then Store(id) else Leave(id)]
    case Storing(_, _) => [Store(id)]
  }

  /** What the report stores if it does so at once. */
  function WouldStore(s: Table, p: Pending): BackendStatus {
    if p.Storing? then Alive(Some(p.until))
    else if p.result == Failure then Alive(Some(s.clock + 120 * SECOND))
    else Alive(None)
  }

  /**
   Whatever the others have done or are about to do, a pending report can finish: it stores if it can
   still overwrite, in whatever state the cell is, and otherwise leaves all cells alone.
   */
  lemma ReportCanFinish(s: Table, id: nat) returns (states: seq<Table>)
    requires id in s.pending
    ensures IsRun(states, Finish(s, id)) && states[0] == s
    ensures var p, end := s.pending[id], states[|states| - 1];
      && end.pending == s.pending - {id} && end.clock == s.clock
      && end.cells == if CanOverwrite(s, p, p.target) then s.cells[p.target := WouldStore(s, p)] else s.cells
  {
    var steps := Finish(s, id);
    var s1 := Apply(s, steps[0]);
    states := [s, s1];
    if |steps| > 1 {
      var s2 := Apply(s1, steps[1]);
      states := [s, s1, s2];
      if |steps| > 2 {
        var s3 := Apply(s2, steps[2]);
        states := [s, s1, s2, s3];
      }
    }
    assert states[|states| - 1].pending == s.pending - {id};
  }

  lemma OverwriterUndoesDrain(s: Table, target: string, id: nat) returns (states: seq<Table>)
    requires id in s.pending && CanOverwrite(s, s.pending[id], target)
    ensures IsRun(states, Finish(s, id)) && states[0] == s
    ensures !IsDrained(states[|states| - 1], target)
  {
    states := ReportCanFinish(s, id);
  }

  /** A drain lasts forever exactly when no report on the target is poised to store. */
  lemma DrainDurableIff(s: Table, target: string)
    requires IsDrained(s, target)
    ensures Durable(s, target) <==> !Overwritable(s, target)
  {
    if Overwritable(s, target) {
      var id :| id in s.pending && CanOverwrite(s, s.pending[id], target);
      var states := OverwriterUndoesDrain(s, target, id);
      assert IsRun(states, Finish(s, id)) && !IsDrained(states[|states| - 1], target);
    } else {
      forall states, steps, k | IsRun(states, steps) && states[0] == s && 0 <= k < |states|
        ensures IsDrained(states[k], target)
      {
        NoOverwriterKeepsDrain(states, steps, target, k);
      }
    }
  }

  /** A report pending at k was begun by an earlier load, and has been pending ever since. */
  lemma {:induction false} PendingWasLoaded(states: seq<Table>, steps: seq<Step>, k: nat, id: nat) returns (l: nat)
    requires IsRun(states, steps) && Initial(states[0]) && k < |states| && id in states[k].pending
    ensures l < k && steps[l].Load? && steps[l].target == states[k].pending[id].target && states[l].nextId == id
    ensures forall m :: l < m <= k ==> id in states[m].pending
  {
    PendingStaysBounded(states, steps, k - 1);
    assert states[k] == Apply(states[k - 1], steps[k - 1]);
    if id in states[k - 1].pending {
      l := PendingWasLoaded(states, steps, k - 1, id);
    } else {
      l := k - 1;
    }
  }

  /** If a drain stored at step d is gone at k, some report loaded before d and stored after it. */
  lemma LostDrainHasRacer(states: seq<Table>, steps: seq<Step>, d: nat, k: nat, target: string)
    returns (l: nat, j: nat)
    requires IsRun(states, steps) && Initial(states[0]) && d < k < |states|
    requires steps[d] == StoreDrain(target) && !IsDrained(states[k], target)
    ensures l < d < j < k
    ensures steps[l].Load? && steps[l].target == target && steps[j] == Store(states[l].nextId)
    ensures forall m :: l < m <= j ==> states[l].nextId in states[m].pending
  {
    assert states[d + 1] == Apply(states[d], steps[d]);
    j := d + 1;
    while IsDrained(states[j + 1], target)
      invariant d < j < k
      invariant forall m :: d < m <= j ==> IsDrained(states[m], target)
      decreases k - j
    {
      j := j + 1;
    }
    assert Enabled(states[j], steps[j]) && states[j + 1] == Apply(states[j], steps[j]);
    var id := steps[j].id;
    l := PendingWasLoaded(states, steps, j, id);
    assert states[l + 1] == Apply(states[l], steps[l]);
    if l > d {
      PendingStaysBounded(states, steps, l);
      assert false;
    }
  }
}
