/** Runs from one state of the proxy to another, and how they compose. */
module Paths {
  import opened Admission
  import ConnectionPool
  import Runs = AdmissionRuns

  /**
   What a run has to respect. Skipping: connection c is live and has no permit before every step.
   Unaided: no connection task takes a step of its own; at most it is aborted.
   */
  datatype Rule = Skipping(c: ConnectionPool.Id) | Unaided

  /** Live, and still without a permit. */
  predicate IsUnserved(s: State, c: ConnectionPool.Id) {
    c in s.pool.tasks && !ConnectionPool.HasPermit(s.pool.tasks[c])
  }

  predicate Fits(rule: Rule, s: State, step: Step) {
    match rule
    case Skipping(c) => IsUnserved(s, c)
    case Unaided => !IsTaskStep(step) || step.AbortTask?
  }

  ghost predicate Links(rule: Rule, s: State, states: seq<State>, steps: seq<Step>, t: State) {
    && IsRun(states, steps) && states[0] == s && states[|steps|] == t
    && forall i :: 0 <= i < |steps| ==> Fits(rule, states[i], steps[i])
  }

  ghost predicate Path(rule: Rule, s: State, t: State) {
    exists states, steps :: Links(rule, s, states, steps, t)
  }

  lemma PathHere(rule: Rule, s: State)
    ensures Path(rule, s, s)
  {
    assert Links(rule, s, [s], [], s);
  }

  lemma PathThen(rule: Rule, s: State, step: Step, t: State)
    requires Enabled(s, step) && Fits(rule, s, step) && Path(rule, Apply(s, step), t)
    ensures Path(rule, s, t)
  {
    var states, steps :| Links(rule, Apply(s, step), states, steps, t);
    Runs.RunPrepend(s, step, states, steps);
    assert Links(rule, s, [s] + states, [step] + steps, t);
  }

  lemma {:induction false} LinksJoin(rule: Rule, s: State, states: seq<State>, steps: seq<Step>, t: State, u: State)
    requires Links(rule, s, states, steps, t) && Path(rule, t, u)
    ensures Path(rule, s, u)
    decreases |steps|
  {
    if steps != [] {
      assert StepAt(states, steps, 0);
      forall i | 0 <= i < |steps[1..]| ensures StepAt(states[1..], steps[1..], i) {
        assert StepAt(states, steps, i + 1);
      }
      LinksJoin(rule, states[1], states[1..], steps[1..], t, u);
      PathThen(rule, s, steps[0], u);
    }
  }

  lemma PathJoin(rule: Rule, s: State, t: State, u: State)
    requires Path(rule, s, t) && Path(rule, t, u)
    ensures Path(rule, s, u)
  {
    var states, steps :| Links(rule, s, states, steps, t);
    LinksJoin(rule, s, states, steps, t, u);
  }

  lemma PathStep(rule: Rule, s: State, step: Step)
    requires Enabled(s, step) && Fits(rule, s, step)
    ensures Path(rule, s, Apply(s, step))
  {
    PathHere(rule, Apply(s, step));
    PathThen(rule, s, step, Apply(s, step));
  }
}
