/**
 Runs given stage by stage: each stage a state and the step taken from it.
 */
module AsyncRuns {
  import opened Core
  import opened AsyncQueue

  lemma ExecSnoc(init: State, steps: seq<Step>, step: Step)
    requires Exec(init, steps).Some? && Enabled(Exec(init, steps).value, step)
    ensures Exec(init, steps + [step]) == Some(Apply(Exec(init, steps).value, step))
  {
    assert (steps + [step])[..|steps + [step]| - 1] == steps;
  }

  datatype Stage = Stage(state: State, step: Step)

  /** The step of the first stage is enabled and leads to the second. */
  predicate Leads(a: Stage, b: Stage) {
    Enabled(a.state, a.step) && Apply(a.state, a.step) == b.state
  }

  predicate Chain(stages: seq<Stage>) {
    forall i | 0 <= i < |stages| - 1 :: Leads(stages[i], stages[i + 1])
  }

  /** The steps that lead to stage n. */
  function Before(stages: seq<Stage>, n: nat): seq<Step>
    requires n <= |stages|
  {
    if n == 0 then [] else Before(stages, n - 1) + [stages[n - 1].step]
  }

  lemma {:induction false} ChainReaches(stages: seq<Stage>, n: nat)
    requires n < |stages| && Init(stages[0].state) && Chain(stages)
    ensures Reaches(stages[0].state, Before(stages, n), stages[n].state)
  {
    hide Enabled, Apply, Init;
    if n > 0 {
      ChainReaches(stages, n - 1);
      assert Leads(stages[n - 1], stages[n - 1 + 1]);
      ExecSnoc(stages[0].state, Before(stages, n - 1), stages[n - 1].step);
    }
  }

  lemma SameState(a: State, b: State)
    requires |a.handlers| == |b.handlers| && forall i | 0 <= i < |a.handlers| :: a.handlers[i] == b.handlers[i]
    requires |a.threads| == |b.threads| && forall i | 0 <= i < |a.threads| :: a.threads[i] == b.threads[i]
    requires a.heap == b.heap && a.pool == b.pool
    ensures a == b
  {
    assert a.handlers == b.handlers && a.threads == b.threads;
  }
}
