/** Runs of a transition system, and the induction that every safety result rests on. */
module Runs {
  // The states a run goes through and the steps between them.
  datatype Run<S, T> = Run(states: seq<S>, steps: seq<T>) {
    ghost predicate Valid() {
      |states| == |steps| + 1
    }

    function Last(): S
      requires states != []
    {
      states[|states| - 1]
    }
  }

  /** The run takes only steps of the relation between the i-th and the j-th state. */
  ghost predicate StepsBetween<S(!new), T(!new)>(run: Run<S, T>, rel: (S, T, S) -> bool, i: nat, j: nat)
    requires run.Valid() && i <= j <= |run.steps|
  {
    forall k | i <= k < j :: rel(run.states[k], run.steps[k], run.states[k + 1])
  }

  /** The run starts in an initial state and takes only steps of the relation. */
  ghost predicate Follows<S(!new), T(!new)>(run: Run<S, T>, init: S -> bool, rel: (S, T, S) -> bool) {
    run.Valid() && init(run.states[0]) && StepsBetween(run, rel, 0, |run.steps|)
  }

  /** What every step keeps is kept between any two states of a run. */
  lemma {:induction false} KeptBetween<S(!new), T(!new)>(run: Run<S, T>, rel: (S, T, S) -> bool,
                                                         inv: S -> bool, i: nat, j: nat)
    requires run.Valid() && i <= j <= |run.steps| && StepsBetween(run, rel, i, j)
    requires forall s, t, s' :: inv(s) && rel(s, t, s') ==> inv(s')
    requires inv(run.states[i])
    ensures inv(run.states[j])
    decreases j
  {
    if i < j {
      KeptBetween(run, rel, inv, i, j - 1);
      assert rel(run.states[j - 1], run.steps[j - 1], run.states[j - 1 + 1]);
    }
  }

  /** What holds initially and is kept by every step holds in every state of every run. */
  lemma AlwaysHolds<S(!new), T(!new)>(run: Run<S, T>, init: S -> bool, rel: (S, T, S) -> bool,
                                      inv: S -> bool)
    requires Follows(run, init, rel)
    requires forall s :: init(s) ==> inv(s)
    requires forall s, t, s' :: inv(s) && rel(s, t, s') ==> inv(s')
    ensures forall k | 0 <= k < |run.states| :: inv(run.states[k])
  {
    forall k | 0 <= k < |run.states| ensures inv(run.states[k]) {
      KeptBetween(run, rel, inv, 0, k);
    }
  }

  /** What a step can only lose, a run that still has it at the end has had all along. */
  lemma {:induction false} HeldAllAlong<S(!new), T(!new)>(run: Run<S, T>, rel: (S, T, S) -> bool,
                                                          inv: S -> bool, i: nat)
    requires run.Valid() && i <= |run.steps| && StepsBetween(run, rel, i, |run.steps|)
    requires forall s, t, s' :: rel(s, t, s') && inv(s') ==> inv(s)
    requires inv(run.Last())
    ensures inv(run.states[i])
    decreases |run.steps| - i
  {
    if i < |run.steps| {
      HeldAllAlong(run, rel, inv, i + 1);
      assert rel(run.states[i], run.steps[i], run.states[i + 1]);
    }
  }

  /** A run that goes on by one step. */
  lemma Continued<S(!new), T(!new)>(run: Run<S, T>, init: S -> bool, rel: (S, T, S) -> bool, step: T, next: S)
    returns (longer: Run<S, T>)
    requires Follows(run, init, rel) && rel(run.Last(), step, next)
    ensures Follows(longer, init, rel) && longer.Last() == next
    ensures |longer.steps| == |run.steps| + 1 && longer.steps[|run.steps|] == step
    ensures longer.states[..|run.states|] == run.states && longer.steps[..|run.steps|] == run.steps
  {
    longer := Run(run.states + [next], run.steps + [step]);
    forall i | 0 <= i < |longer.steps| ensures rel(longer.states[i], longer.steps[i], longer.states[i + 1]) {
      if i < |run.steps| {
        assert rel(run.states[i], run.steps[i], run.states[i + 1]);
      }
    }
  }

  /** The same by three steps. */
  lemma ContinuedThrice<S(!new), T(!new)>(run: Run<S, T>, init: S -> bool, rel: (S, T, S) -> bool,
                                          steps: (T, T, T), states: (S, S, S))
    returns (longer: Run<S, T>)
    requires Follows(run, init, rel)
    requires rel(run.Last(), steps.0, states.0) && rel(states.0, steps.1, states.1) && rel(states.1, steps.2, states.2)
    ensures Follows(longer, init, rel)
    ensures longer.steps == run.steps + [steps.0, steps.1, steps.2]
    ensures longer.states == run.states + [states.0, states.1, states.2]
  {
    var r1 := Continued(run, init, rel, steps.0, states.0);
    var r2 := Continued(r1, init, rel, steps.1, states.1);
    longer := Continued(r2, init, rel, steps.2, states.2);
    assert r1.steps == run.steps + [steps.0] && r1.states == run.states + [states.0];
    assert r2.steps == r1.steps + [steps.1] && r2.states == r1.states + [states.1];
    assert longer.steps == r2.steps + [steps.2] && longer.states == r2.states + [states.2];
  }
}
