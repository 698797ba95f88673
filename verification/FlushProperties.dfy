/** How much a flush may do, whatever the handlers do. */
module FlushProperties {
  import opened Common
  import opened FlushMachine
  import opened Runs

  function ExecutedNow(s: State): int {
    |s.executed| - s.earlier
  }

  ghost predicate Bounded(limit: nat, s: State) {
    && 0 <= ExecutedNow(s) <= (if limit <= 2 then 1 else limit - 1)
    && s.passes <= limit
    && s.loopCount == ExecutedNow(s) + s.passes
    && (s.passes == 0 ==> ExecutedNow(s) == 0)
    && (s.phase.Unblocking? || s.phase.Executing? ==>
          s.passes > 0 &&
          (s.loopCount < limit || (s.loopCount == limit && (s.passes > 1 || ExecutedNow(s) == 0))))
  }

  lemma StepStaysBounded(p: Parameters, limit: nat, s: State, e: Emission)
    requires p.flushLoopLimit == Some(limit) && limit > 0 && Bounded(limit, s)
    ensures Bounded(limit, Next(p, s, e))
  {
    match s.phase
    case Looping => LoopStaysBounded(p, limit, s, e);
    case Executing => ExecuteStaysBounded(p, limit, s, e);
    case _ =>
  }

  lemma LoopStaysBounded(p: Parameters, limit: nat, s: State, e: Emission)
    requires p.flushLoopLimit == Some(limit) && limit > 0 && Bounded(limit, s)
    ensures Bounded(limit, Loop(p, s, e))
  {
  }

  lemma ExecuteStaysBounded(p: Parameters, limit: nat, s: State, e: Emission)
    requires p.flushLoopLimit == Some(limit) && limit > 0 && Bounded(limit, s) && s.phase.Executing?
    ensures Bounded(limit, Execute(p, s, e))
  {
  }

  /** With a constant loop limit, one flush executes at most max(1, limit - 1) entries of the queue
      and makes at most `limit` passes. */
  lemma FlushIsBounded(p: Parameters, limit: nat, run: Run<State, Emission>)
    requires Follows(run, IsInitial, Flushes(p))
    requires p.flushLoopLimit == Some(limit) && limit > 0
    ensures forall k | 0 <= k < |run.states| :: Bounded(limit, run.states[k])
  {
    var bounded := (s: State) => Bounded(limit, s);
    forall s, e, s' | bounded(s) && Flushes(p)(s, e, s') ensures bounded(s') {
      StepStaysBounded(p, limit, s, e);
    }
    AlwaysHolds(run, IsInitial, Flushes(p), bounded);
    assert forall k | 0 <= k < |run.states| :: bounded(run.states[k]);
  }
}
