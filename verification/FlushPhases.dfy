/** What a flush does when: when each list is left, when the flush ends, and when disposals are processed. */
module FlushPhases {
  import opened Common
  import opened FlushConservation
  import opened FlushMachine
  import opened Rosters
  import opened Runs

  /** A list is served until it is empty, except that the queue is left as soon as the loop limit is reached. */
  lemma LeavesListIff(p: Parameters, s: State, e: Emission, kind: Kind)
    requires ListServedIn(s.phase) == Some(kind)
    ensures Next(p, s, e).phase != s.phase <==>
              || Listed(s.roster, kind) == []
              || (kind == Executions && p.flushLoopLimit.Some? && p.flushLoopLimit.value <= s.loopCount + 1)
    ensures Next(p, s, e).phase != s.phase ==>
              Next(p, s, e).phase == match kind
                case Unblocks => Executing
                case Executions => Awakening
                case Awakenings => Collecting(false, 0)
                case Disposals => Reaching
                case _ => Looping
  {
  }

  /** A flush takes over the deferred roster in every collection and once more before it begins to loop. At all
      other times that roster only grows, and what the flush postpones is added to it. */
  lemma TakesOverIff(p: Parameters, s: State, e: Emission)
    ensures var s' := Next(p, s, e);
            match s.phase
            case Joining(_, _) => s'.deferred == e.later
            case Releasing => s'.deferred == EMPTY_ROSTER
            case Looping =>
              s'.deferred == (if s'.phase == Idle && s.roster != EMPTY_ROSTER
                              then s.deferred.Append(s.roster.(sessionDespawn := [])) else s.deferred).Append(e.later)
            case _ => s'.deferred == s.deferred.Append(e.later)
  {
    assert EMPTY_ROSTER.Append(e.later) == e.later;
  }

  // ---------- How a flush ends ----------

  ghost predicate CountsUp(s: State) {
    && s.loopCount == |s.executed| - s.earlier + s.passes && s.earlier <= |s.executed|
  }

  lemma StepCountsUp(p: Parameters, s: State, e: Emission)
    requires CountsUp(s)
    ensures CountsUp(Next(p, s, e))
  {
  }

  /** A flush ends exactly if, at the top of its loop, its roster is empty or its executions and passes together
      have reached the loop limit. What it ends with goes to the deferred roster, but for the sessions, which are
      despawned. */
  lemma FlushEndsIff(p: Parameters, run: Run<State, Emission>, k: nat)
    requires Follows(run, IsInitial, Flushes(p)) && k < |run.steps|
    ensures var s, s' := run.states[k], run.states[k + 1];
            s'.phase == Idle <==>
              && s.phase == Looping
              && (s.roster == EMPTY_ROSTER
                  || (p.flushLoopLimit.Some? && p.flushLoopLimit.value <= |s.executed| - s.earlier + s.passes))
  {
    forall s, e, s' | CountsUp(s) && Flushes(p)(s, e, s') ensures CountsUp(s') {
      StepCountsUp(p, s, e);
    }
    AlwaysHolds(run, IsInitial, Flushes(p), CountsUp);
    assert CountsUp(run.states[k]);
    assert Flushes(p)(run.states[k], run.steps[k], run.states[k + 1]);
    EndsIff(p, run.states[k], run.steps[k]);
  }

  lemma EndsIff(p: Parameters, s: State, e: Emission)
    ensures Next(p, s, e).phase == Idle <==>
              s.phase == Looping && (s.roster == EMPTY_ROSTER || Reached(p.flushLoopLimit, s.loopCount))
  {
  }

  // ---------- When disposals are processed ----------

  /** The channel has been found empty in a pass, and the disposals are still to be processed or just being. */
  predicate ChannelEmptied(phase: Phase) {
    phase == Draining(false, true) || phase == Joining(false, true) || phase == Disposing || phase == Reaching
  }

  /** The i-th step has found the channel empty, in a collection at the end of a pass. */
  ghost predicate FindsEmpty(run: Run<State, Emission>, i: nat)
    requires run.Valid() && i < |run.states|
  {
    run.states[i].phase.Collecting? && !run.states[i].phase.first && run.states[i].channel == []
  }

  lemma EmptiedBy(p: Parameters, s: State, e: Emission)
    requires ChannelEmptied(Next(p, s, e).phase) && !ChannelEmptied(s.phase)
    ensures s.phase.Collecting? && !s.phase.first && s.channel == []
  {
  }

  /** Disposals and reachability are only looked at after a collection at the end of a pass has found the channel
      empty, with nothing in between but moving the deferrals and taking over the deferred roster. */
  lemma {:induction false} DisposalsAfterEmptyChannel(p: Parameters, run: Run<State, Emission>, k: nat)
    returns (i: nat)
    requires Follows(run, IsInitial, Flushes(p)) && k < |run.states| && ChannelEmptied(run.states[k].phase)
    ensures i < k && FindsEmpty(run, i)
    ensures forall j | i < j <= k :: ChannelEmptied(run.states[j].phase)
  {
    if k == 0 {
      assert false;
    } else {
      assert Flushes(p)(run.states[k - 1], run.steps[k - 1], run.states[k - 1 + 1]);
      if ChannelEmptied(run.states[k - 1].phase) {
        i := DisposalsAfterEmptyChannel(p, run, k - 1);
      } else {
        i := k - 1;
        EmptiedBy(p, run.states[i], run.steps[i]);
      }
    }
  }

  /** Conversely, when a collection at the end of a pass finds the channel empty, disposals are processed next;
      when it stops at its limit they are not. */
  lemma EmptyChannelLeadsToDisposals(p: Parameters, run: Run<State, Emission>, i: nat)
    requires Follows(run, IsInitial, Flushes(p)) && i + 3 <= |run.steps|
    requires run.states[i].phase.Collecting? && !run.states[i].phase.first && run.states[i + 1].phase.Draining?
    ensures run.states[i + 3].phase == if run.states[i].channel == [] then Disposing else Looping
  {
    assert Flushes(p)(run.states[i], run.steps[i], run.states[i + 1]);
    assert Flushes(p)(run.states[i + 1], run.steps[i + 1], run.states[i + 1 + 1]);
    assert Flushes(p)(run.states[i + 2], run.steps[i + 2], run.states[i + 2 + 1]);
  }
}
