/** The final output of a task is delivered with a deferred wake-up, so that the streams of the task come
    first: what the flush promises about deferrals holds of these deliveries. */
module FinalOutputs {
  import opened Common
  import opened FlushLimits
  import opened FlushMachine
  import opened FlushOrder
  import opened Intake
  import opened Rosters
  import opened Runs

  /** What a delivery adds to a roster does not depend on what is in it. */
  lemma DeliveryAppends(r: Roster, delivery: Delivery, session: Entity, target: Entity, now: bool)
    ensures Woken(r, delivery, session, target, now)
         == r.Append(Woken(EMPTY_ROSTER, delivery, session, target, now))
  {
    assert r.Append(EMPTY_ROSTER) == r;
    assert [] + [target] == [target] && [] + [session] == [session];
  }

  /** A deferred delivery adds to the deferred queue and not to the queue, */
  lemma DeferringAdds(delivery: Delivery, session: Entity, target: Entity)
    requires delivery == Stored || delivery == Ignored
    ensures Woken(EMPTY_ROSTER, delivery, session, target, false) == EMPTY_ROSTER.(deferredQueue := [target])
  {
    assert [] + [target] == [target];
  }

  /** and an immediate one the reverse. */
  lemma GivingAdds(delivery: Delivery, session: Entity, target: Entity)
    requires delivery == Stored || delivery == Ignored
    ensures Woken(EMPTY_ROSTER, delivery, session, target, true) == EMPTY_ROSTER.(queue := [target])
  {
    assert [] + [target] == [target];
  }

  /** The task that is polled in this step finishes: besides what it does before and after, it delivers its
      output, which is accepted by the target. */
  ghost predicate Finishes(s: State, e: Emission, before: Roster, delivery: Delivery, session: Entity,
                           output: Entity, after: Roster)
  {
    && s.phase == Awakening && s.roster.awake != []
    && (delivery == Stored || delivery == Ignored)
    && e.roster == Woken(before, delivery, session, output, false).Append(after)
  }

  /** The output is then deferred and has not been queued. The channel has all that it had before the task was
      polled, and all that the task has sent. */
  lemma FinishingDefers(p: Parameters, s: State, e: Emission, before: Roster, delivery: Delivery, session: Entity,
                        output: Entity, after: Roster)
    requires Finishes(s, e, before, delivery, session, output, after)
    ensures var s', q := Next(p, s, e), |s.roster.deferredQueue| + |before.deferredQueue|;
            && s'.channel == s.channel + e.sends
            && Timeline(s') == Timeline(s) + before.queue + after.queue
            && s'.roster.deferredQueue ==
                 s.roster.deferredQueue + before.deferredQueue + [output] + after.deferredQueue
            && s'.roster.deferredQueue[q] == output
  {
    DeliveryAppends(before, delivery, session, output, false);
    DeferringAdds(delivery, session, output);
    assert before.queue + [] == before.queue;
    assert e.roster.queue == before.queue + after.queue;
    assert e.roster.deferredQueue == before.deferredQueue + [output] + after.deferredQueue;
  }

  /** Whatever the limits: from when a task has finished on, and for as long as no collection stops at the
      channel limit, its output is still deferred, or is in line behind the target of every stream item that
      the task has sent and behind all that was in line when it finished. */
  lemma OutputsComeLast(p: Parameters, run: Run<State, Emission>, i: nat, j: nat, before: Roster,
                        delivery: Delivery, session: Entity, output: Entity, after: Roster)
    requires Follows(run, IsInitial, Flushes(p)) && i < j <= |run.steps|
    requires Finishes(run.states[i], run.steps[i], before, delivery, session, output, after)
    requires forall k | i + 1 < k <= j :: AllReceived(run.states[k])
    ensures var channel := run.states[i].channel + run.steps[i].sends;
            var ahead := Timeline(run.states[i]) + before.queue + after.queue;
            Behind(Deferral(output, channel, multiset(ahead)), run.states[j])
  {
    var s, e := run.states[i], run.steps[i];
    assert Flushes(p)(run.states[i], run.steps[i], run.states[i + 1]);
    FinishingDefers(p, s, e, before, delivery, session, output, after);
    var q := |s.roster.deferredQueue| + |before.deferredQueue|;
    StreamsFirstWhileAllReceived(p, run, i + 1, j, q);
  }

  /** With the default parameters it is so in every run, and the targets of the stream items are in line in the
      order in which the items were sent. Entries are executed in the order of the line. */
  lemma OutputsComeLastByDefault(run: Run<State, Emission>, i: nat, j: nat, before: Roster, delivery: Delivery,
                                 session: Entity, output: Entity, after: Roster)
    requires Follows(run, IsInitial, Flushes(DEFAULT_PARAMETERS)) && i < j <= |run.steps|
    requires Finishes(run.states[i], run.steps[i], before, delivery, session, output, after)
    ensures var channel := run.states[i].channel + run.steps[i].sends;
            var timeline := Timeline(run.states[i]) + before.queue + after.queue;
            var s' := run.states[j];
            || output in s'.roster.deferredQueue
            || exists since: seq<Entity>, n: nat ::
                 && timeline + since <= Timeline(s') && Subsequence(StreamTargets(channel), since)
                 && |timeline| + |since| <= n < |Timeline(s')| && Timeline(s')[n] == output
  {
    var s, e, s' := run.states[i], run.steps[i], run.states[j];
    assert Flushes(DEFAULT_PARAMETERS)(run.states[i], run.steps[i], run.states[i + 1]);
    FinishingDefers(DEFAULT_PARAMETERS, s, e, before, delivery, session, output, after);
    var m, q := MomentOf(run.states[i + 1]), |s.roster.deferredQueue| + |before.deferredQueue|;
    StreamsBeforeFinalOutputs(run, i + 1, j);
    assert m.deferrals[q] == output;
    if k: nat, since :| StillDeferred(m, s', k, since) {
      assert s'.roster.deferredQueue[q] == output;
    } else {
      var since :| QueuedAfterStreams(m, s', since);
      QueuedBehind(m, Timeline(s'), since, q);
    }
  }

  lemma QueuedBehind(m: Moment, line: seq<Entity>, since: seq<Entity>, q: nat)
    requires m.timeline + since + m.deferrals <= line && q < |m.deferrals|
    ensures m.timeline + since <= line
    ensures |m.timeline| + |since| + q < |line| && line[|m.timeline| + |since| + q] == m.deferrals[q]
  {
    assert (m.timeline + since + m.deferrals)[|m.timeline| + |since| + q] == m.deferrals[q];
  }
}
