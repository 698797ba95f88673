/** Building runs of the flush step by step. */
module FlushRuns {
  import opened FlushMachine
  import opened Rosters
  import opened Runs

  const NOTHING := Emission(EMPTY_ROSTER, EMPTY_ROSTER, [], [])

  lemma NothingHappens(s: State)
    ensures Handle(s, NOTHING) == s && Meanwhile(s, NOTHING) == s
  {
    assert s.roster.Append(EMPTY_ROSTER) == s.roster && s.deferred.Append(EMPTY_ROSTER) == s.deferred;
    assert s.channel + [] == s.channel && s.wakes + [] == s.wakes;
  }

  /** In the k-th step nothing is sent over the channel and the flush does not end. */
  ghost predicate QuietAt(run: Run<State, Emission>, k: nat)
    requires run.Valid() && k < |run.steps|
  {
    run.steps[k].sends == [] && !run.states[k + 1].phase.Idle?
  }

  /** The second run begins with the first and is quiet in what it adds. */
  ghost predicate GoesOnQuietly(run: Run<State, Emission>, longer: Run<State, Emission>) {
    && run.Valid() && longer.Valid() && run.states <= longer.states && run.steps <= longer.steps
    && forall k | |run.steps| <= k < |longer.steps| :: QuietAt(longer, k)
  }

  lemma GoesOnAndOn(a: Run<State, Emission>, b: Run<State, Emission>, c: Run<State, Emission>)
    requires GoesOnQuietly(a, b) && GoesOnQuietly(b, c)
    ensures GoesOnQuietly(a, c)
  {
    forall k | |a.steps| <= k < |c.steps| ensures QuietAt(c, k) {
      if k < |b.steps| {
        assert QuietAt(b, k);
        assert c.steps[k] == b.steps[k] && c.states[k + 1] == b.states[k + 1];
      }
    }
  }

  lemma Extended(p: Parameters, run: Run<State, Emission>, e: Emission) returns (longer: Run<State, Emission>)
    requires Follows(run, IsInitial, Flushes(p))
    ensures Follows(longer, IsInitial, Flushes(p))
    ensures |longer.steps| == |run.steps| + 1 && longer.Last() == Next(p, run.Last(), e)
    ensures forall i | 0 <= i < |run.states| :: longer.states[i] == run.states[i]
    ensures e.sends == [] && !longer.Last().phase.Idle? ==> GoesOnQuietly(run, longer)
  {
    longer := Continued(run, IsInitial, Flushes(p), e, Next(p, run.Last(), e));
    assert forall i | 0 <= i < |run.states| :: longer.states[i] == longer.states[..|run.states|][i];
  }

  lemma Idled(p: Parameters, run: Run<State, Emission>) returns (longer: Run<State, Emission>)
    requires Follows(run, IsInitial, Flushes(p))
    ensures Follows(longer, IsInitial, Flushes(p))
    ensures |longer.steps| == |run.steps| + 1 && longer.Last() == Next(p, run.Last(), NOTHING)
    ensures forall i | 0 <= i < |run.states| :: longer.states[i] == run.states[i]
    ensures !longer.Last().phase.Idle? ==> GoesOnQuietly(run, longer)
  {
    longer := Extended(p, run, NOTHING);
  }

  function Commands(n: nat): (r: seq<ChannelItem>)
    ensures |r| == n
  {
    if n == 0 then [] else [Command] + Commands(n - 1)
  }

  /** Receiving a command, which does nothing. */
  lemma CommandReceived(p: Parameters, run: Run<State, Emission>, channel: seq<ChannelItem>)
    returns (longer: Run<State, Emission>)
    requires Follows(run, IsInitial, Flushes(p))
    requires run.Last().phase.Collecting? && run.Last().channel == [Command] + channel
    ensures Follows(longer, IsInitial, Flushes(p)) && GoesOnQuietly(run, longer)
    ensures var s := run.Last();
            longer.Last() == s.(
              channel := channel,
              phase := if Reached(p.channelReceivedLimit, s.phase.received) then Draining(s.phase.first, false)
                       else Collecting(s.phase.first, s.phase.received + 1))
  {
    var s := run.Last();
    var next := if Reached(p.channelReceivedLimit, s.phase.received) then Draining(s.phase.first, false)
                else Collecting(s.phase.first, s.phase.received + 1);
    assert s.roster.queue + [] == s.roster.queue;
    assert s.channel[1..] == channel;
    NothingHappens(s.(phase := next, channel := channel));
    assert Receive(p, s, NOTHING) == s.(phase := next, channel := channel);
    longer := Idled(p, run);
  }

  /** Commands use up what may still be received, and the rest is left in the channel. */
  lemma {:induction false} LimitUsedUp(p: Parameters, run: Run<State, Emission>, rest: seq<ChannelItem>)
    returns (longer: Run<State, Emission>)
    requires Follows(run, IsInitial, Flushes(p)) && p.channelReceivedLimit.Some?
    requires run.Last().phase.Collecting? && run.Last().phase.received <= p.channelReceivedLimit.value
    requires run.Last().channel == Commands(p.channelReceivedLimit.value - run.Last().phase.received + 1) + rest
    ensures Follows(longer, IsInitial, Flushes(p)) && GoesOnQuietly(run, longer)
    ensures longer.Last() ==
            run.Last().(phase := Draining(run.Last().phase.first, false), channel := rest)
    decreases p.channelReceivedLimit.value - run.Last().phase.received
  {
    var left := p.channelReceivedLimit.value - run.Last().phase.received;
    var channel := Commands(left) + rest;
    assert run.Last().channel == [Command] + channel;
    longer := CommandReceived(p, run, channel);
    if left == 0 {
      assert channel == rest;
    } else {
      var once := longer;
      longer := LimitUsedUp(p, once, rest);
      GoesOnAndOn(run, once, longer);
    }
  }
}
