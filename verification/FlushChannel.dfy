/** How many channel items are received: by one collection, and by one flush. The limit is meant to hold
    for each flush, but the code tests it after an item has run, and for each collection anew. */
module FlushChannel {
  import opened Common
  import opened FlushMachine
  import opened FlushRuns
  import opened Rosters
  import opened Runs

  /** The step takes an item out of the channel. */
  predicate Receives(s: State) {
    s.phase.Collecting? && s.channel != []
  }

  /** How many items are received between the i-th and the j-th state. */
  function ReceivedBetween(run: Run<State, Emission>, i: nat, j: nat): nat
    requires i <= j <= |run.states|
    decreases j
  {
    if i == j then 0
    else ReceivedBetween(run, i, j - 1) + if Receives(run.states[j - 1]) then 1 else 0
  }

  /** Nothing is sent over the channel in the meantime. */
  ghost predicate NothingSent(run: Run<State, Emission>, i: nat, j: nat)
    requires i <= j <= |run.steps|
  {
    forall k | i <= k < j :: run.steps[k].sends == []
  }

  ghost predicate Stretch(p: Parameters, run: Run<State, Emission>, i: nat, j: nat) {
    && run.Valid() && i <= j <= |run.steps| && StepsBetween(run, Flushes(p), i, j)
    && NothingSent(run, i, j)
  }

  /** What one step does to the channel. */
  lemma StepOnChannel(p: Parameters, s: State, e: Emission)
    ensures Next(p, s, e).channel == (if Receives(s) then s.channel[1..] else s.channel) + e.sends
  {
    match s.phase
    case Looping => LoopOnChannel(p, s, e);
    case _ =>
  }

  lemma LoopOnChannel(p: Parameters, s: State, e: Emission)
    requires s.phase.Looping?
    ensures Loop(p, s, e).channel == s.channel + e.sends
  {
  }

  /** What is received is what the channel loses, as long as nothing is sent. */
  lemma {:induction false} ReceivedIsLost(p: Parameters, run: Run<State, Emission>, i: nat, j: nat)
    requires Stretch(p, run, i, j)
    ensures ReceivedBetween(run, i, j) + |run.states[j].channel| == |run.states[i].channel|
    decreases j
  {
    if i < j {
      ReceivedIsLost(p, run, i, j - 1);
      assert Flushes(p)(run.states[j - 1], run.steps[j - 1], run.states[j - 1 + 1]);
      StepOnChannel(p, run.states[j - 1], run.steps[j - 1]);
    }
  }

  // ---------- One collection ----------

  /** The number of items that a collection receives when n are there: with a limit of L at most L + 1. */
  function Allowance(p: Parameters, n: nat): nat {
    match p.channelReceivedLimit
    case None => n
    case Some(limit) => if n <= limit then n else limit + 1
  }

  lemma CollectingOnce(p: Parameters, s: State, e: Emission)
    requires s.phase.Collecting? && s.channel != [] && e.sends == []
    ensures var s' := Next(p, s, e);
            && s'.channel == s.channel[1..]
            && s'.phase == if Reached(p.channelReceivedLimit, s.phase.received) then Draining(s.phase.first, false)
                           else Collecting(s.phase.first, s.phase.received + 1)
  {
    assert s.channel[1..] + [] == s.channel[1..];
  }

  lemma CollectionEnds(p: Parameters, s: State, e: Emission)
    requires s.phase.Collecting? && s.channel == []
    ensures Next(p, s, e).phase == Draining(s.phase.first, true)
  {
  }

  /** Up to the allowance every step of a collection receives an item. */
  lemma {:induction false} CollectionGoesOn(p: Parameters, run: Run<State, Emission>, i: nat, m: nat)
    requires Stretch(p, run, i, i + m)
    requires run.states[i].phase.Collecting? && run.states[i].phase.received == 0
    requires m <= Allowance(p, |run.states[i].channel|)
    ensures ReceivedBetween(run, i, i + m) == m
    ensures run.states[i + m].channel == run.states[i].channel[m..]
    ensures run.states[i + m].phase ==
            if p.channelReceivedLimit.Some? && m == p.channelReceivedLimit.value + 1
            then Draining(run.states[i].phase.first, false)
            else Collecting(run.states[i].phase.first, m)
    decreases m
  {
    if m > 0 {
      var k := i + m - 1;
      CollectionGoesOn(p, run, i, m - 1);
      assert Flushes(p)(run.states[k], run.steps[k], run.states[k + 1]);
      CollectingOnce(p, run.states[k], run.steps[k]);
      assert run.states[i].channel[m - 1..][1..] == run.states[i].channel[m..];
    }
  }

  lemma CollectingAllAlong(p: Parameters, run: Run<State, Emission>, i: nat, m: nat)
    requires Stretch(p, run, i, i + m)
    requires run.states[i].phase.Collecting? && run.states[i].phase.received == 0
    requires m <= Allowance(p, |run.states[i].channel|)
    ensures forall k | i <= k < i + m :: run.states[k].phase.Collecting?
  {
    forall k | i <= k < i + m ensures run.states[k].phase.Collecting? {
      CollectionGoesOn(p, run, i, k - i);
    }
  }

  /** When nothing else is sent, a collection receives all items there are, or one more than its limit
      if there are more items than the limit allows, and then the deferrals are moved. */
  lemma CollectionReceives(p: Parameters, run: Run<State, Emission>, i: nat, end: nat) returns (j: nat)
    requires Stretch(p, run, i, end)
    requires run.states[i].phase.Collecting? && run.states[i].phase.received == 0
    requires !run.states[end].phase.Collecting?
    ensures i < j <= end && run.states[j].phase.Draining?
    ensures forall k | i <= k < j :: run.states[k].phase.Collecting?
    ensures ReceivedBetween(run, i, j) == Allowance(p, |run.states[i].channel|)
  {
    var n := |run.states[i].channel|;
    var m := Allowance(p, n);
    if end <= i + m {
      CollectionGoesOn(p, run, i, end - i);
      assert end - i == m;
    }
    CollectingAllAlong(p, run, i, m);
    CollectionGoesOn(p, run, i, m);
    j := i + m;
    if run.states[j].phase.Collecting? {
      assert run.states[j].channel == [];
      assert Flushes(p)(run.states[j], run.steps[j], run.states[j + 1]);
      CollectionEnds(p, run.states[j], run.steps[j]);
      j := j + 1;
    }
  }

  /** When nothing else is sent, a collection keeps within its limit exactly if there are no more items
      than that when it begins. */
  lemma CollectionKeepsLimitIff(p: Parameters, limit: nat, run: Run<State, Emission>, i: nat, end: nat)
    returns (j: nat)
    requires p.channelReceivedLimit == Some(limit) && Stretch(p, run, i, end)
    requires run.states[i].phase.Collecting? && run.states[i].phase.received == 0
    requires !run.states[end].phase.Collecting?
    ensures i < j <= end && run.states[j].phase.Draining?
    ensures forall k | i <= k < j :: run.states[k].phase.Collecting?
    ensures ReceivedBetween(run, i, j) <= limit <==> |run.states[i].channel| <= limit
  {
    j := CollectionReceives(p, run, i, end);
  }

  // ---------- One flush ----------

  lemma {:induction false} ReceivedGrows(run: Run<State, Emission>, i: nat, j: nat, k: nat)
    requires i <= j <= k <= |run.states|
    ensures ReceivedBetween(run, i, j) <= ReceivedBetween(run, i, k)
    decreases k
  {
    if j < k {
      ReceivedGrows(run, i, j, k - 1);
    }
  }

  /** When nothing else is sent, a flush keeps within the limit exactly if there are no more items than
      that when it begins. It may be observed up to any moment after its first collection. */
  lemma FlushKeepsLimitIff(p: Parameters, limit: nat, run: Run<State, Emission>, i: nat, end: nat)
    requires p.channelReceivedLimit == Some(limit) && Stretch(p, run, i, end)
    requires run.states[i].phase == Collecting(true, 0)
    requires !run.states[end].phase.Collecting?
    ensures ReceivedBetween(run, i, end) <= limit <==> |run.states[i].channel| <= limit
  {
    var j := CollectionReceives(p, run, i, end);
    ReceivedGrows(run, i, j, end);
    ReceivedIsLost(p, run, i, end);
  }

  lemma {:induction false} CommandsAdd(m: nat, n: nat)
    ensures Commands(m + n) == Commands(m) + Commands(n)
  {
    if m == 0 {
      assert [] + Commands(n) == Commands(n);
    } else {
      CommandsAdd(m - 1, n);
      assert [Command] + (Commands(m - 1) + Commands(n)) == [Command] + Commands(m - 1) + Commands(n);
    }
  }

  // A task that is ready to be woken when the loop begins, so that there is a pass.
  const AWAKE := EMPTY_ROSTER.(awake := [0])

  /** The first collection of a flush begins with n commands in the channel. */
  lemma FlushBegins(p: Parameters, n: nat) returns (run: Run<State, Emission>)
    ensures Follows(run, IsInitial, Flushes(p))
    ensures run.Last() == INITIAL.(phase := Collecting(true, 0), channel := Commands(n))
  {
    run := Run([INITIAL], []);
    assert [] + Commands(n) == Commands(n);
    run := Extended(p, run, NOTHING.(sends := Commands(n)));
  }

  /** From the end of the first collection to the beginning of the second. */
  lemma SecondCollectionBegins(p: Parameters, run: Run<State, Emission>, channel: seq<ChannelItem>)
    returns (longer: Run<State, Emission>)
    requires Follows(run, IsInitial, Flushes(p)) && !Reached(p.flushLoopLimit, 0)
    requires run.Last() == INITIAL.(phase := Draining(true, false), channel := channel)
    ensures Follows(longer, IsInitial, Flushes(p)) && GoesOnQuietly(run, longer)
    ensures longer.Last() ==
            INITIAL.(phase := Collecting(false, 0), channel := channel, loopCount := 1, passes := 1)
  {
    NothingHappens(INITIAL.(phase := Joining(true, false), channel := channel));
    var r1 := Idled(p, run);
    assert r1.Last() == INITIAL.(phase := Joining(true, false), channel := channel);
    NothingHappens(INITIAL.(phase := Releasing, channel := channel));
    var r2 := Idled(p, r1);
    assert r2.Last() == INITIAL.(phase := Releasing, channel := channel);
    assert channel + [] == channel;
    var r3 := Extended(p, r2, NOTHING.(roster := AWAKE));
    var s := INITIAL.(roster := AWAKE, channel := channel);
    assert r3.Last() == s.(phase := Looping);
    GoesOnAndOn(run, r1, r2);
    GoesOnAndOn(run, r2, r3);
    var r4 := PassWithoutWork(p, r3, channel);
    GoesOnAndOn(run, r3, r4);
    longer := r4;
  }

  lemma PassWithoutWork(p: Parameters, run: Run<State, Emission>, channel: seq<ChannelItem>)
    returns (longer: Run<State, Emission>)
    requires Follows(run, IsInitial, Flushes(p)) && !Reached(p.flushLoopLimit, 0)
    requires run.Last() == INITIAL.(phase := Looping, roster := AWAKE, channel := channel)
    ensures Follows(longer, IsInitial, Flushes(p)) && GoesOnQuietly(run, longer)
    ensures longer.Last() ==
            INITIAL.(phase := Collecting(false, 0), channel := channel, loopCount := 1, passes := 1)
  {
    var s := INITIAL.(roster := AWAKE, channel := channel, loopCount := 1, passes := 1);
    NothingHappens(s.(phase := Unblocking));
    var r1 := Idled(p, run);
    assert r1.Last() == s.(phase := Unblocking);
    NothingHappens(s.(phase := Executing));
    var r2 := Idled(p, r1);
    assert r2.Last() == s.(phase := Executing);
    NothingHappens(s.(phase := Awakening));
    var r3 := Idled(p, r2);
    assert r3.Last() == s.(phase := Awakening);
    NothingHappens(s.(phase := Awakening, roster := EMPTY_ROSTER));
    var r4 := Idled(p, r3);
    assert r4.Last() == s.(phase := Awakening, roster := EMPTY_ROSTER);
    NothingHappens(s.(phase := Collecting(false, 0), roster := EMPTY_ROSTER));
    longer := Idled(p, r4);
    GoesOnAndOn(run, r1, r2);
    GoesOnAndOn(run, r2, r3);
    GoesOnAndOn(run, r3, r4);
    GoesOnAndOn(run, r4, longer);
  }

  /** What a run adds quietly is a stretch in which nothing is sent and no flush ends. */
  lemma QuietStretch(p: Parameters, run: Run<State, Emission>, longer: Run<State, Emission>)
    requires GoesOnQuietly(run, longer) && Follows(longer, IsInitial, Flushes(p)) && !run.Last().phase.Idle?
    ensures Stretch(p, longer, |run.steps|, |longer.steps|)
    ensures longer.states[|run.steps|] == run.Last()
    ensures forall k | |run.steps| <= k <= |longer.steps| :: !longer.states[k].phase.Idle?
  {
    var i := |run.steps|;
    assert longer.states[i] == run.states[i];
    forall k | i <= k < |longer.steps| ensures longer.steps[k].sends == [] {
      assert QuietAt(longer, k);
    }
    forall k | i <= k <= |longer.steps| ensures !longer.states[k].phase.Idle? {
      if k > i {
        assert QuietAt(longer, k - 1);
      }
    }
    forall k | i <= k < |longer.steps|
      ensures Flushes(p)(longer.states[k], longer.steps[k], longer.states[k + 1])
    {
    }
  }

  /** With any limit L there is a run in which a single flush receives 2 L + 2 items, since its second
      collection starts to count anew. */
  lemma FlushCollectsTwice(p: Parameters) returns (run: Run<State, Emission>, i: nat)
    requires p.channelReceivedLimit.Some? && !Reached(p.flushLoopLimit, 0)
    ensures Follows(run, IsInitial, Flushes(p)) && i <= |run.steps|
    ensures run.states[i].phase == Collecting(true, 0)
    ensures forall k | i <= k <= |run.steps| :: !run.states[k].phase.Idle?
    ensures ReceivedBetween(run, i, |run.steps|) == 2 * (p.channelReceivedLimit.value + 1)
  {
    var n := p.channelReceivedLimit.value + 1;
    var r0 := FlushBegins(p, n + n);
    i := |r0.steps|;
    CommandsAdd(n, n);
    var r1 := LimitUsedUp(p, r0, Commands(n));
    var r2 := SecondCollectionBegins(p, r1, Commands(n));
    assert Commands(n) + [] == Commands(n);
    run := LimitUsedUp(p, r2, []);
    GoesOnAndOn(r0, r1, r2);
    GoesOnAndOn(r0, r2, run);
    QuietStretch(p, r0, run);
    ReceivedIsLost(p, run, i, |run.steps|);
  }
}
