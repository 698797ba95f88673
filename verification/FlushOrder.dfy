/** Streams before final outputs: with the default parameters, what a task has already sent over the
    channel when its final output is deferred is dequeued for execution before that output. */
module FlushOrder {
  import opened Common
  import opened FlushMachine
  import opened Runs

  /** The operations dequeued so far, and after them the ones in line. */
  function Timeline(s: State): seq<Entity> {
    s.executed + s.roster.queue
  }

  function WokenBy(item: ChannelItem): seq<Entity> {
    match item
    case StreamItem(target) => [target]
    case Command => []
  }

  function StreamTargets(items: seq<ChannelItem>): seq<Entity> {
    if items == [] then []
    else
      StreamTargets(items[..|items| - 1]) + WokenBy(items[|items| - 1])
  }

  /** The elements of a occur in b in the same order, possibly with others in between. */
  ghost predicate Subsequence(a: seq<Entity>, b: seq<Entity>) {
    a == [] ||
    (b != [] &&
      (Subsequence(a, b[..|b| - 1]) ||
        (a[|a| - 1] == b[|b| - 1] && Subsequence(a[..|a| - 1], b[..|b| - 1]))))
  }

  lemma {:induction false} SubsequencePadded(a: seq<Entity>, b: seq<Entity>, c: seq<Entity>)
    requires Subsequence(a, b)
    ensures Subsequence(a, b + c)
  {
    if c == [] {
      assert b + c == b;
    } else {
      var n := |c| - 1;
      SubsequencePadded(a, b, c[..n]);
      assert (b + c)[..|b + c| - 1] == b + c[..n];
    }
  }

  lemma SubsequenceExtended(a: seq<Entity>, b: seq<Entity>, x: Entity)
    requires Subsequence(a, b)
    ensures Subsequence(a + [x], b + [x])
  {
    assert (a + [x])[..|a + [x]| - 1] == a && (b + [x])[..|b + [x]| - 1] == b;
  }

  // What is promised about a moment of the flush: the timeline, the channel and the deferrals then.
  datatype Moment = Moment(timeline: seq<Entity>, channel: seq<ChannelItem>, deferrals: seq<Entity>)

  function MomentOf(s: State): Moment {
    Moment(Timeline(s), s.channel, s.roster.deferredQueue)
  }

  /** The deferrals of that moment are still deferred. The first k items of its channel have been
      received and their targets have been queued since, in order. */
  ghost predicate StillDeferred(m: Moment, s: State, k: nat, since: seq<Entity>) {
    && k <= |m.channel|
    && m.channel[k..] <= s.channel
    && Timeline(s) == m.timeline + since
    && Subsequence(StreamTargets(m.channel[..k]), since)
    && m.deferrals <= s.roster.deferredQueue
    && (s.phase.Draining? ==> k == |m.channel|)
  }

  /** The deferrals have been queued, after all stream targets of that moment's channel. */
  ghost predicate QueuedAfterStreams(m: Moment, s: State, since: seq<Entity>) {
    && m.timeline + since + m.deferrals <= Timeline(s)
    && Subsequence(StreamTargets(m.channel), since)
  }

  ghost predicate InPlace(m: Moment, s: State) {
    && (s.phase.Idle? ==> s.roster.IsEmpty())
    && (s.phase.Draining? ==> s.phase.receivedAll)
    && ((exists k: nat, since :: StillDeferred(m, s, k, since)) ||
        (exists since :: QueuedAfterStreams(m, s, since)))
  }

  /** Steps that neither receive nor move deferrals only add to the line and to the channel. */
  ghost predicate OnlyAdds(s: State, s': State) {
    && Timeline(s) <= Timeline(s')
    && s.channel <= s'.channel
    && s.roster.deferredQueue <= s'.roster.deferredQueue
    && (s'.phase.Draining? ==> s.phase.Draining? || s.channel == [])
  }

  lemma OnlyAddingKeepsPlace(m: Moment, s: State, s': State)
    requires InPlace(m, s) && OnlyAdds(s, s')
    requires s'.phase.Idle? ==> s'.roster.IsEmpty()
    requires s'.phase.Draining? ==> s'.phase.receivedAll
    ensures InPlace(m, s')
  {
    var grown := Timeline(s')[|Timeline(s)|..];
    assert Timeline(s') == Timeline(s) + grown;
    if k: nat, since :| StillDeferred(m, s, k, since) {
      SubsequencePadded(StreamTargets(m.channel[..k]), since, grown);
      assert m.timeline + since + grown == m.timeline + (since + grown);
      assert StillDeferred(m, s', k, since + grown);
    } else {
      var since :| QueuedAfterStreams(m, s, since);
      assert QueuedAfterStreams(m, s', since);
    }
  }

  lemma HandleOnlyAdds(s: State, e: Emission)
    ensures OnlyAdds(s, Handle(s, e)) && OnlyAdds(s, Meanwhile(s, e))
  {
    assert Timeline(Handle(s, e)) == Timeline(s) + e.roster.queue;
  }

  lemma TakeOverOnlyAdds(s: State)
    ensures OnlyAdds(s, TakeOver(s))
  {
    assert Timeline(TakeOver(s)) == Timeline(s) + s.deferred.queue;
  }

  /** Receiving the next item of the moment's channel queues its target, if it is a stream item. */
  lemma ReceivedInOrder(channel: seq<ChannelItem>, k: nat, since: seq<Entity>, woken: seq<Entity>, more: seq<Entity>)
    requires k < |channel| && Subsequence(StreamTargets(channel[..k]), since)
    requires woken == WokenBy(channel[k])
    ensures Subsequence(StreamTargets(channel[..k + 1]), since + (woken + more))
  {
    var before := StreamTargets(channel[..k]);
    assert channel[..k + 1][..k] == channel[..k];
    assert StreamTargets(channel[..k + 1]) == before + woken;
    match channel[k] {
      case StreamItem(target) =>
        SubsequenceExtended(before, since, target);
      case Command =>
        assert before + [] == before && since + [] == since;
    }
    SubsequencePadded(before + woken, since + woken, more);
    assert since + woken + more == since + (woken + more);
  }

  lemma ReceiveEffect(s: State, e: Emission)
    requires s.phase.Collecting? && s.channel != []
    ensures var s' := Receive(DEFAULT_PARAMETERS, s, e);
            && Timeline(s') == Timeline(s) + (WokenBy(s.channel[0]) + e.roster.queue)
            && s'.channel == s.channel[1..] + e.sends
            && s.roster.deferredQueue <= s'.roster.deferredQueue
            && s'.phase.Collecting?
  {
  }

  /** If the channel still begins with the rest of an earlier one, so does what remains of it. */
  lemma RestAfterFirst(channel: seq<ChannelItem>, k: nat, now: seq<ChannelItem>, sends: seq<ChannelItem>)
    requires k <= |channel| && channel[k..] <= now && now != []
    ensures k < |channel| ==> now[0] == channel[k] && channel[k + 1..] <= now[1..] + sends
  {
    if k < |channel| {
      assert channel[k..][0] == channel[k] && channel[k + 1..] == channel[k..][1..];
    }
  }

  /** The state after receiving, given what that has done to it. */
  lemma ReceivedStillDeferred(m: Moment, s: State, s': State, k: nat, since: seq<Entity>,
                              woken: seq<Entity>, more: seq<Entity>)
    returns (k': nat)
    requires StillDeferred(m, s, k, since) && s.channel != [] && woken == WokenBy(s.channel[0])
    requires Timeline(s') == Timeline(s) + (woken + more) && s.channel[1..] <= s'.channel
    requires s.roster.deferredQueue <= s'.roster.deferredQueue && s'.phase.Collecting?
    ensures StillDeferred(m, s', k', since + (woken + more))
  {
    assert m.timeline + (since + (woken + more)) == m.timeline + since + (woken + more);
    RestAfterFirst(m.channel, k, s.channel, []);
    assert s.channel[1..] + [] == s.channel[1..];
    if k < |m.channel| {
      ReceivedInOrder(m.channel, k, since, woken, more);
      k' := k + 1;
    } else {
      SubsequencePadded(StreamTargets(m.channel[..k]), since, woken + more);
      k' := k;
    }
  }

  lemma ReceiveWhileDeferred(m: Moment, s: State, e: Emission, k: nat, since: seq<Entity>)
    returns (k': nat, since': seq<Entity>)
    requires StillDeferred(m, s, k, since) && s.phase.Collecting? && s.channel != []
    ensures StillDeferred(m, Receive(DEFAULT_PARAMETERS, s, e), k', since')
  {
    ReceiveEffect(s, e);
    since' := since + (WokenBy(s.channel[0]) + e.roster.queue);
    k' := ReceivedStillDeferred(m, s, Receive(DEFAULT_PARAMETERS, s, e), k, since,
                                WokenBy(s.channel[0]), e.roster.queue);
  }

  lemma ReceiveKeepsPlace(m: Moment, s: State, e: Emission)
    requires InPlace(m, s) && s.phase.Collecting?
    ensures InPlace(m, Receive(DEFAULT_PARAMETERS, s, e))
  {
    var s' := Receive(DEFAULT_PARAMETERS, s, e);
    if s.channel == [] {
      HandleOnlyAdds(s, e);
      OnlyAddingKeepsPlace(m, s, s');
    } else if k: nat, since :| StillDeferred(m, s, k, since) {
      var k', since' := ReceiveWhileDeferred(m, s, e, k, since);
    } else {
      var since :| QueuedAfterStreams(m, s, since);
      assert Timeline(s) <= Timeline(s');
      assert QueuedAfterStreams(m, s', since);
    }
  }

  lemma DrainKeepsPlace(m: Moment, s: State, e: Emission)
    requires InPlace(m, s) && s.phase.Draining?
    ensures InPlace(m, Next(DEFAULT_PARAMETERS, s, e))
  {
    var s' := Next(DEFAULT_PARAMETERS, s, e);
    assert Timeline(s') == Timeline(s) + s.roster.deferredQueue + e.roster.queue;
    if k: nat, since :| StillDeferred(m, s, k, since) {
      assert m.channel[..k] == m.channel;
      assert m.deferrals <= s.roster.deferredQueue;
      assert m.timeline + since + m.deferrals <= Timeline(s) + s.roster.deferredQueue;
      assert QueuedAfterStreams(m, s', since);
    } else {
      var since :| QueuedAfterStreams(m, s, since);
      assert QueuedAfterStreams(m, s', since);
    }
  }

  lemma OtherStepsOnlyAdd(s: State, e: Emission)
    requires !s.phase.Collecting? && !s.phase.Draining? && (s.phase.Idle? ==> s.roster.IsEmpty())
    ensures var s' := Next(DEFAULT_PARAMETERS, s, e);
            OnlyAdds(s, s') && !s'.phase.Draining? && (s'.phase.Idle? ==> s'.roster.IsEmpty())
  {
    match s.phase
    case Joining(_, _) => JoinOnlyAdds(s, e);
    case Releasing =>
      HandleOnlyAdds(s, e);
      TakeOverOnlyAdds(Handle(s, e));
    case Looping => LoopOnlyAdds(s, e);
    case Executing => ExecuteOnlyAdds(s, e);
    case _ => HandleOnlyAdds(s, e);
  }

  lemma JoinOnlyAdds(s: State, e: Emission)
    requires s.phase.Joining?
    ensures OnlyAdds(s, Join(s, e)) && !Join(s, e).phase.Draining? && !Join(s, e).phase.Idle?
  {
    assert Timeline(Join(s, e)) == Timeline(s) + (s.deferred.queue + e.roster.queue);
  }

  lemma LoopOnlyAdds(s: State, e: Emission)
    requires s.phase.Looping?
    ensures var s' := Loop(DEFAULT_PARAMETERS, s, e);
            OnlyAdds(s, s') && !s'.phase.Draining? && (s'.phase.Idle? ==> s'.roster.IsEmpty())
  {
    HandleOnlyAdds(s, e);
  }

  lemma ExecuteOnlyAdds(s: State, e: Emission)
    requires s.phase.Executing?
    ensures OnlyAdds(s, Execute(DEFAULT_PARAMETERS, s, e))
    ensures !Execute(DEFAULT_PARAMETERS, s, e).phase.Draining? && !Execute(DEFAULT_PARAMETERS, s, e).phase.Idle?
  {
    if s.roster.queue == [] {
      HandleOnlyAdds(s, e);
    } else {
      assert s.roster.queue == [s.roster.queue[0]] + s.roster.queue[1..];
      assert Timeline(Execute(DEFAULT_PARAMETERS, s, e)) == Timeline(s) + e.roster.queue;
    }
  }

  lemma StepKeepsPlace(m: Moment, s: State, e: Emission)
    requires InPlace(m, s)
    ensures InPlace(m, Next(DEFAULT_PARAMETERS, s, e))
  {
    if s.phase.Collecting? {
      ReceiveKeepsPlace(m, s, e);
    } else if s.phase.Draining? {
      DrainKeepsPlace(m, s, e);
    } else {
      OtherStepsOnlyAdd(s, e);
      OnlyAddingKeepsPlace(m, s, Next(DEFAULT_PARAMETERS, s, e));
    }
  }

  ghost predicate Calm(s: State) {
    (s.phase.Idle? ==> s.roster.IsEmpty()) && (s.phase.Draining? ==> s.phase.receivedAll)
  }

  lemma StepStaysCalm(s: State, e: Emission)
    requires Calm(s)
    ensures Calm(Next(DEFAULT_PARAMETERS, s, e))
  {
    if !s.phase.Collecting? && !s.phase.Draining? {
      OtherStepsOnlyAdd(s, e);
    }
  }

  /** From any moment of any run on, the deferrals of that moment either are still deferred or have
      been queued behind the targets of every stream item that was in the channel at that moment.
      Entries are executed in the order of the timeline, of which nothing is ever taken back. The
      moment may be in any phase but the one in which the deferrals are moved, so in particular it
      may be when a task has just been polled and has deferred its final output. */
  lemma StreamsBeforeFinalOutputs(run: Run<State, Emission>, i: nat, j: nat)
    requires Follows(run, IsInitial, Flushes(DEFAULT_PARAMETERS)) && i <= j <= |run.steps|
    requires !run.states[i].phase.Draining?
    ensures InPlace(MomentOf(run.states[i]), run.states[j])
  {
    var flushes := Flushes(DEFAULT_PARAMETERS);
    forall s, e, s' | Calm(s) && flushes(s, e, s') ensures Calm(s') {
      StepStaysCalm(s, e);
    }
    AlwaysHolds(run, IsInitial, flushes, Calm);
    assert Calm(run.states[i]);
    var m := MomentOf(run.states[i]);
    var inPlace := (s: State) => InPlace(m, s);
    assert StillDeferred(m, run.states[i], 0, []);
    forall s, e, s' | inPlace(s) && flushes(s, e, s') ensures inPlace(s') {
      StepKeepsPlace(m, s, e);
    }
    KeptBetween(run, flushes, inPlace, i, j);
  }

  /** Once any of those deferrals has been executed, all of those stream targets have been executed
      before it, in the order in which the items were sent. */
  lemma ExecutedAfterStreams(m: Moment, s: State, since: seq<Entity>)
    requires QueuedAfterStreams(m, s, since)
    requires |s.executed| > |m.timeline| + |since|
    ensures m.timeline + since <= s.executed
    ensures Subsequence(StreamTargets(m.channel), s.executed[|m.timeline|..|m.timeline| + |since|])
  {
    var n := |m.timeline| + |since|;
    assert Timeline(s)[..n] == s.executed[..n] && Timeline(s)[..n] == m.timeline + since;
    assert s.executed[|m.timeline|..n] == s.executed[..n][|m.timeline|..] == since;
  }
}
