/** Final outputs and streams under any limits. Whatever the loop limit, what is deferred stays behind
    the stream items that were in the channel by then, exactly as long as the channel is not limited. */
module FlushLimits {
  import opened Common
  import opened FlushMachine
  import opened FlushOrder
  import opened FlushRuns
  import opened Rosters
  import opened Runs

  // An output that was deferred at some moment, the channel then, and all that was in line by then.
  datatype Deferral = Deferral(output: Entity, channel: seq<ChannelItem>, ahead: multiset<Entity>)

  function DeferralAt(s: State, q: nat): Deferral
    requires q < |s.roster.deferredQueue|
  {
    Deferral(s.roster.deferredQueue[q], s.channel, multiset(Timeline(s)))
  }

  /** What has to come before the output, as far as the first k channel items have brought it about. */
  function Due(d: Deferral, k: nat): multiset<Entity>
    requires k <= |d.channel|
  {
    d.ahead + multiset(StreamTargets(d.channel[..k]))
  }

  /** The first k items of the channel have been received, and the others are still in it. */
  ghost predicate Received(d: Deferral, s: State, k: nat) {
    && k <= |d.channel| && d.channel[k..] <= s.channel
    && (s.phase.Draining? ==> k == |d.channel|)
  }

  /** The output is still deferred in the flush's roster, */
  ghost predicate Waits(d: Deferral, s: State, k: nat, q: nat) {
    && Received(d, s, k) && Due(d, k) <= multiset(Timeline(s))
    && q < |s.roster.deferredQueue| && s.roster.deferredQueue[q] == d.output
  }

  /** or in what was left for a later flush, */
  ghost predicate WaitsLater(d: Deferral, s: State, k: nat, q: nat) {
    && Received(d, s, k) && Due(d, k) <= multiset(Timeline(s) + s.deferred.queue)
    && q < |s.deferred.deferredQueue| && s.deferred.deferredQueue[q] == d.output
  }

  /** or it has been queued behind all of the stream targets, */
  ghost predicate Queued(d: Deferral, s: State, n: nat) {
    QueuedIn(d, Timeline(s), n)
  }

  ghost predicate QueuedIn(d: Deferral, line: seq<Entity>, n: nat) {
    && n < |line| && line[n] == d.output
    && Due(d, |d.channel|) <= multiset(line[..n])
  }

  /** which may have been left for a later flush as well. */
  ghost predicate QueuedLater(d: Deferral, s: State, n: nat) {
    && n < |s.deferred.queue| && s.deferred.queue[n] == d.output
    && Due(d, |d.channel|) <= multiset(s.executed + s.deferred.queue[..n])
  }

  // Where the output is.
  datatype Place =
    | Waiting(k: nat, q: nat)
    | WaitingLater(k: nat, q: nat)
    | InLine(n: nat)
    | InLaterLine(n: nat)

  ghost predicate IsAt(d: Deferral, s: State, place: Place) {
    match place
    case Waiting(k, q) => Waits(d, s, k, q)
    case WaitingLater(k, q) => WaitsLater(d, s, k, q)
    case InLine(n) => Queued(d, s, n)
    case InLaterLine(n) => QueuedLater(d, s, n)
  }

  ghost predicate Behind(d: Deferral, s: State) {
    exists place :: IsAt(d, s, place)
  }

  // ---------- What steps do to the line ----------

  /** Nothing is taken out of any line, and nothing is received. */
  ghost predicate Grows(s: State, s': State) {
    && OnlyAdds(s, s')
    && s.executed <= s'.executed
    && s.deferred.queue <= s'.deferred.queue
    && s.deferred.deferredQueue <= s'.deferred.deferredQueue
  }

  lemma PrefixMultiset(a: seq<Entity>, b: seq<Entity>)
    requires a <= b
    ensures multiset(a) <= multiset(b)
  {
    assert b == a + b[|a|..];
  }

  lemma GrowingReceived(d: Deferral, s: State, s': State, k: nat)
    requires Received(d, s, k) && Grows(s, s')
    ensures Received(d, s', k)
  {
  }

  lemma GrowingKeepsWaiting(d: Deferral, s: State, s': State, k: nat, q: nat)
    requires Grows(s, s')
    ensures Waits(d, s, k, q) ==> Waits(d, s', k, q)
    ensures WaitsLater(d, s, k, q) ==> WaitsLater(d, s', k, q)
  {
    PrefixMultiset(Timeline(s), Timeline(s'));
    PrefixMultiset(s.deferred.queue, s'.deferred.queue);
    if Received(d, s, k) {
      GrowingReceived(d, s, s', k);
    }
  }

  lemma GrowingKeepsQueued(d: Deferral, s: State, s': State, n: nat)
    requires Grows(s, s')
    ensures Queued(d, s, n) ==> Queued(d, s', n)
    ensures QueuedLater(d, s, n) ==> QueuedLater(d, s', n)
  {
    if Queued(d, s, n) {
      assert Timeline(s)[..n] == Timeline(s')[..n];
    }
    if QueuedLater(d, s, n) {
      assert s.deferred.queue[..n] == s'.deferred.queue[..n];
      PrefixMultiset(s.executed, s'.executed);
    }
  }

  lemma GrowingKeepsPlace(d: Deferral, s: State, s': State, place: Place) returns (after: Place)
    requires IsAt(d, s, place) && Grows(s, s')
    ensures IsAt(d, s', after)
  {
    after := place;
    match place {
      case Waiting(k, q) => GrowingKeepsWaiting(d, s, s', k, q);
      case WaitingLater(k, q) => GrowingKeepsWaiting(d, s, s', k, q);
      case InLine(n) => GrowingKeepsQueued(d, s, s', n);
      case InLaterLine(n) => GrowingKeepsQueued(d, s, s', n);
    }
  }

  lemma GrowingKeepsBehind(d: Deferral, s: State, s': State)
    requires Behind(d, s) && Grows(s, s')
    ensures Behind(d, s')
  {
    var place :| IsAt(d, s, place);
    var after := GrowingKeepsPlace(d, s, s', place);
  }

  lemma HandleGrows(s: State, e: Emission)
    ensures Grows(s, Handle(s, e)) && Grows(s, Meanwhile(s, e))
  {
    HandleOnlyAdds(s, e);
  }

  lemma QueuedInLongerLine(d: Deferral, s: State, s': State, n: nat)
    requires Queued(d, s, n) && Timeline(s) <= Timeline(s')
    ensures Queued(d, s', n)
  {
    assert Timeline(s)[..n] == Timeline(s')[..n];
  }

  lemma QueuedLaterStays(d: Deferral, s: State, s': State, n: nat)
    requires QueuedLater(d, s, n) && s'.executed == s.executed && s.deferred.queue <= s'.deferred.queue
    ensures QueuedLater(d, s', n)
  {
    assert s'.deferred.queue[..n] == s.deferred.queue[..n];
  }

  lemma TakeOverWaiting(d: Deferral, s: State, k: nat, q: nat)
    requires Waits(d, s, k, q)
    ensures IsAt(d, TakeOver(s), Waiting(k, q))
  {
    assert Timeline(TakeOver(s)) == Timeline(s) + s.deferred.queue;
  }

  lemma TakeOverWaitingLater(d: Deferral, s: State, k: nat, q: nat)
    requires WaitsLater(d, s, k, q)
    ensures IsAt(d, TakeOver(s), Waiting(k, |s.roster.deferredQueue| + q))
  {
    assert Timeline(TakeOver(s)) == Timeline(s) + s.deferred.queue;
  }

  lemma TakeOverQueued(d: Deferral, s: State, n: nat)
    requires Queued(d, s, n)
    ensures IsAt(d, TakeOver(s), InLine(n))
  {
    assert Timeline(TakeOver(s)) == Timeline(s) + s.deferred.queue;
    QueuedInLongerLine(d, s, TakeOver(s), n);
  }

  lemma MoreInBetween(a: seq<Entity>, b: seq<Entity>, c: seq<Entity>, due: multiset<Entity>)
    requires due <= multiset(a + c)
    ensures due <= multiset(a + b + c)
  {
    assert multiset(a + b + c) == multiset(a + c) + multiset(b);
  }

  lemma BehindWholeLine(d: Deferral, line: seq<Entity>, queue: seq<Entity>, n: nat)
    requires n < |queue| && queue[n] == d.output
    requires Due(d, |d.channel|) <= multiset(line + queue[..n])
    ensures QueuedIn(d, line + queue, |line| + n)
  {
    assert (line + queue)[..|line| + n] == line + queue[..n];
  }

  lemma TakeOverExtendsLine(s: State)
    ensures Timeline(TakeOver(s)) == Timeline(s) + s.deferred.queue
  {
  }

  lemma TakeOverQueuedLater(d: Deferral, s: State, n: nat)
    requires QueuedLater(d, s, n)
    ensures IsAt(d, TakeOver(s), InLine(|Timeline(s)| + n))
  {
    TakeOverExtendsLine(s);
    LaterInLine(d, s.executed, s.roster.queue, s.deferred.queue, n);
  }

  lemma LaterInLine(d: Deferral, executed: seq<Entity>, queue: seq<Entity>, later: seq<Entity>, n: nat)
    requires n < |later| && later[n] == d.output
    requires Due(d, |d.channel|) <= multiset(executed + later[..n])
    ensures QueuedIn(d, executed + queue + later, |executed + queue| + n)
  {
    MoreInBetween(executed, queue, later[..n], Due(d, |d.channel|));
    BehindWholeLine(d, executed + queue, later, n);
  }

  /** Taking over the deferred roster puts what it holds at the end of the flush's own lists. */
  lemma TakeOverMoves(d: Deferral, s: State, place: Place) returns (after: Place)
    requires IsAt(d, s, place)
    ensures IsAt(d, TakeOver(s), after)
  {
    match place {
      case Waiting(k, q) =>
        TakeOverWaiting(d, s, k, q);
        return Waiting(k, q);
      case WaitingLater(k, q) =>
        TakeOverWaitingLater(d, s, k, q);
        return Waiting(k, |s.roster.deferredQueue| + q);
      case InLine(n) =>
        TakeOverQueued(d, s, n);
        return InLine(n);
      case InLaterLine(n) =>
        TakeOverQueuedLater(d, s, n);
        return InLine(|Timeline(s)| + n);
    }
  }

  lemma TakeOverKeepsBehind(d: Deferral, s: State)
    requires Behind(d, s)
    ensures Behind(d, TakeOver(s))
  {
    var place :| IsAt(d, s, place);
    var after := TakeOverMoves(d, s, place);
  }

  /** What a flush does when it has reached its limit. */
  function Postpone(s: State): State {
    s.(deferred := s.deferred.Append(s.roster), roster := EMPTY_ROSTER)
  }

  lemma PostponeWaiting(d: Deferral, s: State, k: nat, q: nat)
    ensures Waits(d, s, k, q) ==> WaitsLater(d, Postpone(s), k, |s.deferred.deferredQueue| + q)
    ensures WaitsLater(d, s, k, q) ==> WaitsLater(d, Postpone(s), k, q)
  {
    PostponedLine(s);
  }

  lemma PostponedLine(s: State)
    ensures Timeline(Postpone(s)) == s.executed
    ensures multiset(Timeline(Postpone(s)) + Postpone(s).deferred.queue) == multiset(Timeline(s) + s.deferred.queue)
  {
    Exchanged(s.executed, s.deferred.queue, s.roster.queue);
  }

  lemma Exchanged(a: seq<Entity>, b: seq<Entity>, c: seq<Entity>)
    ensures multiset(a + (b + c)) == multiset(a + c + b)
    ensures a + [] == a
  {
  }

  lemma PostponeQueued(d: Deferral, s: State, n: nat) returns (after: Place)
    requires Queued(d, s, n)
    ensures IsAt(d, Postpone(s), after)
  {
    var s' := Postpone(s);
    assert Timeline(s') == s.executed;
    if n < |s.executed| {
      assert Timeline(s)[..n] == Timeline(s')[..n];
      after := InLine(n);
    } else {
      var m := n - |s.executed|;
      var later := |s.deferred.queue| + m;
      assert Timeline(s)[..n] == s.executed + s.roster.queue[..m];
      assert s'.deferred.queue[..later] == s.deferred.queue + s.roster.queue[..m];
      assert QueuedLater(d, s', later);
      after := InLaterLine(later);
    }
  }

  lemma PostponeMoves(d: Deferral, s: State, place: Place) returns (after: Place)
    requires IsAt(d, s, place)
    ensures IsAt(d, Postpone(s), after)
  {
    after := place;
    match place {
      case Waiting(k, q) =>
        PostponeWaiting(d, s, k, q);
        after := WaitingLater(k, |s.deferred.deferredQueue| + q);
      case WaitingLater(k, q) => PostponeWaiting(d, s, k, q);
      case InLine(n) => after := PostponeQueued(d, s, n);
      case InLaterLine(n) => QueuedLaterStays(d, s, Postpone(s), n);
    }
  }

  lemma PostponeKeepsBehind(d: Deferral, s: State)
    requires Behind(d, s)
    ensures Behind(d, Postpone(s))
  {
    var place :| IsAt(d, s, place);
    var after := PostponeMoves(d, s, place);
  }

  lemma ProcessWaiting(d: Deferral, s: State, k: nat, q: nat)
    requires Waits(d, s, k, q) && s.phase.Draining?
    ensures Queued(d, s.(roster := s.roster.ProcessDeferrals()), |Timeline(s)| + q)
  {
    var s' := s.(roster := s.roster.ProcessDeferrals());
    assert Timeline(s') == Timeline(s) + s.roster.deferredQueue;
    assert Timeline(s')[..|Timeline(s)| + q] == Timeline(s) + s.roster.deferredQueue[..q];
    PrefixMultiset(Timeline(s), Timeline(s) + s.roster.deferredQueue[..q]);
  }

  lemma ProcessWaitingLater(d: Deferral, s: State, k: nat, q: nat)
    requires WaitsLater(d, s, k, q)
    ensures WaitsLater(d, s.(roster := s.roster.ProcessDeferrals()), k, q)
  {
    var s' := s.(roster := s.roster.ProcessDeferrals());
    PrefixMultiset(Timeline(s), Timeline(s'));
    assert Timeline(s) <= Timeline(s');
  }

  lemma ProcessQueuedLater(d: Deferral, s: State, n: nat)
    requires QueuedLater(d, s, n)
    ensures QueuedLater(d, s.(roster := s.roster.ProcessDeferrals()), n)
  {
  }

  lemma ProcessQueued(d: Deferral, s: State, n: nat)
    requires Queued(d, s, n)
    ensures Queued(d, s.(roster := s.roster.ProcessDeferrals()), n)
  {
    var s' := s.(roster := s.roster.ProcessDeferrals());
    assert Timeline(s') == Timeline(s) + s.roster.deferredQueue;
    QueuedInLongerLine(d, s, s', n);
  }

  /** Moving the deferrals to the queue, once the whole channel has been received. */
  lemma ProcessMoves(d: Deferral, s: State, place: Place) returns (after: Place)
    requires IsAt(d, s, place) && s.phase.Draining?
    ensures IsAt(d, s.(roster := s.roster.ProcessDeferrals()), after)
  {
    after := place;
    match place {
      case Waiting(k, q) =>
        ProcessWaiting(d, s, k, q);
        after := InLine(|Timeline(s)| + q);
      case WaitingLater(k, q) => ProcessWaitingLater(d, s, k, q);
      case InLine(n) => ProcessQueued(d, s, n);
      case InLaterLine(n) => ProcessQueuedLater(d, s, n);
    }
  }

  lemma ProcessKeepsBehind(d: Deferral, s: State)
    requires Behind(d, s) && s.phase.Draining?
    ensures Behind(d, s.(roster := s.roster.ProcessDeferrals()))
  {
    var place :| IsAt(d, s, place);
    var after := ProcessMoves(d, s, place);
  }

  // ---------- Every step ----------

  /** Receiving the first channel item, before its handler has been called. */
  function Popped(s: State, next: Phase): State
    requires s.channel != []
  {
    s.(channel := s.channel[1..],
       roster := s.roster.(queue := s.roster.queue + WokenBy(s.channel[0])),
       phase := next)
  }

  lemma PopReceives(d: Deferral, s: State, next: Phase, k: nat) returns (k': nat)
    requires Received(d, s, k) && s.channel != [] && !next.Draining?
    ensures Received(d, Popped(s, next), k')
    ensures Due(d, k') <= Due(d, k) + multiset(WokenBy(s.channel[0]))
  {
    if k < |d.channel| {
      k' := k + 1;
      RestAfterFirst(d.channel, k, s.channel, []);
      assert s.channel[1..] + [] == s.channel[1..];
      assert d.channel[..k + 1][..k] == d.channel[..k];
      assert StreamTargets(d.channel[..k + 1]) == StreamTargets(d.channel[..k]) + WokenBy(d.channel[k]);
    } else {
      k' := k;
    }
  }

  lemma PopWaiting(d: Deferral, s: State, next: Phase, k: nat, q: nat) returns (k': nat)
    requires s.channel != [] && !next.Draining?
    requires Waits(d, s, k, q) || WaitsLater(d, s, k, q)
    ensures Waits(d, s, k, q) ==> Waits(d, Popped(s, next), k', q)
    ensures WaitsLater(d, s, k, q) ==> WaitsLater(d, Popped(s, next), k', q)
  {
    assert Timeline(Popped(s, next)) == Timeline(s) + WokenBy(s.channel[0]);
    k' := PopReceives(d, s, next, k);
  }

  lemma PopQueuedLater(d: Deferral, s: State, next: Phase, n: nat)
    requires QueuedLater(d, s, n) && s.channel != []
    ensures QueuedLater(d, Popped(s, next), n)
  {
  }

  lemma PopQueued(d: Deferral, s: State, next: Phase, n: nat)
    requires Queued(d, s, n) && s.channel != []
    ensures Queued(d, Popped(s, next), n)
  {
    assert Timeline(Popped(s, next)) == Timeline(s) + WokenBy(s.channel[0]);
    QueuedInLongerLine(d, s, Popped(s, next), n);
  }

  lemma PopMoves(d: Deferral, s: State, next: Phase, place: Place) returns (after: Place)
    requires IsAt(d, s, place) && s.channel != [] && !next.Draining?
    ensures IsAt(d, Popped(s, next), after)
  {
    after := place;
    match place {
      case Waiting(k, q) =>
        var k' := PopWaiting(d, s, next, k, q);
        after := Waiting(k', q);
      case WaitingLater(k, q) =>
        var k' := PopWaiting(d, s, next, k, q);
        after := WaitingLater(k', q);
      case InLine(n) => PopQueued(d, s, next, n);
      case InLaterLine(n) => PopQueuedLater(d, s, next, n);
    }
  }

  lemma PopKeepsBehind(d: Deferral, s: State, next: Phase)
    requires Behind(d, s) && s.channel != [] && !next.Draining?
    ensures Behind(d, Popped(s, next))
  {
    var place :| IsAt(d, s, place);
    var after := PopMoves(d, s, next, place);
  }

  /** The phase and the history matter only in so far as deferrals are about to be moved. */
  lemma SamePlace(d: Deferral, s: State, s': State)
    requires Behind(d, s) && !s'.phase.Draining?
    requires s'.roster.queue == s.roster.queue && s'.roster.deferredQueue == s.roster.deferredQueue
    requires s'.deferred == s.deferred && s'.channel == s.channel && s'.executed == s.executed
    ensures Behind(d, s')
  {
    assert Timeline(s) == Timeline(s');
    assert Grows(s, s');
    GrowingKeepsBehind(d, s, s');
  }

  /** If a collection has just ended, it has received everything. */
  ghost predicate AllReceived(s: State) {
    s.phase.Draining? ==> s.phase.receivedAll
  }

  lemma ReceiveKeepsBehind(p: Parameters, d: Deferral, s: State, e: Emission)
    requires Behind(d, s) && s.phase.Collecting? && AllReceived(Receive(p, s, e))
    ensures Behind(d, Receive(p, s, e))
  {
    var s' := Receive(p, s, e);
    if s.channel == [] {
      HandleOnlyAdds(s, e);
      assert Grows(s, s');
      GrowingKeepsBehind(d, s, s');
    } else {
      PopKeepsBehind(d, s, s'.phase);
      var popped := Popped(s, s'.phase);
      assert Timeline(s') == Timeline(popped) + e.roster.queue;
      assert Grows(popped, s');
      GrowingKeepsBehind(d, popped, s');
    }
  }

  lemma DrainKeepsBehind(d: Deferral, s: State, e: Emission)
    requires Behind(d, s) && s.phase.Draining?
    ensures Behind(d, Drain(s, e))
  {
    ProcessKeepsBehind(d, s);
    var processed := s.(roster := s.roster.ProcessDeferrals());
    var moved := processed.(phase := Joining(s.phase.first, s.phase.receivedAll));
    SamePlace(d, processed, moved);
    HandleGrows(moved, e);
    GrowingKeepsBehind(d, moved, Handle(moved, e));
  }

  lemma JoinKeepsBehind(d: Deferral, s: State, e: Emission)
    requires Behind(d, s) && s.phase.Joining?
    ensures Behind(d, Join(s, e))
  {
    TakeOverKeepsBehind(d, s);
    var joined := TakeOver(s);
    var s1 := joined.(
      roster := joined.roster.(awake := joined.roster.awake + s.wakes), wakes := [],
      phase := if s.phase.first then Releasing else if s.phase.receivedAll then Disposing else Looping);
    SamePlace(d, joined, s1);
    HandleGrows(s1, e);
    GrowingKeepsBehind(d, s1, Handle(s1, e));
  }

  lemma ReleaseKeepsBehind(d: Deferral, s: State, e: Emission)
    requires Behind(d, s)
    ensures Behind(d, Release(s, e))
  {
    var s1 := s.(phase := Looping);
    SamePlace(d, s, s1);
    HandleGrows(s1, e);
    GrowingKeepsBehind(d, s1, Handle(s1, e));
    TakeOverKeepsBehind(d, Handle(s1, e));
  }

  lemma LoopKeepsBehind(p: Parameters, d: Deferral, s: State, e: Emission)
    requires Behind(d, s)
    ensures Behind(d, Loop(p, s, e))
  {
    var drained := s.(roster := s.roster.(sessionDespawn := []));
    var s1 :=
      if s.roster.IsEmpty() then s.(phase := Idle)
      else if Reached(p.flushLoopLimit, s.loopCount) then Postpone(drained).(phase := Idle)
      else drained.(phase := Unblocking, loopCount := s.loopCount + 1, passes := s.passes + 1);
    if !s.roster.IsEmpty() && Reached(p.flushLoopLimit, s.loopCount) {
      SamePlace(d, s, drained.(phase := Idle));
      PostponeKeepsBehind(d, drained.(phase := Idle));
    } else {
      SamePlace(d, s, s1);
    }
    HandleGrows(s1, e);
    GrowingKeepsBehind(d, s1, Loop(p, s, e));
  }

  /** Executing moves the front of the queue to the end of what has been executed. */
  lemma ExecuteGrows(p: Parameters, s: State, e: Emission)
    requires s.phase.Executing?
    ensures Grows(s, Execute(p, s, e))
  {
    if s.roster.queue == [] {
      HandleOnlyAdds(s, e);
    } else {
      assert s.roster.queue == [s.roster.queue[0]] + s.roster.queue[1..];
      assert Timeline(Execute(p, s, e)) == Timeline(s) + e.roster.queue;
    }
  }

  lemma ServeGrows(s: State, done: bool, rest: Roster, next: Phase, e: Emission)
    requires rest.queue == s.roster.queue && rest.deferredQueue == s.roster.deferredQueue && !next.Draining?
    requires !s.phase.Draining?
    ensures Grows(s, Serve(s, done, rest, next, e))
  {
    assert Timeline(s) <= Timeline(Serve(s, done, rest, next, e));
  }

  lemma OtherPhasesGrow(p: Parameters, s: State, e: Emission)
    requires s.phase.Idle? || s.phase.Unblocking? || s.phase.Awakening? || s.phase.Disposing? || s.phase.Reaching?
    requires s.phase.Idle? ==> s.roster.IsEmpty()
    ensures Grows(s, Next(p, s, e))
  {
    match s.phase
    case Idle => assert Timeline(s) <= Timeline(Start(s, e));
    case Unblocking =>
      ServeGrows(s, s.roster.unblock == [], s.roster.(unblock := Tail(s.roster.unblock)), Executing, e);
    case Awakening =>
      ServeGrows(s, s.roster.awake == [], s.roster.(awake := Tail(s.roster.awake)), Collecting(false, 0), e);
    case Disposing =>
      ServeGrows(s, s.roster.disposals == [], s.roster.(disposals := Tail(s.roster.disposals)), Reaching, e);
    case Reaching =>
      ServeGrows(s, s.roster.reachable == [], s.roster.(reachable := Tail(s.roster.reachable)), Looping, e);
  }

  lemma StepKeepsBehind(p: Parameters, d: Deferral, s: State, e: Emission)
    requires Behind(d, s) && IdleIsEmpty(s) && AllReceived(Next(p, s, e))
    ensures Behind(d, Next(p, s, e))
  {
    match s.phase
    case Collecting(_, _) => ReceiveKeepsBehind(p, d, s, e);
    case Draining(_, _) => DrainKeepsBehind(d, s, e);
    case Joining(_, _) => JoinKeepsBehind(d, s, e);
    case Releasing => ReleaseKeepsBehind(d, s, e);
    case Looping => LoopKeepsBehind(p, d, s, e);
    case Executing =>
      ExecuteGrows(p, s, e);
      GrowingKeepsBehind(d, s, Execute(p, s, e));
    case _ =>
      OtherPhasesGrow(p, s, e);
      GrowingKeepsBehind(d, s, Next(p, s, e));
  }

  /** Whatever the limits: from any moment of any run on, and for as long as no collection stops at the
      channel limit, each output that was deferred by then either is still deferred or is in line behind
      everything that was in line by then and behind the target of every stream item in the channel by
      then. */
  lemma StreamsFirstWhileAllReceived(p: Parameters, run: Run<State, Emission>, i: nat, j: nat, q: nat)
    requires Follows(run, IsInitial, Flushes(p)) && i <= j <= |run.steps|
    requires !run.states[i].phase.Draining? && q < |run.states[i].roster.deferredQueue|
    requires forall k | i < k <= j :: AllReceived(run.states[k])
    ensures Behind(DeferralAt(run.states[i], q), run.states[j])
  {
    var d := DeferralAt(run.states[i], q);
    var inv := (s: State) => IdleIsEmpty(s) && Behind(d, s);
    var rel := (s: State, e: Emission, s': State) => Flushes(p)(s, e, s') && AllReceived(s');
    forall s, e, s' | IdleIsEmpty(s) && Flushes(p)(s, e, s') ensures IdleIsEmpty(s') {
      StaysIdleOnlyEmpty(p, s, e);
    }
    AlwaysHolds(run, IsInitial, Flushes(p), IdleIsEmpty);
    assert d.channel[..0] == [];
    assert IsAt(d, run.states[i], Waiting(0, q));
    forall s, e, s' | inv(s) && rel(s, e, s') ensures inv(s') {
      StaysIdleOnlyEmpty(p, s, e);
      StepKeepsBehind(p, d, s, e);
    }
    forall k | i <= k < j ensures rel(run.states[k], run.steps[k], run.states[k + 1]) {
      assert Flushes(p)(run.states[k], run.steps[k], run.states[k + 1]);
    }
    KeptBetween(run, rel, inv, i, j);
  }

  /** In particular, if the channel is not limited then this is so in every run, whatever the loop limit. */
  lemma StreamsFirstUnderAnyLoopLimit(p: Parameters, run: Run<State, Emission>, i: nat, j: nat, q: nat)
    requires p.channelReceivedLimit.None?
    requires Follows(run, IsInitial, Flushes(p)) && i <= j <= |run.steps|
    requires !run.states[i].phase.Draining? && q < |run.states[i].roster.deferredQueue|
    ensures Behind(DeferralAt(run.states[i], q), run.states[j])
  {
    forall s, e, s' | AllReceived(s) && Flushes(p)(s, e, s') ensures AllReceived(s') {
      UnlimitedReceivesAll(p, s, e);
    }
    AlwaysHolds(run, IsInitial, Flushes(p), AllReceived);
    StreamsFirstWhileAllReceived(p, run, i, j, q);
  }

  lemma UnlimitedReceivesAll(p: Parameters, s: State, e: Emission)
    requires p.channelReceivedLimit.None? && AllReceived(s)
    ensures AllReceived(Next(p, s, e))
  {
  }

  // ---------- A limited channel ----------

  /** If the run has the output deferred at the i-th state, it keeps it behind the streams at the j-th. */
  ghost predicate KeepsBehind(p: Parameters, run: Run<State, Emission>, i: nat, j: nat, q: nat) {
    && Follows(run, IsInitial, Flushes(p)) && i <= j <= |run.steps|
    && !run.states[i].phase.Draining? && q < |run.states[i].roster.deferredQueue|
    ==> Behind(DeferralAt(run.states[i], q), run.states[j])
  }

  ghost predicate StreamsFirst(p: Parameters) {
    forall run, i: nat, j: nat, q: nat :: KeepsBehind(p, run, i, j, q)
  }

  // An operation whose task defers its final output, and the target of a stream of that task.
  const OUTPUT: Entity := 0
  const STREAM: Entity := 1

  /** A state with nothing in the flush's roster but the deferred output. */
  function WithOutput(phase: Phase, channel: seq<ChannelItem>, loopCount: nat): State {
    State(phase, EMPTY_ROSTER.(deferredQueue := [OUTPUT]), EMPTY_ROSTER, channel, [], loopCount, [], 0, loopCount)
  }

  /** The output is deferred while n commands and then a stream item are in the channel. */
  lemma OutputDeferred(p: Parameters, n: nat) returns (run: Run<State, Emission>)
    ensures Follows(run, IsInitial, Flushes(p))
    ensures run.Last() == WithOutput(Looping, Commands(n) + [StreamItem(STREAM)], 0)
  {
    run := Run([INITIAL], []);
    NothingHappens(INITIAL.(phase := Collecting(true, 0)));
    run := Idled(p, run);
    assert run.Last() == INITIAL.(phase := Collecting(true, 0));
    NothingHappens(INITIAL.(phase := Draining(true, true)));
    run := Idled(p, run);
    assert run.Last() == INITIAL.(phase := Draining(true, true));
    NothingHappens(INITIAL.(phase := Joining(true, true)));
    run := Idled(p, run);
    assert run.Last() == INITIAL.(phase := Joining(true, true));
    NothingHappens(INITIAL.(phase := Releasing));
    run := Idled(p, run);
    assert run.Last() == INITIAL.(phase := Releasing);
    run := Extended(p, run, NOTHING.(
      roster := EMPTY_ROSTER.(deferredQueue := [OUTPUT]), sends := Commands(n) + [StreamItem(STREAM)]));
  }

  /** A pass with nothing to do goes on to the channel. */
  lemma ChannelReached(p: Parameters, run: Run<State, Emission>, channel: seq<ChannelItem>)
    returns (longer: Run<State, Emission>)
    requires Follows(run, IsInitial, Flushes(p)) && !Reached(p.flushLoopLimit, 0)
    requires run.Last() == WithOutput(Looping, channel, 0)
    ensures Follows(longer, IsInitial, Flushes(p)) && longer.Last() == WithOutput(Collecting(false, 0), channel, 1)
    ensures |longer.steps| >= |run.steps| && longer.states[|run.steps|] == run.Last()
  {
    NothingHappens(WithOutput(Unblocking, channel, 1));
    longer := Idled(p, run);
    assert longer.Last() == WithOutput(Unblocking, channel, 1);
    NothingHappens(WithOutput(Executing, channel, 1));
    longer := Idled(p, longer);
    assert longer.Last() == WithOutput(Executing, channel, 1);
    NothingHappens(WithOutput(Awakening, channel, 1));
    longer := Idled(p, longer);
    assert longer.Last() == WithOutput(Awakening, channel, 1);
    NothingHappens(WithOutput(Collecting(false, 0), channel, 1));
    longer := Idled(p, longer);
  }

  /** With any limit on the channel there is a run that queues an output although a stream item that
      was in the channel when the output was deferred has not even been received. */
  lemma LimitedChannelOvertakes(p: Parameters) returns (run: Run<State, Emission>, i: nat)
    requires p.channelReceivedLimit.Some? && !Reached(p.flushLoopLimit, 0)
    ensures Follows(run, IsInitial, Flushes(p)) && i <= |run.steps|
    ensures !run.states[i].phase.Draining? && run.states[i].roster.deferredQueue == [OUTPUT]
    ensures StreamItem(STREAM) in run.states[i].channel
    ensures run.Last() == State(Joining(false, false), EMPTY_ROSTER.(queue := [OUTPUT]), EMPTY_ROSTER,
                            [StreamItem(STREAM)], [], 1, [], 0, 1)
  {
    var n := p.channelReceivedLimit.value + 1;
    run := OutputDeferred(p, n);
    i := |run.steps|;
    var channel := Commands(n) + [StreamItem(STREAM)];
    assert channel[|Commands(n)|] == StreamItem(STREAM);
    run := ChannelReached(p, run, channel);
    var rest := [StreamItem(STREAM)];
    assert run.Last().channel == Commands(p.channelReceivedLimit.value + 1) + rest;
    run := LimitUsedUp(p, run, rest);
    assert run.Last() == WithOutput(Draining(false, false), rest, 1);
    assert [] + [OUTPUT] == [OUTPUT];
    NothingHappens(run.Last().(
      roster := EMPTY_ROSTER.(queue := [OUTPUT]), phase := Joining(false, false)));
    run := Idled(p, run);
  }

  /** The next pass then executes the output, with the stream item still in the channel. */
  lemma LimitedChannelRunsOutputFirst(p: Parameters) returns (run: Run<State, Emission>, i: nat)
    requires p.channelReceivedLimit.Some? && !Reached(p.flushLoopLimit, 1)
    ensures Follows(run, IsInitial, Flushes(p)) && i <= |run.steps|
    ensures !run.states[i].phase.Draining? && run.states[i].roster.deferredQueue == [OUTPUT]
    ensures StreamItem(STREAM) in run.states[i].channel && STREAM !in Timeline(run.Last())
    ensures run.Last().executed == [OUTPUT] && run.Last().channel == [StreamItem(STREAM)]
  {
    run, i := LimitedChannelOvertakes(p);
    var s := run.Last();
    NothingHappens(s.(phase := Looping));
    run := Idled(p, run);
    assert run.Last() == s.(phase := Looping);
    NothingHappens(s.(phase := Unblocking, loopCount := 2, passes := 2));
    run := Idled(p, run);
    assert run.Last() == s.(phase := Unblocking, loopCount := 2, passes := 2);
    NothingHappens(s.(phase := Executing, loopCount := 2, passes := 2));
    run := Idled(p, run);
    assert run.Last() == s.(phase := Executing, loopCount := 2, passes := 2);
    run := Idled(p, run);
  }

  lemma {:induction false} StreamTargetOf(items: seq<ChannelItem>, target: Entity)
    requires StreamItem(target) in items
    ensures target in StreamTargets(items)
  {
    var n := |items| - 1;
    if items[n] != StreamItem(target) {
      StreamTargetOf(items[..n], target);
    }
  }

  lemma AllKeptBehind(p: Parameters, run: Run<State, Emission>, i: nat, j: nat, q: nat)
    requires p.channelReceivedLimit.None?
    ensures KeepsBehind(p, run, i, j, q)
  {
    if Follows(run, IsInitial, Flushes(p)) && i <= j <= |run.steps|
       && !run.states[i].phase.Draining? && q < |run.states[i].roster.deferredQueue| {
      StreamsFirstUnderAnyLoopLimit(p, run, i, j, q);
    }
  }

  lemma OvertakenUnlessUnlimited(p: Parameters) returns (run: Run<State, Emission>, i: nat)
    requires p.channelReceivedLimit.Some? && !Reached(p.flushLoopLimit, 0)
    ensures run.Valid() && i <= |run.steps| && !KeepsBehind(p, run, i, |run.steps|, 0)
  {
    run, i := LimitedChannelOvertakes(p);
    var d := DeferralAt(run.states[i], 0);
    StreamTargetOf(d.channel, STREAM);
    assert d.channel[..|d.channel|] == d.channel;
    assert Timeline(run.Last()) == [OUTPUT];
    NotBehind(d, run.Last());
  }

  /** Nothing is in line but the output, although a stream item should be ahead of it. */
  lemma NotBehind(d: Deferral, s: State)
    requires STREAM in StreamTargets(d.channel[..|d.channel|])
    requires Timeline(s) == [OUTPUT] && s.deferred == EMPTY_ROSTER && s.roster.deferredQueue == []
    ensures !Behind(d, s)
  {
    assert STREAM in Due(d, |d.channel|);
  }

  /** Outputs stay behind streams in every run exactly if the channel is not limited. (With a loop limit
      of zero nothing would ever be executed.) */
  lemma StreamsFirstIffChannelUnlimited(p: Parameters)
    requires !Reached(p.flushLoopLimit, 0)
    ensures StreamsFirst(p) <==> p.channelReceivedLimit.None?
  {
    if p.channelReceivedLimit.None? {
      forall run, i: nat, j: nat, q: nat ensures KeepsBehind(p, run, i, j, q) {
        AllKeptBehind(p, run, i, j, q);
      }
    } else {
      var run, i := OvertakenUnlessUnlimited(p);
    }
  }
}
