/** Nothing that is handed to a flush gets lost, in any list of a roster and over any number of flushes, and
    each list is served in order. */
module FlushConservation {
  import opened Common
  import opened FlushMachine
  import opened FlushOrder
  import opened Rosters
  import opened Runs

  // The lists that a flush serves, named after what is done with their entries.
  datatype Kind = Executions | Awakenings | Unblocks | Despawns | Disposals | Checks

  function Listed(r: Roster, kind: Kind): seq<Entity> {
    match kind
    case Executions => r.queue
    case Awakenings => r.awake
    case Unblocks => r.unblock
    case Despawns => r.sessionDespawn
    case Disposals => r.disposals
    case Checks => r.reachable
  }

  function Times(s: seq<Entity>, x: Entity): nat {
    multiset(s)[x]
  }

  /** How often a roster has an entry. Deferred wake-ups lead to executions as well. */
  function CountIn(r: Roster, kind: Kind, x: Entity): nat {
    Times(Listed(r, kind), x) + if kind.Executions? then Times(r.deferredQueue, x) else 0
  }

  /** How often an entry is waiting somewhere. Woken tasks first wait in the wake queue. */
  function Waiting(s: State, kind: Kind, x: Entity): nat {
    CountIn(s.roster, kind, x) + CountIn(s.deferred, kind, x) + if kind.Awakenings? then Times(s.wakes, x) else 0
  }

  function First(s: seq<Entity>): seq<Entity> {
    if s == [] then [] else [s[0]]
  }

  /** The list that is served one by one in a phase, if there is one. */
  function ListServedIn(phase: Phase): Option<Kind> {
    match phase
    case Unblocking => Some(Unblocks)
    case Executing => Some(Executions)
    case Awakening => Some(Awakenings)
    case Disposing => Some(Disposals)
    case Reaching => Some(Checks)
    case _ => None
  }

  /** What a step serves: the first entry of the list whose turn it is, or all sessions to be despawned. */
  function ServedIn(s: State, kind: Kind): seq<Entity> {
    if ListServedIn(s.phase) == Some(kind) then First(Listed(s.roster, kind))
    else if s.phase == Looping && kind == Despawns then s.roster.sessionDespawn
    else []
  }

  /** The step runs code that has access to the flush's roster. */
  ghost predicate HasRoster(p: Parameters, s: State) {
    match s.phase
    case Idle => false
    case Collecting(_, _) => s.channel != []
    case Draining(_, _) => true
    case Joining(_, _) => true
    case Releasing => true
    case Looping => s.roster != EMPTY_ROSTER && (p.flushLoopLimit.Some? ==> s.loopCount < p.flushLoopLimit.value)
    case Unblocking => s.roster.unblock != []
    case Executing => s.roster.queue != []
    case Awakening => s.roster.awake != []
    case Disposing => s.roster.disposals != []
    case Reaching => s.roster.reachable != []
  }

  /** How often an entry is brought by a stream item that is received. */
  function ReceivedIn(s: State, kind: Kind, x: Entity): nat {
    if kind.Executions? && s.phase.Collecting? && s.channel != [] then Times(WokenBy(s.channel[0]), x) else 0
  }

  /** How often it is handed over beyond the reach of the flush's roster, */
  function Beyond(e: Emission, kind: Kind, x: Entity): nat {
    CountIn(e.later, kind, x) + if kind.Awakenings? then Times(e.wakes, x) else 0
  }

  /** and altogether in a step. */
  ghost function Brought(p: Parameters, s: State, e: Emission, kind: Kind, x: Entity): nat {
    ReceivedIn(s, kind, x) + Beyond(e, kind, x) + if HasRoster(p, s) then CountIn(e.roster, kind, x) else 0
  }

  // ---------- One step ----------

  lemma TimesConcat(a: seq<Entity>, b: seq<Entity>, x: Entity)
    ensures Times(a + b, x) == Times(a, x) + Times(b, x)
  {
  }

  lemma AppendCounts(a: Roster, b: Roster, kind: Kind, x: Entity)
    ensures CountIn(a.Append(b), kind, x) == CountIn(a, kind, x) + CountIn(b, kind, x)
  {
    TimesConcat(Listed(a, kind), Listed(b, kind), x);
    TimesConcat(a.deferredQueue, b.deferredQueue, x);
  }

  lemma HandleAdds(s: State, e: Emission, kind: Kind, x: Entity)
    ensures Waiting(Meanwhile(s, e), kind, x) == Waiting(s, kind, x) + Beyond(e, kind, x)
    ensures Waiting(Handle(s, e), kind, x) == Waiting(s, kind, x) + Beyond(e, kind, x) + CountIn(e.roster, kind, x)
  {
    AppendCounts(s.roster, e.roster, kind, x);
    AppendCounts(s.deferred, e.later, kind, x);
    TimesConcat(s.wakes, e.wakes, x);
  }

  /** What is waiting or handed over in a step is served in it or waits afterwards. */
  ghost predicate Balances(p: Parameters, s: State, e: Emission, kind: Kind, x: Entity) {
    Waiting(s, kind, x) + Brought(p, s, e, kind, x) == Times(ServedIn(s, kind), x) + Waiting(Next(p, s, e), kind, x)
  }

  /** What a step does by itself, before its handler runs. */
  ghost predicate Moves(s: State, s': State, kind: Kind, x: Entity) {
    Waiting(s, kind, x) + ReceivedIn(s, kind, x) == Times(ServedIn(s, kind), x) + Waiting(s', kind, x)
  }

  lemma WithRosterBalances(p: Parameters, s: State, s': State, e: Emission, kind: Kind, x: Entity)
    requires HasRoster(p, s) && Moves(s, s', kind, x) && Next(p, s, e) == Handle(s', e)
    ensures Balances(p, s, e, kind, x)
  {
    HandleAdds(s', e, kind, x);
  }

  lemma WithoutRosterBalances(p: Parameters, s: State, s': State, e: Emission, kind: Kind, x: Entity)
    requires !HasRoster(p, s) && Moves(s, s', kind, x) && Next(p, s, e) == Meanwhile(s', e)
    ensures Balances(p, s, e, kind, x)
  {
    HandleAdds(s', e, kind, x);
  }

  lemma TakingOverKeeps(s: State, kind: Kind, x: Entity)
    ensures Waiting(TakeOver(s), kind, x) == Waiting(s, kind, x)
  {
    AppendCounts(s.roster, s.deferred, kind, x);
    assert CountIn(EMPTY_ROSTER, kind, x) == 0;
  }

  lemma ReceivedMoves(s: State, s': State, kind: Kind, x: Entity)
    requires s.phase.Collecting? && s.channel != [] && s'.deferred == s.deferred && s'.wakes == s.wakes
    requires s'.roster == s.roster.(queue := s.roster.queue + WokenBy(s.channel[0]))
    ensures Moves(s, s', kind, x)
  {
    TimesConcat(s.roster.queue, WokenBy(s.channel[0]), x);
  }

  lemma ReceivingHandles(p: Parameters, s: State, e: Emission) returns (s': State)
    requires s.phase.Collecting? && s.channel != []
    ensures s'.roster == s.roster.(queue := s.roster.queue + WokenBy(s.channel[0]))
    ensures s'.deferred == s.deferred && s'.wakes == s.wakes
    ensures Next(p, s, e) == Handle(s', e) && HasRoster(p, s)
  {
    s' := s.(channel := s.channel[1..], roster := s.roster.(queue := s.roster.queue + WokenBy(s.channel[0])),
             phase := if Reached(p.channelReceivedLimit, s.phase.received) then Draining(s.phase.first, false)
                      else Collecting(s.phase.first, s.phase.received + 1));
  }

  lemma ReceiveBalances(p: Parameters, s: State, e: Emission, kind: Kind, x: Entity)
    requires s.phase.Collecting? && s.channel != []
    ensures Balances(p, s, e, kind, x)
  {
    var s' := ReceivingHandles(p, s, e);
    ReceivedMoves(s, s', kind, x);
    WithRosterBalances(p, s, s', e, kind, x);
  }

  lemma DrainBalances(p: Parameters, s: State, e: Emission, kind: Kind, x: Entity)
    requires s.phase.Draining?
    ensures Balances(p, s, e, kind, x)
  {
    var s' := s.(roster := s.roster.ProcessDeferrals(), phase := Joining(s.phase.first, s.phase.receivedAll));
    TimesConcat(s.roster.queue, s.roster.deferredQueue, x);
    assert CountIn(s'.roster, kind, x) == CountIn(s.roster, kind, x);
    WithRosterBalances(p, s, s', e, kind, x);
  }

  lemma WakesJoin(s: State, s': State, kind: Kind, x: Entity)
    requires s'.roster == s.roster.(awake := s.roster.awake + s.wakes) && s'.wakes == []
    requires s'.deferred == s.deferred
    ensures Waiting(s', kind, x) == Waiting(s, kind, x)
  {
    TimesConcat(s.roster.awake, s.wakes, x);
  }

  lemma JoiningHandles(p: Parameters, s: State, e: Emission) returns (s': State)
    requires s.phase.Joining?
    ensures s'.roster == TakeOver(s).roster.(awake := TakeOver(s).roster.awake + s.wakes)
    ensures s'.deferred == TakeOver(s).deferred && s'.wakes == []
    ensures Next(p, s, e) == Handle(s', e) && HasRoster(p, s)
  {
    var joined := TakeOver(s);
    s' := joined.(roster := joined.roster.(awake := joined.roster.awake + s.wakes), wakes := [],
                  phase := if s.phase.first then Releasing else if s.phase.receivedAll then Disposing else Looping);
  }

  lemma JoinBalances(p: Parameters, s: State, e: Emission, kind: Kind, x: Entity)
    requires s.phase.Joining?
    ensures Balances(p, s, e, kind, x)
  {
    var s' := JoiningHandles(p, s, e);
    TakingOverKeeps(s, kind, x);
    WakesJoin(TakeOver(s), s', kind, x);
    WithRosterBalances(p, s, s', e, kind, x);
  }

  lemma ReleaseBalances(p: Parameters, s: State, e: Emission, kind: Kind, x: Entity)
    requires s.phase.Releasing?
    ensures Balances(p, s, e, kind, x)
  {
    var s' := s.(phase := Looping);
    assert ReceivedIn(s, kind, x) == 0 == Times(ServedIn(s, kind), x);
    HandleAdds(s', e, kind, x);
    TakingOverKeeps(Handle(s', e), kind, x);
  }

  /** Despawning serves all sessions at once. */
  lemma DespawnMoves(s: State, s': State, kind: Kind, x: Entity)
    requires s.phase.Looping? && s'.roster == s.roster.(sessionDespawn := [])
    requires s'.deferred == s.deferred && s'.wakes == s.wakes
    ensures Moves(s, s', kind, x)
  {
  }

  lemma PostponeMoves(s: State, s': State, kind: Kind, x: Entity)
    requires s.phase.Looping? && s'.roster == EMPTY_ROSTER && s'.wakes == s.wakes
    requires s'.deferred == s.deferred.Append(s.roster.(sessionDespawn := []))
    ensures Moves(s, s', kind, x)
  {
    var drained := s.(roster := s.roster.(sessionDespawn := []));
    DespawnMoves(s, drained, kind, x);
    AppendCounts(s.deferred, drained.roster, kind, x);
    assert CountIn(EMPTY_ROSTER, kind, x) == 0;
  }

  lemma LoopBalances(p: Parameters, s: State, e: Emission, kind: Kind, x: Entity)
    requires s.phase.Looping?
    ensures Balances(p, s, e, kind, x)
  {
    if s.roster == EMPTY_ROSTER {
      DespawnMoves(s, s.(phase := Idle), kind, x);
      WithoutRosterBalances(p, s, s.(phase := Idle), e, kind, x);
    } else {
      var drained := s.(roster := s.roster.(sessionDespawn := []));
      if Reached(p.flushLoopLimit, s.loopCount) {
        var s' := drained.(phase := Idle, deferred := s.deferred.Append(drained.roster), roster := EMPTY_ROSTER);
        PostponeMoves(s, s', kind, x);
        WithoutRosterBalances(p, s, s', e, kind, x);
      } else {
        var s' := drained.(phase := Unblocking, loopCount := s.loopCount + 1, passes := s.passes + 1);
        DespawnMoves(s, s', kind, x);
        WithRosterBalances(p, s, s', e, kind, x);
      }
    }
  }

  /** Taking the first entry out of one of the lists. */
  lemma FirstAndTail(s: seq<Entity>, x: Entity)
    ensures s == First(s) + Tail(s) && Times(s, x) == Times(First(s), x) + Times(Tail(s), x)
  {
    assert s == First(s) + Tail(s);
    TimesConcat(First(s), Tail(s), x);
  }

  /** The roster without the first entry of the list. */
  function Without(r: Roster, kind: Kind): Roster {
    match kind
    case Executions => r.(queue := Tail(r.queue))
    case Awakenings => r.(awake := Tail(r.awake))
    case Unblocks => r.(unblock := Tail(r.unblock))
    case Despawns => r.(sessionDespawn := Tail(r.sessionDespawn))
    case Disposals => r.(disposals := Tail(r.disposals))
    case Checks => r.(reachable := Tail(r.reachable))
  }

  lemma ServingMoves(s: State, s': State, served: Kind, kind: Kind, x: Entity)
    requires ListServedIn(s.phase) == Some(served)
    requires s'.roster == Without(s.roster, served) && s'.deferred == s.deferred && s'.wakes == s.wakes
    ensures Moves(s, s', kind, x)
  {
    FirstAndTail(Listed(s.roster, kind), x);
  }

  lemma ServingHandles(p: Parameters, s: State, e: Emission, served: Kind) returns (s': State)
    requires ListServedIn(s.phase) == Some(served) && Listed(s.roster, served) != []
    ensures s'.roster == Without(s.roster, served) && s'.deferred == s.deferred && s'.wakes == s.wakes
    ensures Next(p, s, e) == Handle(s', e) && HasRoster(p, s)
  {
    s' := s.(roster := Without(s.roster, served));
    if s.phase == Executing {
      s' := s'.(executed := s.executed + [s.roster.queue[0]], loopCount := s.loopCount + 1,
                phase := if Reached(p.flushLoopLimit, s.loopCount + 1) then Awakening else Executing);
    }
  }

  lemma ServedOut(p: Parameters, s: State, e: Emission, served: Kind) returns (s': State)
    requires ListServedIn(s.phase) == Some(served) && Listed(s.roster, served) == []
    ensures s'.roster == Without(s.roster, served) && s'.deferred == s.deferred && s'.wakes == s.wakes
    ensures Next(p, s, e) == Meanwhile(s', e) && !HasRoster(p, s)
  {
    s' := s.(phase := Next(p, s, e).phase);
  }

  lemma ServeBalances(p: Parameters, s: State, e: Emission, kind: Kind, x: Entity)
    requires ListServedIn(s.phase).Some?
    ensures Balances(p, s, e, kind, x)
  {
    var served := ListServedIn(s.phase).value;
    if Listed(s.roster, served) != [] {
      var s' := ServingHandles(p, s, e, served);
      ServingMoves(s, s', served, kind, x);
      WithRosterBalances(p, s, s', e, kind, x);
    } else {
      var s' := ServedOut(p, s, e, served);
      ServingMoves(s, s', served, kind, x);
      WithoutRosterBalances(p, s, s', e, kind, x);
    }
  }

  lemma BeginBalances(p: Parameters, s: State, e: Emission, kind: Kind, x: Entity)
    requires s.phase.Idle? && s.roster == EMPTY_ROSTER
    ensures Balances(p, s, e, kind, x)
  {
    var s' := s.(phase := Collecting(true, 0), roster := EMPTY_ROSTER, loopCount := 0, earlier := |s.executed|,
                 passes := 0);
    WithoutRosterBalances(p, s, s', e, kind, x);
  }

  lemma ReceivedOut(p: Parameters, s: State, e: Emission, kind: Kind, x: Entity)
    requires s.phase.Collecting? && s.channel == []
    ensures Balances(p, s, e, kind, x)
  {
    WithoutRosterBalances(p, s, s.(phase := Draining(s.phase.first, true)), e, kind, x);
  }

  lemma StepBalances(p: Parameters, s: State, e: Emission, kind: Kind, x: Entity)
    requires IdleIsEmpty(s)
    ensures Balances(p, s, e, kind, x)
  {
    if ListServedIn(s.phase).Some? {
      ServeBalances(p, s, e, kind, x);
    } else {
      match s.phase
      case Idle => BeginBalances(p, s, e, kind, x);
      case Collecting(_, _) =>
        if s.channel == [] {
          ReceivedOut(p, s, e, kind, x);
        } else {
          ReceiveBalances(p, s, e, kind, x);
        }
      case Draining(_, _) => DrainBalances(p, s, e, kind, x);
      case Joining(_, _) => JoinBalances(p, s, e, kind, x);
      case Releasing => ReleaseBalances(p, s, e, kind, x);
      case Looping => LoopBalances(p, s, e, kind, x);
    }
  }

  // ---------- Whole runs ----------

  /** How often an entry has been handed over in the first k steps of a run, */
  ghost function Entered(p: Parameters, run: Run<State, Emission>, k: nat, kind: Kind, x: Entity): nat
    requires run.Valid() && k <= |run.steps|
  {
    if k == 0 then 0
    else Entered(p, run, k - 1, kind, x) + Brought(p, run.states[k - 1], run.steps[k - 1], kind, x)
  }

  /** and all that has been served in them, in order. */
  ghost function Served(run: Run<State, Emission>, k: nat, kind: Kind): seq<Entity>
    requires run.Valid() && k <= |run.steps|
  {
    if k == 0 then [] else Served(run, k - 1, kind) + ServedIn(run.states[k - 1], kind)
  }

  ghost predicate ConservedAt(p: Parameters, run: Run<State, Emission>, k: nat, kind: Kind, x: Entity) {
    && run.Valid() && k <= |run.steps| && IdleIsEmpty(run.states[k])
    && Entered(p, run, k, kind, x) == Times(Served(run, k, kind), x) + Waiting(run.states[k], kind, x)
  }

  lemma StepConserves(p: Parameters, run: Run<State, Emission>, k: nat, kind: Kind, x: Entity)
    requires Follows(run, IsInitial, Flushes(p)) && 0 < k <= |run.steps|
    requires ConservedAt(p, run, k - 1, kind, x)
    ensures ConservedAt(p, run, k, kind, x)
  {
    var s, e := run.states[k - 1], run.steps[k - 1];
    assert Flushes(p)(run.states[k - 1], run.steps[k - 1], run.states[k - 1 + 1]);
    StepBalances(p, s, e, kind, x);
    StaysIdleOnlyEmpty(p, s, e);
    TimesConcat(Served(run, k - 1, kind), ServedIn(s, kind), x);
  }

  lemma NothingAtFirst(p: Parameters, run: Run<State, Emission>, k: nat, kind: Kind, x: Entity)
    requires Follows(run, IsInitial, Flushes(p)) && k == 0
    ensures ConservedAt(p, run, k, kind, x)
  {
  }

  lemma {:induction false} ConservedThroughout(p: Parameters, run: Run<State, Emission>, k: nat, kind: Kind, x: Entity)
    requires Follows(run, IsInitial, Flushes(p)) && 0 < k <= |run.steps|
    ensures ConservedAt(p, run, k, kind, x)
  {
    if k > 1 {
      ConservedThroughout(p, run, k - 1, kind, x);
    } else {
      NothingAtFirst(p, run, k - 1, kind, x);
    }
    StepConserves(p, run, k, kind, x);
  }

  /** Whatever has ever been handed over has been served or is still waiting, also across a flush that has hit
      its limit and the next one picking up what it has left. */
  lemma FlushConserves(p: Parameters, run: Run<State, Emission>, k: nat, kind: Kind, x: Entity)
    requires Follows(run, IsInitial, Flushes(p)) && k <= |run.steps|
    ensures Entered(p, run, k, kind, x) == Times(Served(run, k, kind), x) + Waiting(run.states[k], kind, x)
    ensures IdleIsEmpty(run.states[k])
  {
    if k > 0 {
      ConservedThroughout(p, run, k, kind, x);
    }
  }

  /** The history of a state is what has been executed. */
  lemma {:induction false} ExecutedAreServed(p: Parameters, run: Run<State, Emission>, k: nat)
    requires Follows(run, IsInitial, Flushes(p)) && k <= |run.steps|
    ensures run.states[k].executed == Served(run, k, Executions)
  {
    if k > 0 {
      ExecutedAreServed(p, run, k - 1);
      assert Flushes(p)(run.states[k - 1], run.steps[k - 1], run.states[k - 1 + 1]);
    }
  }
}
