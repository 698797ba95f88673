/** A deferral can outlive its input. Cleaning a session out of an operation leaves its deferrals in the
    ledger. Or the input is taken after its session was unpaused, and the session is paused again before
    the deferrals of unpaused sessions are let go. */
module StaleDeferrals {
  import opened Common
  import opened Debugger
  import opened Intake
  import opened IntakeMachine
  import opened Rosters
  import opened Runs
  import opened Sessions
  import opened UnheldInputs

  const OP: Entity := 7
  const FIRST := Input(1, 0, "first")

  function Second(session: Entity): Input {
    Input(session, 1, "second")
  }

  const NO_SESSIONS: seq<Entity> := []

  /** A world in which messages have been delivered to one operation, as far as it matters. */
  function Scene(store: Store, roster: Roster, paused: set<Entity>, deferrals: seq<RequestId>): World {
    World(map[], map[1 := Active, 2 := Active], map[OP := Holding(store)], roster, EMPTY_ROSTER,
          DebugState({}, {}, paused), Ledger(deferrals, {}), 0, 0)
  }

  const EMPTY_STORE := Store([], 0, false, [], [])
  const ONE_STORED := Store([FIRST], 1, false, [FIRST], [])
  const WAKE_OP := EMPTY_ROSTER.(queue := [OP])

  function BothStored(session: Entity): Store {
    Store([FIRST, Second(session)], 2, false, [FIRST, Second(session)], [])
  }

  function OneLeft(session: Entity): Store {
    Store([Second(session)], 2, false, [FIRST, Second(session)], [FIRST])
  }

  /** The first input has been taken, but its deferral is still there, and its session is paused. */
  function Stale(session: Entity): World {
    Scene(OneLeft(session), EMPTY_ROSTER, {1}, [IdOf(OP, FIRST)])
  }

  lemma Continue(run: Run<World, Step>, step: Step) returns (longer: Run<World, Step>)
    requires Follows(run, Initial, FreshlyStepsTo)
    requires Enabled(run.Last(), step) && FreshStep(run.Last(), step)
    ensures Follows(longer, Initial, FreshlyStepsTo) && longer.Last() == Next(run.Last(), step)
  {
    longer := Continued(run, Initial, FreshlyStepsTo, step, Next(run.Last(), step));
  }

  lemma SessionInItself(h: Hierarchy, session: Entity)
    ensures IsDescendent(h, session, session)
  {
    assert Ancestor(h, session, 0) == Some(session);
  }

  /** The first message arrives and is held back. */
  lemma HeldBackFirst() returns (run: Run<World, Step>)
    ensures Follows(run, Initial, FreshlyStepsTo)
    ensures run.Last() == Scene(ONE_STORED, EMPTY_ROSTER, {1}, [IdOf(OP, FIRST)])
  {
    run := Run([Scene(EMPTY_STORE, EMPTY_ROSTER, {}, [])], []);
    GiveFirst();
    run := Continue(run, Give(1, OP, "first", FlushRoster));
    assert run.Last() == Scene(ONE_STORED, WAKE_OP, {}, []);
    run := Continue(run, Step.Pause(1));
    assert {} + {1} == {1};
    assert run.Last() == Scene(ONE_STORED, WAKE_OP, {1}, []);
    HoldFirst();
    run := Continue(run, Execute(NO_SESSIONS));
  }

  lemma GiveFirst()
    ensures Next(Scene(EMPTY_STORE, EMPTY_ROSTER, {}, []), Give(1, OP, "first", FlushRoster))
         == Scene(ONE_STORED, WAKE_OP, {}, [])
  {
    assert [] + [FIRST] == [FIRST] && [] + [OP] == [OP];
    assert map[OP := Holding(EMPTY_STORE)][OP := Holding(ONE_STORED)] == map[OP := Holding(ONE_STORED)];
  }

  lemma HoldFirst()
    ensures Next(Scene(ONE_STORED, WAKE_OP, {1}, []), Execute(NO_SESSIONS))
         == Scene(ONE_STORED, EMPTY_ROSTER, {1}, [IdOf(OP, FIRST)])
  {
    var w := Scene(ONE_STORED, EMPTY_ROSTER, {1}, []);
    var l := Ledger([IdOf(OP, FIRST)], {});
    SessionInItself(map[], 1);
    assert w.debug.IsPaused(map[], 1);
    assert ScanFrom(map[], NO_SESSIONS, OP, [FIRST], w.debug, l, 1) == TakeResult(w.debug, l, None);
    assert [] + [IdOf(OP, FIRST)] == [IdOf(OP, FIRST)];
    assert w.ledger.IsAllowed(IdOf(OP, FIRST)) == (false, l);
    assert ScanFrom(map[], NO_SESSIONS, OP, [FIRST], w.debug, w.ledger, 0) == TakeResult(w.debug, l, None);
  }

  /** Its session is unpaused, another message arrives, and the first one is taken. Then the session is
      paused again. */
  lemma BecomesStale(session: Entity) returns (run: Run<World, Step>)
    requires session == 1 || session == 2
    ensures Follows(run, Initial, FreshlyStepsTo) && run.Last() == Stale(session)
  {
    var deferrals := [IdOf(OP, FIRST)];
    run := HeldBackFirst();
    run := Continue(run, Step.Unpause(1));
    assert {1} - {1} == {};
    assert run.Last() == Scene(ONE_STORED, EMPTY_ROSTER, {}, deferrals);
    GiveSecond(session);
    run := Continue(run, Give(session, OP, "second", FlushRoster));
    assert run.Last() == Scene(BothStored(session), WAKE_OP, {}, deferrals);
    TakeFirst(session);
    run := Continue(run, Execute(NO_SESSIONS));
    assert run.Last() == Scene(OneLeft(session), EMPTY_ROSTER, {}, deferrals);
    assert {} + {1} == {1};
    run := Continue(run, Step.Pause(1));
  }

  lemma GiveSecond(session: Entity)
    requires session == 1 || session == 2
    ensures var w := Scene(ONE_STORED, EMPTY_ROSTER, {}, [IdOf(OP, FIRST)]);
            && Next(w, Give(session, OP, "second", FlushRoster))
            == Scene(BothStored(session), WAKE_OP, {}, [IdOf(OP, FIRST)])
            && FreshId(w, session, OP)
  {
    assert [FIRST] + [Second(session)] == [FIRST, Second(session)] && [] + [OP] == [OP];
    assert map[OP := Holding(ONE_STORED)][OP := Holding(BothStored(session))]
        == map[OP := Holding(BothStored(session))];
  }

  lemma TakeFirst(session: Entity)
    ensures Next(Scene(BothStored(session), WAKE_OP, {}, [IdOf(OP, FIRST)]), Execute(NO_SESSIONS))
         == Scene(OneLeft(session), EMPTY_ROSTER, {}, [IdOf(OP, FIRST)])
  {
    var w := Scene(BothStored(session), EMPTY_ROSTER, {}, [IdOf(OP, FIRST)]);
    assert RemoveAt([FIRST, Second(session)], 0) == [Second(session)] && [] + [FIRST] == [FIRST];
    assert map[OP := Holding(BothStored(session))][OP := Holding(OneLeft(session))]
        == map[OP := Holding(OneLeft(session))];
    assert [OP][1..] == [];
    assert !w.debug.IsActive();
    assert TakeAt(w, OP, NO_SESSIONS) == Scene(OneLeft(session), EMPTY_ROSTER, {}, [IdOf(OP, FIRST)]);
  }

  /** After a step on the stale deferral, */
  const STEPPED := Stale(1).(
    ledger := Ledger([], {IdOf(OP, FIRST)}), deferred := EMPTY_ROSTER.(queue := [OP]), stepped := 1)

  /** and when the flush has taken over what the step has queued. */
  const COLLECTED := STEPPED.(roster := EMPTY_ROSTER.(queue := [OP]), deferred := EMPTY_ROSTER)

  /** A step turns the only deferral into a permit. */
  lemma PopOnly(operation: Option<Entity>)
    requires operation == None || operation == Some(OP)
    ensures Ledger([IdOf(OP, FIRST)], {}).PopNext(map[], 1, operation)
         == (Some(IdOf(OP, FIRST)), Ledger([], {IdOf(OP, FIRST)}))
  {
    var l := Ledger([IdOf(OP, FIRST)], {});
    SessionInItself(map[], 1);
    assert StepMatches(map[], 1, operation, l.deferrals[0]);
    assert FirstMatch(map[], 1, operation, l.deferrals) == 0;
    assert RemoveAt(l.deferrals, 0) == [] && l.allow + {IdOf(OP, FIRST)} == {IdOf(OP, FIRST)};
  }

  lemma ReleaseStale(operation: Option<Entity>)
    requires operation == None || operation == Some(OP)
    ensures FreshlyStepsTo(Stale(1), DebugStep(1, operation), STEPPED)
  {
    PopOnly(operation);
    assert [] + [OP] == [OP];
    assert StepDebugger(Stale(1), 1, operation) == STEPPED;
  }

  lemma CollectStepped()
    ensures FreshlyStepsTo(STEPPED, CollectDeferred, COLLECTED)
  {
    assert [] + [OP] == [OP];
  }

  /** A step on a stale deferral, followed by the execution that it has queued, takes nothing, although
      the session has a message stored at the operation and no older request of any session is held
      back there. The permit for the message that is gone stays outstanding. */
  lemma StaleStepTakesNothing(operation: Option<Entity>) returns (run: Run<World, Step>, i: nat)
    requires operation == None || operation == Some(OP)
    ensures Follows(run, Initial, FreshlyStepsTo) && i + 3 == |run.steps|
    ensures run.states[i] == Stale(1) && run.states[i].debug.IsPaused(map[], 1)
    ensures run.steps[i..] == [DebugStep(1, operation), CollectDeferred, Execute(NO_SESSIONS)]
    ensures run.Last().slots == run.states[i].slots && run.Last().ledger.allow == {IdOf(OP, FIRST)}
  {
    var stale := BecomesStale(1);
    i := |stale.steps|;
    SessionInItself(map[], 1);
    ReleaseStale(operation);
    CollectStepped();
    var found := FindNothing(COLLECTED);
    run := ContinuedThrice(stale, Initial, FreshlyStepsTo,
      (DebugStep(1, operation), CollectDeferred, Execute(NO_SESSIONS)), (STEPPED, COLLECTED, found));
    assert run.states[i] == stale.Last();
  }

  lemma FindNothing(w: World) returns (w': World)
    requires w.hierarchy == map[] && w.slots == Stale(1).slots && w.debug == Stale(1).debug
    requires w.ledger == Ledger([], {IdOf(OP, FIRST)}) && w.roster.queue == [OP]
    ensures FreshlyStepsTo(w, Execute(NO_SESSIONS), w')
    ensures w'.slots == w.slots && w'.ledger.allow == w.ledger.allow
  {
    w' := Next(w, Execute(NO_SESSIONS));
    var items := [Second(1)];
    var id := IdOf(OP, Second(1));
    var l := Ledger([id], w.ledger.allow);
    SessionInItself(map[], 1);
    assert w.debug.IsPaused(map[], 1);
    assert [] + [id] == [id];
    assert w.ledger.IsAllowed(id) == (false, l);
    assert ScanFrom(map[], NO_SESSIONS, OP, items, w.debug, l, 1) == TakeResult(w.debug, l, None);
    assert ScanFrom(map[], NO_SESSIONS, OP, items, w.debug, w.ledger, 0) == TakeResult(w.debug, l, None);
  }

  /** Cleaning the session out of the operation leaves its deferral stale as well. */
  lemma CleanedUpStaleStep(operation: Option<Entity>) returns (run: Run<World, Step>, i: nat)
    requires operation == None || operation == Some(OP)
    ensures Follows(run, Initial, FreshlyStepsTo) && i + 2 == |run.steps|
    ensures run.states[i] == Scene(ONE_STORED, EMPTY_ROSTER, {1}, [IdOf(OP, FIRST)])
    ensures run.steps[i..] == [Cleanup(1, OP), DebugStep(1, operation)]
    ensures var w := run.Last();
            && w.slots == map[OP := Holding(CLEANED)] && w.ledger == Ledger([], {IdOf(OP, FIRST)})
            && w.deferred.queue == [OP]
  {
    var held := HeldBackFirst();
    i := |held.steps|;
    var cleaned := Scene(CLEANED, EMPTY_ROSTER, {1}, [IdOf(OP, FIRST)]);
    CleanFirst();
    var r1 := Continued(held, Initial, FreshlyStepsTo, Cleanup(1, OP), cleaned);
    var stepped := ReleaseCleaned(operation);
    run := Continued(r1, Initial, FreshlyStepsTo, DebugStep(1, operation), stepped);
    assert run.states[i] == r1.states[i] == held.Last();
    assert run.steps[i] == r1.steps[i];
  }

  const CLEANED := Store([], 1, false, [FIRST], [FIRST])

  lemma CleanFirst()
    ensures FreshlyStepsTo(Scene(ONE_STORED, EMPTY_ROSTER, {1}, [IdOf(OP, FIRST)]), Cleanup(1, OP),
                           Scene(CLEANED, EMPTY_ROSTER, {1}, [IdOf(OP, FIRST)]))
  {
    assert [FIRST][..0] == [];
    assert Filter([FIRST], InSession(1)) == [FIRST] && Filter([FIRST], NotInSession(1)) == [];
    assert map[OP := Holding(ONE_STORED)][OP := Holding(CLEANED)] == map[OP := Holding(CLEANED)];
  }

  lemma ReleaseCleaned(operation: Option<Entity>) returns (stepped: World)
    requires operation == None || operation == Some(OP)
    ensures FreshlyStepsTo(Scene(CLEANED, EMPTY_ROSTER, {1}, [IdOf(OP, FIRST)]), DebugStep(1, operation), stepped)
    ensures stepped.slots == map[OP := Holding(CLEANED)] && stepped.ledger == Ledger([], {IdOf(OP, FIRST)})
    ensures stepped.deferred.queue == [OP]
  {
    PopOnly(operation);
    assert [] + [OP] == [OP];
    stepped := StepDebugger(Scene(CLEANED, EMPTY_ROSTER, {1}, [IdOf(OP, FIRST)]), 1, operation);
  }

  /** A stale deferral also stands in for the wake-up of another message. Here a message of a session that
      is not paused is stored and not held back, but nothing is queued for its operation, and letting go
      of the deferrals of unpaused sessions changes nothing. */
  lemma StaleDeferralStrands() returns (run: Run<World, Step>)
    ensures Follows(run, Initial, FreshlyStepsTo)
    ensures var w := run.Last();
            && Holds(w, OP) && w.slots[OP].store.items == [Second(2)]
            && !w.debug.IsPaused(w.hierarchy, 2) && IdOf(OP, Second(2)) !in w.ledger.deferrals
            && w.roster == w.deferred == EMPTY_ROSTER
            && Next(w, ReleaseUnpaused) == w
            && !Covered(w, OP)
  {
    run := BecomesStale(2);
    SecondIsUncovered();
    NothingToLetGo();
  }

  lemma SecondIsUncovered()
    ensures !Stale(2).debug.IsPaused(map[], 2) && !Covered(Stale(2), OP)
  {
    forall n: nat ensures Ancestor(map[], 2, n) != Some(1) {
    }
    var id := IdOf(OP, Second(2));
    InIds(OP, [Second(2)], id);
    assert Stale(2).slots[OP].store.items[0] == Second(2);
    assert id in Unheld(Stale(2), OP);
  }

  lemma NothingToLetGo()
    ensures Next(Stale(2), ReleaseUnpaused) == Stale(2)
  {
    var w := Stale(2);
    SessionInItself(map[], 1);
    assert w.debug.IsPaused(map[], 1);
    assert w.ledger.deferrals[..0] == [];
    assert Filter(w.ledger.deferrals, HeldBack(w.debug, w.hierarchy)) == w.ledger.deferrals;
    assert Filter(w.ledger.deferrals, LetGo(w.debug, w.hierarchy)) == [];
    assert Sources([]) == [];
  }
}
