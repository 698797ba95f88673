/** Inputs that the debugger does not hold back are meant to be processed. In every run each of them has a
    wake-up, unless an execution took an input that was still recorded as held back. */
module UnheldInputs {
  import opened Common
  import opened Debugger
  import opened DebuggerOrder
  import opened Intake
  import opened IntakeMachine
  import opened Runs
  import opened Sessions
  import opened StepBudget
  import opened Wakeups

  function Ids(op: Entity, items: seq<Input>): (r: seq<RequestId>)
    ensures |r| == |items| && forall k | 0 <= k < |items| :: r[k] == IdOf(op, items[k])
  {
    seq(|items|, k requires 0 <= k < |items| => IdOf(op, items[k]))
  }

  /** The requests of the inputs stored at the operation that are not recorded as held back. */
  function Unheld(w: World, op: Entity): set<RequestId>
    requires Holds(w, op)
  {
    Elements(Ids(op, w.slots[op].store.items)) - Elements(w.ledger.deferrals)
  }

  function WakeupsOf(w: World, op: Entity): nat {
    RosterWakeups(w.roster, op) + RosterWakeups(w.deferred, op)
  }

  predicate Covered(w: World, op: Entity) {
    Holds(w, op) ==> |Unheld(w, op)| <= WakeupsOf(w, op)
  }

  /** The operation at the front of the queue would take an input that is still recorded as held back. */
  ghost predicate TakesRecorded(w: World, order: seq<Entity>) {
    && w.roster.queue != [] && Holds(w, w.roster.queue[0])
    && var source := w.roster.queue[0];
       var items := w.slots[source].store.items;
       var index := Take(w.hierarchy, order, source, items, w.debug, w.ledger).index;
       index.Some? && IdOf(source, items[index.value]) in w.ledger.deferrals
  }

  lemma InIds(op: Entity, items: seq<Input>, id: RequestId)
    ensures id in Elements(Ids(op, items)) <==> exists k :: 0 <= k < |items| && IdOf(op, items[k]) == id
  {
    if k :| 0 <= k < |items| && IdOf(op, items[k]) == id {
      assert Ids(op, items)[k] == id;
    }
  }

  /** What is unheld after taking the k-th input: nothing new, and not that one. */
  lemma TakenIsGone(op: Entity, items: seq<Input>, k: nat)
    requires UniqueIds(items) && k < |items|
    ensures Elements(Ids(op, RemoveAt(items, k))) == Elements(Ids(op, items)) - {IdOf(op, items[k])}
  {
    var rest, gone := RemoveAt(items, k), IdOf(op, items[k]);
    forall id ensures id in Elements(Ids(op, rest)) <==> id in Elements(Ids(op, items)) && id != gone {
      InIds(op, rest, id);
      InIds(op, items, id);
      if j :| 0 <= j < |items| && IdOf(op, items[j]) == id && id != gone {
        assert rest[if j < k then j else j - 1] == items[j];
      }
      if j :| 0 <= j < |rest| && IdOf(op, rest[j]) == id {
        var i := if j < k then j else j + 1;
        assert items[i] == rest[j];
        DifferentIds(items, i, k);
      }
    }
  }

  lemma DifferentIds(items: seq<Input>, i: nat, k: nat)
    requires UniqueIds(items) && i < |items| && k < |items| && i != k
    ensures IdOf(0, items[i]) != IdOf(0, items[k])
  {
    if i < k {
      assert IdOf(0, items[i]) != IdOf(0, items[k]);
    } else {
      assert IdOf(0, items[k]) != IdOf(0, items[i]);
    }
  }

  // ---------- Taking ----------

  /** A take leaves fewer inputs unheld, or the same ones. It leaves out the one taken unless that was
      recorded, and if it takes nothing then nothing is unheld. */
  lemma TakeOnUnheld(w: World, source: Entity, order: seq<Entity>)
    requires OrderOk(w) && Enumerates(order, w.debug.debugSessions) && Holds(w, source)
    ensures var w' := TakeAt(w, source, order);
            var items := w.slots[source].store.items;
            var index := Take(w.hierarchy, order, source, items, w.debug, w.ledger).index;
            && Holds(w', source) && Unheld(w', source) <= Unheld(w, source)
            && match index
               case None => Unheld(w', source) == {}
               case Some(k) =>
                 var id := IdOf(source, items[k]);
                 id !in w.ledger.deferrals ==> id in Unheld(w, source) && id !in Unheld(w', source)
  {
    var items := w.slots[source].store.items;
    FirstOfItsSession(w, source, order);
    assert StoreOk(w.ledger, source, w.slots[source].store);
    var t := Take(w.hierarchy, order, source, items, w.debug, w.ledger);
    assert Elements(w.ledger.deferrals) <= Elements(t.ledger.deferrals);
    match t.index {
      case None =>
        forall id | id in Elements(Ids(source, items)) ensures id in t.ledger.deferrals {
          InIds(source, items, id);
        }
      case Some(k) =>
        TakenIsGone(source, items, k);
        InIds(source, items, IdOf(source, items[k]));
    }
  }

  /** A take at one operation changes nothing about what is unheld at another. */
  lemma TakeOnOthers(w: World, source: Entity, order: seq<Entity>, op: Entity)
    requires OrderOk(w) && Enumerates(order, w.debug.debugSessions) && Holds(w, op) && op != source
    ensures var w' := TakeAt(w, source, order);
            Holds(w', op) && Unheld(w', op) == Unheld(w, op)
  {
    if Holds(w, source) {
      FirstOfItsSession(w, source, order);
      var t := Take(w.hierarchy, order, source, w.slots[source].store.items, w.debug, w.ledger);
      forall id | id in Elements(Ids(op, w.slots[op].store.items))
        ensures id in w.ledger.deferrals <==> id in t.ledger.deferrals
      {
        InIds(op, w.slots[op].store.items, id);
        NewDeferralsOf(w.ledger, t.ledger, source, id);
      }
    }
  }

  lemma NewDeferralsOf(l: Ledger, l': Ledger, source: Entity, id: RequestId)
    requires OnlyTouches(l, l', source) && id.source != source
    ensures id in l.deferrals <==> id in l'.deferrals
  {
    if id in l'.deferrals {
      var q :| 0 <= q < |l'.deferrals| && l'.deferrals[q] == id;
      assert q < |l.deferrals|;
    }
  }

  lemma TakeKeepsWakeups(w: World, source: Entity, order: seq<Entity>, op: Entity)
    ensures WakeupsOf(TakeAt(w, source, order), op) == WakeupsOf(w, op)
  {
  }

  lemma DequeuedWakeups(w: World, op: Entity)
    requires w.roster.queue != []
    ensures WakeupsOf(Dequeued(w), op) == WakeupsOf(w, op) - if op == w.roster.queue[0] then 1 else 0
  {
    assert w.roster.queue == [w.roster.queue[0]] + w.roster.queue[1..];
  }

  lemma DequeuedOrder(w: World)
    requires OrderOk(w) && w.roster.queue != []
    ensures OrderOk(Dequeued(w))
  {
    forall op | Holds(Dequeued(w), op) ensures StoreOk(w.ledger, op, w.slots[op].store) {
      assert Holds(w, op);
    }
  }

  lemma EqualIfAsLarge<T>(a: set<T>, b: set<T>)
    requires a <= b && |a| >= |b|
    ensures a == b
  {
    assert b == a + (b - a);
  }

  /** An execution leaves an operation that has had enough wake-ups with too few exactly if it takes an
      input of it that is still recorded as held back, the wake-ups have been just enough, and the scan
      has newly held nothing back. */
  lemma ExecuteUncoversIff(w: World, order: seq<Entity>, op: Entity)
    requires OrderOk(w) && Enabled(w, Execute(order)) && Holds(w, op) && Covered(w, op)
    ensures var w' := Next(w, Execute(order));
            Holds(w', op) &&
            (!Covered(w', op) <==>
              && op == w.roster.queue[0] && TakesRecorded(w, order)
              && |Unheld(w, op)| == WakeupsOf(w, op) && Unheld(w', op) == Unheld(w, op))
  {
    var source := w.roster.queue[0];
    DequeuedWakeups(w, op);
    DequeuedOrder(w);
    TakeKeepsWakeups(Dequeued(w), source, order, op);
    if op == source {
      ExecuteOnUnheld(w, order);
    } else {
      TakeOnOthers(Dequeued(w), source, order, op);
    }
  }

  lemma ExecuteOnUnheld(w: World, order: seq<Entity>)
    requires OrderOk(w) && Enabled(w, Execute(order)) && Holds(w, w.roster.queue[0])
    ensures var op, w' := w.roster.queue[0], Next(w, Execute(order));
            && Holds(w', op) && |Unheld(w', op)| <= |Unheld(w, op)|
            && (!TakesRecorded(w, order) ==> Unheld(w', op) == {} || |Unheld(w', op)| < |Unheld(w, op)|)
            && (|Unheld(w', op)| == |Unheld(w, op)| ==> Unheld(w', op) == Unheld(w, op))
  {
    var op, w' := w.roster.queue[0], Next(w, Execute(order));
    DequeuedOrder(w);
    TakeOnUnheld(Dequeued(w), op, order);
    SubsetCardinality(Unheld(w', op), Unheld(w, op));
    if |Unheld(w', op)| == |Unheld(w, op)| {
      EqualIfAsLarge(Unheld(w', op), Unheld(w, op));
    }
  }

  // ---------- The other steps ----------

  lemma DeliverKeepsCovered(w: World, session: Entity, target: Entity, data: Message, now: bool, into: Into, op: Entity)
    requires Holds(w, op) && Covered(w, op)
    ensures Covered(Deliver(w, session, target, data, now, into), op)
  {
    var w' := Deliver(w, session, target, data, now, into);
    var delivery := DeliveryOf(w, session, target);
    WokenCounts(w.roster, delivery, session, target, now, op);
    WokenCounts(w.deferred, delivery, session, target, now, op);
    if delivery == Stored && op == target {
      var items, input := w.slots[op].store.items, Incoming(w.slots[op].store, session, data);
      ArrivedIds(op, items, input);
      AtMostOneMore(Unheld(w', op), Unheld(w, op), IdOf(op, input));
    }
  }

  lemma ArrivedIds(op: Entity, items: seq<Input>, input: Input)
    ensures Elements(Ids(op, items + [input])) == Elements(Ids(op, items)) + {IdOf(op, input)}
  {
    assert Ids(op, items + [input]) == Ids(op, items) + [IdOf(op, input)];
  }

  lemma AtMostOneMore<T>(a: set<T>, b: set<T>, x: T)
    requires a <= b + {x}
    ensures |a| <= |b| + 1
  {
    SubsetCardinality(a, b + {x});
  }

  lemma StaysUnlessRemoved<T>(s: seq<T>, k: nat, x: T)
    requires k < |s|
    ensures x in s ==> x == s[k] || x in RemoveAt(s, k)
  {
    if q :| 0 <= q < |s| && s[q] == x && q != k {
      assert RemoveAt(s, k)[if q < k then q else q - 1] == x;
    }
  }

  lemma DebugStepKeepsCovered(w: World, session: Entity, operation: Option<Entity>, op: Entity)
    requires Holds(w, op) && Covered(w, op)
    ensures Covered(StepDebugger(w, session, operation), op)
  {
    var k := FirstMatch(w.hierarchy, session, operation, w.ledger.deferrals);
    if k < |w.ledger.deferrals| {
      var w', id := StepDebugger(w, session, operation), w.ledger.deferrals[k];
      forall x | x in Unheld(w', op) ensures x in Unheld(w, op) + (if id.source == op then {id} else {}) {
        InIds(op, w.slots[op].store.items, x);
        StaysUnlessRemoved(w.ledger.deferrals, k, x);
      }
      if id.source == op {
        AtMostOneMore(Unheld(w', op), Unheld(w, op), id);
      } else {
        SubsetCardinality(Unheld(w', op), Unheld(w, op));
      }
    }
  }

  /** Letting go of deferrals adds a wake-up for every input that is not held back any more. */
  lemma ReleaseKeepsCovered(w: World, op: Entity)
    requires Holds(w, op) && Covered(w, op)
    ensures Covered(Next(w, ReleaseUnpaused), op)
  {
    var w' := Next(w, ReleaseUnpaused);
    var ids := w.ledger.deferrals;
    var gone := Filter(ids, LetGo(w.debug, w.hierarchy));
    var here := Filter(gone, AtSource(op));
    forall x | x in Unheld(w', op) ensures x in Unheld(w, op) + Elements(here) {
      InIds(op, w.slots[op].store.items, x);
      if x in ids {
        FilterMember(ids, HeldBack(w.debug, w.hierarchy), x);
        FilterMember(ids, LetGo(w.debug, w.hierarchy), x);
        FilterMember(gone, AtSource(op), x);
      }
    }
    SubsetCardinality(Unheld(w', op), Unheld(w, op) + Elements(here));
    ElementsAtMost(here);
    SourcesCount(gone, op);
  }

  lemma {:induction false} ElementsAtMost<T>(s: seq<T>)
    ensures |Elements(s)| <= |s|
  {
    if s != [] {
      var n := |s| - 1;
      ElementsAtMost(s[..n]);
      assert Elements(s) == Elements(s[..n]) + {s[n]} by {
        SplitLast(s);
      }
    }
  }

  lemma {:induction false} SourcesCount(ids: seq<RequestId>, op: Entity)
    ensures multiset(Sources(ids))[op] == |Filter(ids, AtSource(op))|
  {
    if ids == [] {
      assert Sources(ids) == [];
    } else {
      var n := |ids| - 1;
      SourcesCount(ids[..n], op);
      assert Sources(ids) == Sources(ids[..n]) + [ids[n].source];
    }
  }

  lemma CleanupKeepsCovered(w: World, session: Entity, source: Entity, op: Entity)
    requires Holds(w, op) && Covered(w, op)
    ensures Covered(CleanupAt(w, session, source), op)
  {
    var w' := CleanupAt(w, session, source);
    if op == source {
      var items := w.slots[op].store.items;
      var kept := Filter(items, NotInSession(session));
      forall x | x in Unheld(w', op) ensures x in Unheld(w, op) {
        InIds(op, kept, x);
        var k :| 0 <= k < |kept| && IdOf(op, kept[k]) == x;
        FilterMember(items, NotInSession(session), kept[k]);
        InIds(op, items, x);
      }
      SubsetCardinality(Unheld(w', op), Unheld(w, op));
    }
  }

  lemma TakeMoreKeepsCovered(w: World, source: Entity, order: seq<Entity>, op: Entity)
    requires OrderOk(w) && Enabled(w, TakeMore(source, order)) && Holds(w, op) && Covered(w, op)
    ensures Covered(TakeAt(w, source, order), op)
  {
    TakeKeepsWakeups(w, source, order, op);
    if op == source {
      TakeOnUnheld(w, source, order);
      SubsetCardinality(Unheld(TakeAt(w, source, order), op), Unheld(w, op));
    } else {
      TakeOnOthers(w, source, order, op);
    }
  }

  lemma OtherStepsKeepCovered(w: World, step: Step, op: Entity)
    requires OrderOk(w) && Enabled(w, step) && !step.Execute? && Holds(w, op) && Covered(w, op)
    ensures Covered(Next(w, step), op)
  {
    match step
    case Give(session, target, data, into) => DeliverKeepsCovered(w, session, target, data, true, into, op);
    case Defer(session, target, data, into) => DeliverKeepsCovered(w, session, target, data, false, into, op);
    case TakeMore(source, order) => TakeMoreKeepsCovered(w, source, order, op);
    case DebugStep(session, operation) => DebugStepKeepsCovered(w, session, operation, op);
    case ReleaseUnpaused => ReleaseKeepsCovered(w, op);
    case Cleanup(session, source) => CleanupKeepsCovered(w, session, source, op);
    case _ =>
  }

  /** Whatever the step: an operation that has had enough wake-ups is left with too few exactly if it is
      executed on an input that is still recorded as held back, the wake-ups have been just enough, and
      nothing is newly held back. */
  lemma StepUncoversIff(w: World, step: Step, op: Entity)
    requires OrderOk(w) && Enabled(w, step) && Holds(w, op) && Covered(w, op)
    ensures var w' := Next(w, step);
            !Covered(w', op) <==>
              && step.Execute? && op == w.roster.queue[0] && TakesRecorded(w, step.order)
              && |Unheld(w, op)| == WakeupsOf(w, op)
              && Holds(w', op) && Unheld(w', op) == Unheld(w, op)
  {
    if step.Execute? {
      ExecuteUncoversIff(w, step.order, op);
    } else {
      OtherStepsKeepCovered(w, step, op);
    }
  }

  // ---------- Whole runs ----------

  /** A step that does not execute an operation on an input that is still recorded as held back. */
  ghost predicate TimelySteps(w: World, step: Step, w': World) {
    FreshlyStepsTo(w, step, w') && (step.Execute? ==> !TakesRecorded(w, step.order))
  }

  ghost predicate AllCovered(w: World) {
    OrderOk(w) && forall op :: Covered(w, op)
  }

  lemma StepKeepsAllCovered(w: World, step: Step)
    requires AllCovered(w) && Enabled(w, step) && FreshStep(w, step)
    requires step.Execute? ==> !TakesRecorded(w, step.order)
    ensures AllCovered(Next(w, step))
  {
    StepKeepsOrder(w, step);
    forall op ensures Covered(Next(w, step), op) {
      if Holds(Next(w, step), op) {
        SameOperations(w, step, op);
        assert Covered(w, op);
        StepUncoversIff(w, step, op);
      }
    }
  }

  lemma SameOperations(w: World, step: Step, op: Entity)
    requires Enabled(w, step) && Holds(Next(w, step), op)
    ensures Holds(w, op)
  {
  }

  /** In every run in which no execution takes an input that is still recorded as held back, every
      operation always has at least as many wake-ups as inputs that are not held back. */
  lemma UnheldAreAwake(run: Run<World, Step>)
    requires Follows(run, Initial, TimelySteps)
    ensures forall k | 0 <= k < |run.states| :: AllCovered(run.states[k])
  {
    forall w | Initial(w) ensures AllCovered(w) {
      forall op ensures Covered(w, op) {
        if Holds(w, op) {
          assert Unheld(w, op) == {};
        }
      }
    }
    forall w, step, w' | AllCovered(w) && TimelySteps(w, step, w') ensures AllCovered(w') {
      StepKeepsAllCovered(w, step);
    }
    AlwaysHolds(run, Initial, TimelySteps, AllCovered);
  }

  /** In such a run, each input that is not held back has a wake-up. */
  lemma UnheldHasWakeup(run: Run<World, Step>, i: nat, op: Entity, k: nat)
    requires Follows(run, Initial, TimelySteps) && i < |run.states|
    requires Holds(run.states[i], op) && k < |run.states[i].slots[op].store.items|
    requires IdOf(op, run.states[i].slots[op].store.items[k]) !in run.states[i].ledger.deferrals
    ensures WakeupsOf(run.states[i], op) > 0
  {
    UnheldAreAwake(run);
    var w := run.states[i];
    assert AllCovered(w) && Covered(w, op);
    var id := IdOf(op, w.slots[op].store.items[k]);
    InIds(op, w.slots[op].store.items, id);
    assert id in Unheld(w, op);
  }

  // ---------- What users can do about it ----------

  /** Everything that is recorded as held back belongs to a session that is paused. */
  ghost predicate HeldArePaused(w: World) {
    forall id | id in w.ledger.deferrals :: w.debug.IsPaused(w.hierarchy, id.session)
  }

  /** Then no execution takes an input that is recorded. */
  lemma PausedAreNotTaken(w: World, order: seq<Entity>)
    requires OrderOk(w) && Enabled(w, Execute(order)) && HeldArePaused(w)
    ensures !TakesRecorded(w, order)
  {
    var source := w.roster.queue[0];
    if Holds(w, source) {
      var items := w.slots[source].store.items;
      if w.debug.IsActive() {
        RecordedAreSkipped(w.hierarchy, order, source, items, w.debug, w.ledger, w.debug, w.ledger, 0);
      } else {
        assert w.debug.paused == {};
      }
    }
  }

  /** Scanning on from the i-th input takes none that was recorded to begin with. */
  lemma {:induction false} RecordedAreSkipped(h: Hierarchy, order: seq<Entity>, source: Entity, items: seq<Input>,
                                              d: DebugState, l: Ledger, d': DebugState, l': Ledger, i: nat)
    requires i <= |items| && Enumerates(order, d'.debugSessions) && LedgerOk(l)
    requires d.paused <= d'.paused && l'.allow == l.allow
    requires forall id | id in l.deferrals :: d.IsPaused(h, id.session)
    ensures var index := ScanFrom(h, order, source, items, d', l', i).index;
            index.Some? ==> IdOf(source, items[index.value]) !in l.deferrals
    decreases |items| - i
  {
    if i < |items| {
      BreakPauses(d', h, order, items[i].session, source);
      var d'' := d'.EvaluateBreak(h, order, items[i].session, source);
      var id := IdOf(source, items[i]);
      if id in l.deferrals {
        assert d''.IsPaused(h, id.session);
      }
      var (allowed, l'') := l'.IsAllowed(id);
      if d''.IsPaused(h, items[i].session) && !allowed {
        RecordedAreSkipped(h, order, source, items, d, l, d'', l'', i + 1);
      }
    }
  }

  /** Letting go of the deferrals of unpaused sessions achieves it, */
  lemma ReleaseSettles(w: World)
    ensures HeldArePaused(Next(w, ReleaseUnpaused))
  {
    forall id | id in Filter(w.ledger.deferrals, HeldBack(w.debug, w.hierarchy))
      ensures w.debug.IsPaused(w.hierarchy, id.session)
    {
      FilterMember(w.ledger.deferrals, HeldBack(w.debug, w.hierarchy), id);
    }
  }

  /** A step after which a recorded request may belong to a session that is not paused. */
  predicate MayUnpause(step: Step) {
    step.Unpause? || step.StopDebugging? || step.Deactivate? || step.SetHierarchy?
  }

  /** and it lasts until something is unpaused. */
  lemma OnlyUnpausingUnsettles(w: World, step: Step)
    requires Enabled(w, step) && HeldArePaused(w) && !MayUnpause(step)
    ensures HeldArePaused(Next(w, step))
  {
    match step
    case Execute(order) => TakingStaysSettled(Dequeued(w), w.roster.queue[0], order);
    case TakeMore(source, order) => TakingStaysSettled(w, source, order);
    case ReleaseUnpaused => ReleaseSettles(w);
    case DebugStep(session, operation) => SteppingStaysSettled(w, session, operation);
    case Pause(_) => PausingStaysSettled(w, Next(w, step));
    case StartDebugging(_, _) => PausingStaysSettled(w, Next(w, step));
    case _ =>
  }

  lemma PausingStaysSettled(w: World, w': World)
    requires HeldArePaused(w) && w'.ledger == w.ledger && w'.hierarchy == w.hierarchy
    requires w.debug.paused <= w'.debug.paused
    ensures HeldArePaused(w')
  {
  }

  lemma SteppingStaysSettled(w: World, session: Entity, operation: Option<Entity>)
    requires HeldArePaused(w)
    ensures HeldArePaused(StepDebugger(w, session, operation))
  {
  }

  lemma TakingStaysSettled(w: World, source: Entity, order: seq<Entity>)
    requires HeldArePaused(w) && Enumerates(order, w.debug.debugSessions)
    ensures HeldArePaused(TakeAt(w, source, order))
  {
    if Holds(w, source) {
      ScanStaysSettled(w.hierarchy, order, source, w.slots[source].store.items, w.debug, w.ledger, 0);
    }
  }

  lemma {:induction false} ScanStaysSettled(h: Hierarchy, order: seq<Entity>, source: Entity, items: seq<Input>,
                                            d: DebugState, l: Ledger, i: nat)
    requires i <= |items| && Enumerates(order, d.debugSessions)
    requires forall id | id in l.deferrals :: d.IsPaused(h, id.session)
    ensures var r := ScanFrom(h, order, source, items, d, l, i);
            forall id | id in r.ledger.deferrals :: r.debug.IsPaused(h, id.session)
    decreases |items| - i
  {
    if i < |items| {
      BreakPauses(d, h, order, items[i].session, source);
      var d' := d.EvaluateBreak(h, order, items[i].session, source);
      var (allowed, l') := l.IsAllowed(IdOf(source, items[i]));
      assert forall id | id in l.deferrals :: d'.IsPaused(h, id.session);
      if d'.IsPaused(h, items[i].session) && !allowed {
        ScanStaysSettled(h, order, source, items, d', l', i + 1);
      }
    }
  }

  /** An execution comes only when everything recorded belongs to a paused session. */
  ghost predicate SettledSteps(w: World, step: Step, w': World) {
    FreshlyStepsTo(w, step, w') && (step.Execute? ==> HeldArePaused(w))
  }

  /** If deferrals are let go after unpausing and before anything is executed, every input that is not
      held back always has a wake-up. */
  lemma SettledRunsAreTimely(run: Run<World, Step>)
    requires Follows(run, Initial, SettledSteps)
    ensures Follows(run, Initial, TimelySteps)
  {
    forall w, step, w' | OrderOk(w) && SettledSteps(w, step, w') ensures OrderOk(w') {
      StepKeepsOrder(w, step);
    }
    AlwaysHolds(run, Initial, SettledSteps, OrderOk);
    forall k | 0 <= k < |run.steps| ensures TimelySteps(run.states[k], run.steps[k], run.states[k + 1]) {
      assert OrderOk(run.states[k]) && SettledSteps(run.states[k], run.steps[k], run.states[k + 1]);
      if run.steps[k].Execute? {
        PausedAreNotTaken(run.states[k], run.steps[k].order);
      }
    }
  }
}
