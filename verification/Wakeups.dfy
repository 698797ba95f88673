/** No wake-up is lost: in every run, each operation has at least as many pending wake-ups and
    debugger deferrals as it has stored inputs. */
module Wakeups {
  import opened Common
  import opened Debugger
  import opened DebuggerOrder
  import opened Intake
  import opened IntakeMachine
  import opened Rosters
  import opened Runs
  import opened Sessions
  import opened StepBudget

  function RosterWakeups(roster: Roster, op: Entity): nat {
    multiset(roster.queue)[op] + multiset(roster.deferredQueue)[op]
  }

  function AtSource(op: Entity): RequestId -> bool {
    (id: RequestId) => id.source == op
  }

  function HeldBackAt(l: Ledger, op: Entity): nat {
    |Filter(l.deferrals, AtSource(op))|
  }

  /** Everything that will make the operation run again. */
  function Pending(w: World, op: Entity): nat {
    RosterWakeups(w.roster, op) + RosterWakeups(w.deferred, op) + HeldBackAt(w.ledger, op)
  }

  ghost predicate NoneLost(w: World) {
    forall op | Holds(w, op) :: Pending(w, op) >= |w.slots[op].store.items|
  }

  /** If every stored input is held back there are enough deferrals for all of them. */
  lemma AllHeldBack(l: Ledger, source: Entity, items: seq<Input>)
    requires UniqueIds(items)
    requires forall m | 0 <= m < |items| :: IdOf(source, items[m]) in l.deferrals
    ensures HeldBackAt(l, source) >= |items|
  {
    var ids := seq(|items|, m requires 0 <= m < |items| => IdOf(source, items[m]));
    forall i, j | 0 <= i < j < |ids| ensures ids[i] != ids[j] {
      assert IdOf(0, items[i]) != IdOf(0, items[j]);
    }
    ElementsCardinality(ids);
    var held := Filter(l.deferrals, AtSource(source));
    forall id | id in ids ensures id in held {
      FilterMember(l.deferrals, AtSource(source), id);
    }
    SubsetCardinality(Elements(ids), Elements(held));
    ElementsCardinality(held);
  }

  lemma MoreDeferrals(l: Ledger, l': Ledger, op: Entity)
    requires l.deferrals <= l'.deferrals
    ensures HeldBackAt(l, op) <= HeldBackAt(l', op)
  {
    assert l'.deferrals == l.deferrals + l'.deferrals[|l.deferrals|..];
    FilterConcat(l.deferrals, l'.deferrals[|l.deferrals|..], AtSource(op));
  }

  /** The wake-ups created by letting go of deferrals make up for the deferrals. */
  lemma {:induction false} ReleaseWakes(ids: seq<RequestId>, d: DebugState, h: Hierarchy, op: Entity)
    ensures multiset(Sources(Filter(ids, LetGo(d, h))))[op]
              + |Filter(Filter(ids, HeldBack(d, h)), AtSource(op))| == |Filter(ids, AtSource(op))|
  {
    if ids == [] {
      assert Sources(Filter(ids, LetGo(d, h))) == [];
    } else {
      var n := |ids| - 1;
      ReleaseWakes(ids[..n], d, h, op);
      var gone, held := Filter(ids[..n], LetGo(d, h)), Filter(ids[..n], HeldBack(d, h));
      if d.IsPaused(h, ids[n].session) {
        assert Filter(ids, LetGo(d, h)) == gone && Filter(ids, HeldBack(d, h)) == held + [ids[n]];
        FilterConcat(held, [ids[n]], AtSource(op));
        assert Filter([ids[n]], AtSource(op)) == if ids[n].source == op then [ids[n]] else [];
      } else {
        assert Filter(ids, LetGo(d, h)) == gone + [ids[n]] && Filter(ids, HeldBack(d, h)) == held;
        assert Sources(gone + [ids[n]]) == Sources(gone) + [ids[n].source];
      }
    }
  }

  /** Running an operation uses up one wake-up. It takes one input, or everything it still has is
      held back by the debugger or it has nothing. */
  lemma ExecuteKeepsWakeups(w: World, order: seq<Entity>)
    requires OrderOk(w) && NoneLost(w) && Enabled(w, Execute(order))
    ensures NoneLost(Next(w, Execute(order)))
  {
    var source := w.roster.queue[0];
    var w1 := Dequeued(w);
    var w' := TakeAt(w1, source, order);
    assert w.roster.queue == [source] + w1.roster.queue;
    TakeEffect(w1, source, order);
    forall op | Holds(w', op) ensures Pending(w', op) >= |w'.slots[op].store.items| {
      assert Holds(w, op);
    }
  }

  /** What one take does to the counts: other storages are untouched, deferrals only grow, and when
      nothing is taken everything stored is held back. */
  lemma TakeEffect(w: World, source: Entity, order: seq<Entity>)
    requires LedgerOk(w.ledger) && Enumerates(order, w.debug.debugSessions)
    requires forall op | Holds(w, op) :: StoreOk(w.ledger, op, w.slots[op].store)
    ensures var w' := TakeAt(w, source, order);
            && w'.roster == w.roster && w'.deferred == w.deferred
            && (forall op :: Holds(w', op) <==> Holds(w, op))
            && (forall op | Holds(w, op) && op != source :: w'.slots[op] == w.slots[op])
            && (forall op :: HeldBackAt(w.ledger, op) <= HeldBackAt(w'.ledger, op))
            && (Holds(w, source) ==>
                  var before, after := |w.slots[source].store.items|, |w'.slots[source].store.items|;
                  after == before - 1 || after == before <= HeldBackAt(w'.ledger, source))
  {
    if Holds(w, source) {
      var items := w.slots[source].store.items;
      FirstOfItsSession(w, source, order);
      var t := Take(w.hierarchy, order, source, items, w.debug, w.ledger);
      forall op ensures HeldBackAt(w.ledger, op) <= HeldBackAt(t.ledger, op) {
        MoreDeferrals(w.ledger, t.ledger, op);
      }
      if t.index.None? {
        assert StoreOk(w.ledger, source, w.slots[source].store);
        AllHeldBack(t.ledger, source, items);
      }
    }
  }

  lemma TakeMoreKeepsWakeups(w: World, source: Entity, order: seq<Entity>)
    requires OrderOk(w) && NoneLost(w) && Enabled(w, TakeMore(source, order))
    ensures NoneLost(TakeAt(w, source, order))
  {
    var w' := TakeAt(w, source, order);
    TakeEffect(w, source, order);
    forall op | Holds(w', op) ensures Pending(w', op) >= |w'.slots[op].store.items| {
      assert Holds(w, op);
    }
  }

  /** A delivery that stores an input also wakes its target, in whichever list. */
  lemma WokenCounts(roster: Roster, delivery: Delivery, session: Entity, target: Entity, now: bool, op: Entity)
    ensures RosterWakeups(Woken(roster, delivery, session, target, now), op)
         == RosterWakeups(roster, op) + (if op == target && (delivery == Stored || delivery == Ignored) then 1 else 0)
  {
  }

  lemma DeliverKeepsWakeups(w: World, session: Entity, target: Entity, data: Message, now: bool, into: Into)
    requires NoneLost(w)
    ensures NoneLost(Deliver(w, session, target, data, now, into))
  {
    var w' := Deliver(w, session, target, data, now, into);
    var delivery := DeliveryOf(w, session, target);
    forall op | Holds(w', op) ensures Pending(w', op) >= |w'.slots[op].store.items| {
      assert Holds(w, op);
      WokenCounts(w.roster, delivery, session, target, now, op);
      WokenCounts(w.deferred, delivery, session, target, now, op);
    }
  }

  /** A debug step trades one deferral for one wake-up of the same operation. */
  lemma DebugStepKeepsWakeups(w: World, session: Entity, operation: Option<Entity>)
    requires NoneLost(w)
    ensures NoneLost(StepDebugger(w, session, operation))
  {
    var w' := StepDebugger(w, session, operation);
    var k := FirstMatch(w.hierarchy, session, operation, w.ledger.deferrals);
    forall op | Holds(w', op) ensures Pending(w', op) >= |w'.slots[op].store.items| {
      assert Holds(w, op);
      if k < |w.ledger.deferrals| {
        FilterRemove(w.ledger.deferrals, k, AtSource(op));
      }
    }
  }

  lemma ReleaseKeepsWakeups(w: World)
    requires NoneLost(w)
    ensures NoneLost(Next(w, ReleaseUnpaused))
  {
    var w' := Next(w, ReleaseUnpaused);
    forall op | Holds(w', op) ensures Pending(w', op) >= |w'.slots[op].store.items| {
      assert Holds(w, op);
      ReleaseWakes(w.ledger.deferrals, w.debug, w.hierarchy, op);
    }
  }

  lemma CleanupKeepsWakeups(w: World, session: Entity, source: Entity)
    requires NoneLost(w)
    ensures NoneLost(CleanupAt(w, session, source))
  {
    var w' := CleanupAt(w, session, source);
    forall op | Holds(w', op) ensures Pending(w', op) >= |w'.slots[op].store.items| {
      assert Holds(w, op);
      FilterShrinks(w.slots[op].store.items, NotInSession(session));
    }
  }

  lemma {:induction false} FilterShrinks<T>(s: seq<T>, p: T -> bool)
    ensures |Filter(s, p)| <= |s|
  {
    if s != [] {
      FilterShrinks(s[..|s| - 1], p);
    }
  }

  lemma StepKeepsWakeups(w: World, step: Step)
    requires Enabled(w, step) && OrderOk(w) && NoneLost(w)
    ensures NoneLost(Next(w, step))
  {
    match step
    case Give(session, target, data, into) => DeliverKeepsWakeups(w, session, target, data, true, into);
    case Defer(session, target, data, into) => DeliverKeepsWakeups(w, session, target, data, false, into);
    case Execute(order) => ExecuteKeepsWakeups(w, order);
    case TakeMore(source, order) => TakeMoreKeepsWakeups(w, source, order);
    case DebugStep(session, operation) => DebugStepKeepsWakeups(w, session, operation);
    case ReleaseUnpaused => ReleaseKeepsWakeups(w);
    case Cleanup(session, source) => CleanupKeepsWakeups(w, session, source);
    case _ =>
      forall op | Holds(Next(w, step), op)
        ensures Pending(Next(w, step), op) >= |Next(w, step).slots[op].store.items|
      {
        assert Holds(w, op);
      }
  }

  /** In every run, under every interleaving of deliveries, executions, pauses, debug steps,
      releases and cleanups, no stored input is left without something that will run its
      operation again or hold it in the debugger. */
  lemma NoLostWakeup(run: Run<World, Step>)
    requires Follows(run, Initial, FreshlyStepsTo)
    ensures forall k | 0 <= k < |run.states| :: NoneLost(run.states[k])
  {
    forall w, step, w' | Sound(w) && FreshlyStepsTo(w, step, w') ensures Sound(w') {
      StepKeepsOrder(w, step);
      StepKeepsWakeups(w, step);
    }
    AlwaysHolds(run, Initial, FreshlyStepsTo, Sound);
    assert forall k | 0 <= k < |run.states| :: Sound(run.states[k]);
  }

  ghost predicate Sound(w: World) {
    OrderOk(w) && NoneLost(w)
  }

  /** Once the debugger holds nothing back at an operation and its wake-ups have all been used, nothing
      is stored there. */
  lemma QuiescentMeansEmpty(run: Run<World, Step>, op: Entity)
    requires Follows(run, Initial, FreshlyStepsTo) && Holds(run.Last(), op)
    requires forall id | id in run.Last().ledger.deferrals :: id.source != op
    requires op !in run.Last().roster.queue && op !in run.Last().roster.deferredQueue
    requires op !in run.Last().deferred.queue && op !in run.Last().deferred.deferredQueue
    ensures run.Last().slots[op].store.items == []
  {
    NoLostWakeup(run);
    var w := run.Last();
    assert NoneLost(run.states[|run.states| - 1]);
    assert Pending(w, op) >= |w.slots[op].store.items|;
    FilterNone(w.ledger.deferrals, AtSource(op));
  }
}
