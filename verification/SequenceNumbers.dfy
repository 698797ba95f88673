/** Identities are not reused as long as no operation hands out more than 2^32 sequence numbers, so
    the results about runs that never reuse an identity cover all of those runs. */
module SequenceNumbers {
  import opened Common
  import opened Debugger
  import opened Intake
  import opened IntakeMachine
  import opened Runs
  import opened Sessions

  ghost predicate WithinRange(w: World) {
    forall op | Holds(w, op) :: w.slots[op].store.issued <= SEQ_MODULUS
  }

  /** The identity was handed out by an operation that still has storage. */
  ghost predicate HandedOut(w: World, id: RequestId) {
    Holds(w, id.source) && id.seqNo < w.slots[id.source].store.issued
  }

  ghost predicate AllHandedOut(w: World) {
    && (forall op | Holds(w, op) ::
          forall i | 0 <= i < |w.slots[op].store.items| ::
            w.slots[op].store.items[i].seqNo < w.slots[op].store.issued)
    && (forall id | id in w.ledger.deferrals :: HandedOut(w, id))
    && (forall id | id in w.ledger.allow :: HandedOut(w, id))
  }

  lemma StepNeverForgets(w: World, step: Step)
    requires Enabled(w, step)
    ensures forall op :: Holds(Next(w, step), op) <==> Holds(w, op)
    ensures forall op | Holds(w, op) ::
              w.slots[op].store.issued <= Next(w, step).slots[op].store.issued
  {
    match step
    case Give(session, target, data, into) => DeliverNeverForgets(w, session, target, data, true, into);
    case Defer(session, target, data, into) => DeliverNeverForgets(w, session, target, data, false, into);
    case _ =>
  }

  lemma DeliverNeverForgets(w: World, session: Entity, target: Entity, data: Message, now: bool, into: Into)
    ensures var w' := Deliver(w, session, target, data, now, into);
            && (forall op :: Holds(w', op) <==> Holds(w, op))
            && forall op | Holds(w, op) :: w.slots[op].store.issued <= w'.slots[op].store.issued
  {
  }

  /** A scan records no identities but those of the inputs it visits. */
  lemma {:induction false} ScanRecords(h: Hierarchy, order: seq<Entity>, source: Entity, items: seq<Input>,
                                       d: DebugState, l: Ledger, i: nat)
    requires i <= |items|
    ensures var r := ScanFrom(h, order, source, items, d, l, i);
            && r.ledger.allow <= l.allow
            && forall id | id in r.ledger.deferrals ::
                 id in l.deferrals || exists m :: 0 <= m < |items| && id == IdOf(source, items[m])
    decreases |items| - i
  {
    if i < |items| {
      var d' := d.EvaluateBreak(h, order, items[i].session, source);
      var (allowed, l') := l.IsAllowed(IdOf(source, items[i]));
      if d'.IsPaused(h, items[i].session) && !allowed {
        ScanRecords(h, order, source, items, d', l', i + 1);
        assert forall id | id in l'.deferrals :: id in l.deferrals || id == IdOf(source, items[i]);
      }
    }
  }

  /** Moving recorded identities around, or forgetting them, records no new one. */
  lemma NothingNewRecorded(w: World, w': World)
    requires AllHandedOut(w) && w'.slots == w.slots
    requires forall id | id in w'.ledger.deferrals || id in w'.ledger.allow ::
               id in w.ledger.deferrals || id in w.ledger.allow
    ensures AllHandedOut(w')
  {
    assert forall id: RequestId :: HandedOut(w, id) ==> HandedOut(w', id);
  }

  /** Nothing is forgotten about what was handed out. */
  lemma HandedOutStays(w: World, w': World)
    requires forall op | Holds(w, op) :: Holds(w', op) && w.slots[op].store.issued <= w'.slots[op].store.issued
    ensures forall id: RequestId :: HandedOut(w, id) ==> HandedOut(w', id)
  {
  }

  lemma TakenLeavesRest(w: World, source: Entity, order: seq<Entity>)
    requires Holds(w, source)
    ensures var w', store := TakeAt(w, source, order), w.slots[source].store;
            && w'.slots.Keys == w.slots.Keys
            && (forall op | op in w.slots && op != source :: w'.slots[op] == w.slots[op])
            && w'.slots[source].Holding? && w'.slots[source].store.issued == store.issued
            && (forall input | input in w'.slots[source].store.items :: input in store.items)
            && w'.ledger == Take(w.hierarchy, order, source, store.items, w.debug, w.ledger).ledger
  {
  }

  lemma TakeKeepsHandedOut(w: World, source: Entity, order: seq<Entity>)
    requires AllHandedOut(w)
    ensures AllHandedOut(TakeAt(w, source, order))
  {
    if Holds(w, source) {
      ScanRecords(w.hierarchy, order, source, w.slots[source].store.items, w.debug, w.ledger, 0);
      TakenLeavesRest(w, source, order);
      HandedOutStays(w, TakeAt(w, source, order));
      StoredStayHandedOut(w, TakeAt(w, source, order), source);
    }
  }

  lemma StoredStayHandedOut(w: World, w': World, source: Entity)
    requires AllHandedOut(w) && Holds(w, source) && Holds(w', source)
    requires w'.slots.Keys == w.slots.Keys
    requires forall op | op in w.slots && op != source :: w'.slots[op] == w.slots[op]
    requires w'.slots[source].store.issued == w.slots[source].store.issued
    requires forall input | input in w'.slots[source].store.items :: input in w.slots[source].store.items
    ensures forall op | Holds(w', op) ::
              forall i | 0 <= i < |w'.slots[op].store.items| ::
                w'.slots[op].store.items[i].seqNo < w'.slots[op].store.issued
  {
    forall i | 0 <= i < |w'.slots[source].store.items|
      ensures w'.slots[source].store.items[i].seqNo < w'.slots[source].store.issued
    {
      var input := w'.slots[source].store.items[i];
      assert input in w.slots[source].store.items;
    }
    forall op | Holds(w', op) && op != source
      ensures forall i | 0 <= i < |w'.slots[op].store.items| ::
                w'.slots[op].store.items[i].seqNo < w'.slots[op].store.issued
    {
      assert Holds(w, op);
    }
  }

  lemma CleanupKeepsHandedOut(w: World, session: Entity, source: Entity)
    requires AllHandedOut(w)
    ensures AllHandedOut(CleanupAt(w, session, source))
  {
    var w' := CleanupAt(w, session, source);
    assert forall id: RequestId :: HandedOut(w, id) ==> HandedOut(w', id);
    forall op | Holds(w', op)
      ensures forall i | 0 <= i < |w'.slots[op].store.items| ::
                w'.slots[op].store.items[i].seqNo < w'.slots[op].store.issued
    {
      if op == source {
        var items, kept := w.slots[op].store.items, w'.slots[op].store.items;
        forall i | 0 <= i < |kept| ensures kept[i].seqNo < w'.slots[op].store.issued {
          var k := FilterIndex(items, NotInSession(session), i);
        }
      }
    }
  }

  lemma ReleaseKeepsHandedOut(w: World)
    requires AllHandedOut(w)
    ensures AllHandedOut(Next(w, ReleaseUnpaused))
  {
    var w' := Next(w, ReleaseUnpaused);
    forall id | id in w'.ledger.deferrals ensures id in w.ledger.deferrals {
      FilterMember(w.ledger.deferrals, HeldBack(w.debug, w.hierarchy), id);
    }
    NothingNewRecorded(w, w');
  }

  lemma DeliverKeepsHandedOut(w: World, session: Entity, target: Entity, data: Message, now: bool, into: Into)
    requires AllHandedOut(w) && WithinRange(Deliver(w, session, target, data, now, into))
    ensures FreshId(w, session, target)
    ensures AllHandedOut(Deliver(w, session, target, data, now, into))
  {
    var w' := Deliver(w, session, target, data, now, into);
    assert forall id: RequestId :: HandedOut(w, id) ==> HandedOut(w', id);
    if DeliveryOf(w, session, target) == Stored {
      var store := w.slots[target].store;
      assert Holds(w', target) && w'.slots[target].store.issued == store.issued + 1;
      var id := IdOf(target, Incoming(store, session, ""));
      assert id.seqNo == store.issued;
      assert !HandedOut(w, id);
      forall i | 0 <= i < |store.items| ensures IdOf(target, store.items[i]) != id {
        assert store.items[i].seqNo < store.issued;
      }
    }
  }

  lemma StepKeepsHandedOut(w: World, step: Step)
    requires Enabled(w, step) && AllHandedOut(w) && WithinRange(Next(w, step))
    ensures AllHandedOut(Next(w, step)) && FreshStep(w, step)
  {
    match step
    case Give(session, target, data, into) => DeliverKeepsHandedOut(w, session, target, data, true, into);
    case Defer(session, target, data, into) => DeliverKeepsHandedOut(w, session, target, data, false, into);
    case Execute(order) =>
      var w1 := Dequeued(w);
      NothingNewRecorded(w, w1);
      TakeKeepsHandedOut(w1, w.roster.queue[0], order);
    case TakeMore(source, order) => TakeKeepsHandedOut(w, source, order);
    case ReleaseUnpaused => ReleaseKeepsHandedOut(w);
    case Cleanup(session, source) => CleanupKeepsHandedOut(w, session, source);
    case _ => NothingNewRecorded(w, Next(w, step));
  }

  lemma RangeBackwards(w: World, step: Step)
    requires Enabled(w, step) && WithinRange(Next(w, step))
    ensures WithinRange(w)
  {
    StepNeverForgets(w, step);
    forall op | Holds(w, op) ensures w.slots[op].store.issued <= SEQ_MODULUS {
      assert Holds(Next(w, step), op);
    }
  }

  ghost predicate StepsWithinRange(w: World, step: Step, w': World) {
    StepsTo(w, step, w') && WithinRange(w')
  }

  /** A run in which every operation has handed out at most 2^32 numbers never reuses an identity. */
  lemma BoundedRunsNeverReuse(run: Run<World, Step>)
    requires Follows(run, Initial, StepsTo) && WithinRange(run.Last())
    ensures Follows(run, Initial, FreshlyStepsTo)
  {
    forall w, step, w' | StepsTo(w, step, w') && WithinRange(w') ensures WithinRange(w) {
      RangeBackwards(w, step);
    }
    forall i | 0 <= i <= |run.steps| ensures WithinRange(run.states[i]) {
      HeldAllAlong(run, StepsTo, WithinRange, i);
    }
    forall k | 0 <= k < |run.steps| ensures StepsWithinRange(run.states[k], run.steps[k], run.states[k + 1]) {
      assert StepsTo(run.states[k], run.steps[k], run.states[k + 1]);
    }
    forall w, step, w' | AllHandedOut(w) && StepsWithinRange(w, step, w') ensures AllHandedOut(w') {
      StepKeepsHandedOut(w, step);
    }
    AlwaysHolds(run, Initial, StepsWithinRange, AllHandedOut);
    forall k | 0 <= k < |run.steps| ensures FreshlyStepsTo(run.states[k], run.steps[k], run.states[k + 1]) {
      assert StepsWithinRange(run.states[k], run.steps[k], run.states[k + 1]);
      StepKeepsHandedOut(run.states[k], run.steps[k]);
    }
  }
}
