/** The debugger never reorders: in every run, the inputs of one session at one operation leave its
    storage in the order in which they arrived, each exactly once. */
module DebuggerOrder {
  import opened Common
  import opened Debugger
  import opened Intake
  import opened IntakeMachine
  import opened Runs
  import opened Sessions
  import opened StepBudget

  ghost predicate UniqueIds(items: seq<Input>) {
    forall i, j | 0 <= i < j < |items| :: IdOf(0, items[i]) != IdOf(0, items[j])
  }

  /** The ledger cannot let b proceed ahead of a: b is permitted only if a is, and b is held back
      only behind a or with a already permitted. */
  ghost predicate Before(l: Ledger, a: RequestId, b: RequestId) {
    && (b in l.allow ==> a in l.allow)
    && forall q | 0 <= q < |l.deferrals| && l.deferrals[q] == b :: a in l.allow || a in l.deferrals[..q]
  }

  ghost predicate InOrder(l: Ledger, source: Entity, items: seq<Input>) {
    forall i, j | 0 <= i < j < |items| && items[i].session == items[j].session ::
      Before(l, IdOf(source, items[i]), IdOf(source, items[j]))
  }

  /** For every session, what has left followed by what is stored is what has arrived. */
  ghost predicate Fifo(store: Store) {
    forall s: Entity ::
      Filter(store.left, InSession(s)) + Filter(store.items, InSession(s)) == Filter(store.arrived, InSession(s))
  }

  ghost predicate StoreOk(l: Ledger, source: Entity, store: Store) {
    UniqueIds(store.items) && InOrder(l, source, store.items) && Fifo(store)
  }

  ghost predicate OrderOk(w: World) {
    LedgerOk(w.ledger) && forall op | Holds(w, op) :: StoreOk(w.ledger, op, w.slots[op].store)
  }

  /** The input was visited by a scan and is being held back. */
  ghost predicate Passed(h: Hierarchy, d: DebugState, l: Ledger, source: Entity, input: Input) {
    var id := IdOf(source, input);
    d.IsPaused(h, input.session) && id in l.deferrals && id !in l.allow
  }

  /** l' differs from l only by more deferrals and fewer permits of one operation. */
  ghost predicate OnlyTouches(l: Ledger, l': Ledger, source: Entity) {
    && l.deferrals <= l'.deferrals
    && (forall q | |l.deferrals| <= q < |l'.deferrals| :: l'.deferrals[q].source == source)
    && (forall id: RequestId | id.source != source :: id in l.allow <==> id in l'.allow)
  }

  /** The outcome of a scan that started with everything before it passed. */
  ghost predicate ScanOk(source: Entity, items: seq<Input>, l: Ledger, r: TakeResult) {
    && LedgerOk(r.ledger) && OnlyTouches(l, r.ledger, source)
    && match r.index
       case None =>
         && InOrder(r.ledger, source, items)
         && forall m | 0 <= m < |items| :: IdOf(source, items[m]) in r.ledger.deferrals
       case Some(k) =>
         && k < |items|
         && InOrder(r.ledger, source, RemoveAt(items, k))
         && forall m | 0 <= m < k :: items[m].session != items[k].session
  }

  lemma RemovalKeepsOrder(l: Ledger, l': Ledger, source: Entity, items: seq<Input>, k: nat)
    requires k < |items| && UniqueIds(items) && InOrder(l, source, items)
    requires l'.deferrals == l.deferrals
    requires l'.allow == l.allow || l'.allow == l.allow - {IdOf(source, items[k])}
    ensures InOrder(l', source, RemoveAt(items, k)) && UniqueIds(RemoveAt(items, k))
  {
    var rest := RemoveAt(items, k);
    forall i, j | 0 <= i < j < |rest|
      ensures IdOf(0, rest[i]) != IdOf(0, rest[j])
      ensures rest[i].session == rest[j].session ==> Before(l', IdOf(source, rest[i]), IdOf(source, rest[j]))
    {
      var i', j' := if i < k then i else i + 1, if j < k then j else j + 1;
      assert rest[i] == items[i'] && rest[j] == items[j'];
      assert IdOf(0, items[i']) != IdOf(0, items[j']);
      assert IdOf(0, items[i']) != IdOf(0, items[k]);
      if items[i'].session == items[j'].session {
        assert Before(l, IdOf(source, items[i']), IdOf(source, items[j']));
      }
    }
  }

  /** Holding back the i-th input keeps the ledger in storage order, since every older input of
      its session is already held back. */
  lemma HoldingBackKeepsOrder(l: Ledger, source: Entity, items: seq<Input>, i: nat)
    requires i < |items| && UniqueIds(items) && InOrder(l, source, items) && LedgerOk(l)
    requires IdOf(source, items[i]) !in l.allow && IdOf(source, items[i]) !in l.deferrals
    requires forall m | 0 <= m < i :: IdOf(source, items[m]) in l.deferrals
    ensures InOrder(l.(deferrals := l.deferrals + [IdOf(source, items[i])]), source, items)
  {
    var l' := l.(deferrals := l.deferrals + [IdOf(source, items[i])]);
    forall m, n | 0 <= m < n < |items| && items[m].session == items[n].session
      ensures Before(l', IdOf(source, items[m]), IdOf(source, items[n]))
    {
      var a, b := IdOf(source, items[m]), IdOf(source, items[n]);
      assert Before(l, a, b);
      forall q | 0 <= q < |l'.deferrals| && l'.deferrals[q] == b
        ensures a in l'.allow || a in l'.deferrals[..q]
      {
        if q < |l.deferrals| {
          assert l'.deferrals[..q] == l.deferrals[..q];
        } else {
          assert l'.deferrals[..q] == l.deferrals;
          assert IdOf(0, items[n]) == IdOf(0, items[i]);
        }
      }
    }
  }

  /** An input that is permitted has no older input of its session among those passed over. */
  lemma PermittedIsFirst(h: Hierarchy, d: DebugState, l: Ledger, source: Entity, items: seq<Input>, i: nat)
    requires i < |items| && InOrder(l, source, items) && IdOf(source, items[i]) in l.allow
    requires forall m | 0 <= m < i :: Passed(h, d, l, source, items[m])
    ensures forall m | 0 <= m < i :: items[m].session != items[i].session
  {
    forall m | 0 <= m < i ensures items[m].session != items[i].session {
      assert Passed(h, d, l, source, items[m]);
    }
  }

  /** The same goes for an input whose session is not paused. */
  lemma UnpausedIsFirst(h: Hierarchy, d: DebugState, d': DebugState, l: Ledger, source: Entity,
                        items: seq<Input>, i: nat)
    requires i < |items| && d.paused <= d'.paused && !d'.IsPaused(h, items[i].session)
    requires forall m | 0 <= m < i :: Passed(h, d, l, source, items[m])
    ensures forall m | 0 <= m < i :: items[m].session != items[i].session
  {
    forall m | 0 <= m < i ensures items[m].session != items[i].session {
      assert Passed(h, d, l, source, items[m]);
    }
  }

  /** An input that is held back joins those that were passed over. */
  lemma PassOver(h: Hierarchy, d: DebugState, d': DebugState, l: Ledger, source: Entity, items: seq<Input>, i: nat)
    requires i < |items| && UniqueIds(items) && LedgerOk(l) && InOrder(l, source, items)
    requires d.paused <= d'.paused && d'.IsPaused(h, items[i].session)
    requires IdOf(source, items[i]) !in l.allow
    requires forall m | 0 <= m < i :: Passed(h, d, l, source, items[m])
    ensures var l' := l.IsAllowed(IdOf(source, items[i])).1;
            && LedgerOk(l') && InOrder(l', source, items) && OnlyTouches(l, l', source)
            && forall m | 0 <= m < i + 1 :: Passed(h, d', l', source, items[m])
  {
    if IdOf(source, items[i]) !in l.deferrals {
      assert forall m | 0 <= m < i :: Passed(h, d, l, source, items[m]) ==> IdOf(source, items[m]) in l.deferrals;
      HoldingBackKeepsOrder(l, source, items, i);
    }
    var l' := l.IsAllowed(IdOf(source, items[i])).1;
    forall m | 0 <= m < i + 1 ensures Passed(h, d', l', source, items[m]) {
      if m < i {
        assert Passed(h, d, l, source, items[m]);
      }
    }
  }

  lemma TakingIsOk(source: Entity, items: seq<Input>, d: DebugState, l: Ledger, l': Ledger, k: nat)
    requires k < |items| && UniqueIds(items) && LedgerOk(l) && InOrder(l, source, items)
    requires l' == l || l' == l.(allow := l.allow - {IdOf(source, items[k])})
    requires forall m | 0 <= m < k :: items[m].session != items[k].session
    ensures ScanOk(source, items, l, TakeResult(d, l', Some(k)))
  {
    RemovalKeepsOrder(l, l', source, items, k);
  }

  lemma HoldingAllIsOk(h: Hierarchy, source: Entity, items: seq<Input>, d: DebugState, l: Ledger)
    requires LedgerOk(l) && InOrder(l, source, items)
    requires forall m | 0 <= m < |items| :: Passed(h, d, l, source, items[m])
    ensures ScanOk(source, items, l, TakeResult(d, l, None))
  {
    forall m | 0 <= m < |items| ensures IdOf(source, items[m]) in l.deferrals {
      assert Passed(h, d, l, source, items[m]);
    }
  }

  lemma OkFromThereOn(source: Entity, items: seq<Input>, l: Ledger, l': Ledger, r: TakeResult)
    requires OnlyTouches(l, l', source) && ScanOk(source, items, l', r)
    ensures ScanOk(source, items, l, r)
  {
  }

  lemma {:induction false} ScanKeepsOrder(h: Hierarchy, order: seq<Entity>, source: Entity, items: seq<Input>,
                                          d: DebugState, l: Ledger, i: nat)
    requires i <= |items| && Enumerates(order, d.debugSessions)
    requires UniqueIds(items) && LedgerOk(l) && InOrder(l, source, items)
    requires forall m | 0 <= m < i :: Passed(h, d, l, source, items[m])
    ensures ScanOk(source, items, l, ScanFrom(h, order, source, items, d, l, i))
    decreases |items| - i
  {
    if i == |items| {
      HoldingAllIsOk(h, source, items, d, l);
      return;
    }
    var d' := d.EvaluateBreak(h, order, items[i].session, source);
    BreakPauses(d, h, order, items[i].session, source);
    var (allowed, l') := l.IsAllowed(IdOf(source, items[i]));
    if !d'.IsPaused(h, items[i].session) {
      UnpausedIsFirst(h, d, d', l, source, items, i);
      TakingIsOk(source, items, d', l, l, i);
    } else if allowed {
      PermittedIsFirst(h, d, l, source, items, i);
      TakingIsOk(source, items, d', l, l', i);
    } else {
      PassOver(h, d, d', l, source, items, i);
      ScanKeepsOrder(h, order, source, items, d', l', i + 1);
      OkFromThereOn(source, items, l, l', ScanFrom(h, order, source, items, d', l', i + 1));
    }
  }

  lemma OtherOperationsKeepOrder(l: Ledger, l': Ledger, source: Entity, other: Entity, items: seq<Input>)
    requires OnlyTouches(l, l', source) && other != source && InOrder(l, other, items)
    ensures InOrder(l', other, items)
  {
    forall i, j | 0 <= i < j < |items| && items[i].session == items[j].session
      ensures Before(l', IdOf(other, items[i]), IdOf(other, items[j]))
    {
      var a, b := IdOf(other, items[i]), IdOf(other, items[j]);
      assert Before(l, a, b);
      forall q | 0 <= q < |l'.deferrals| && l'.deferrals[q] == b
        ensures a in l'.allow || a in l'.deferrals[..q]
      {
        assert q < |l.deferrals| && l.deferrals[q] == b;
        assert l'.deferrals[..q] == l.deferrals[..q];
      }
    }
  }

  lemma MoveAcross(left: seq<Input>, one: seq<Input>, older: seq<Input>, newer: seq<Input>)
    requires one == [] || older == []
    ensures left + one + (older + newer) == left + (older + one + newer)
  {
    if one == [] {
      assert left + one == left && older + one == older;
    } else {
      assert older + newer == newer && older + one == one;
      assert left + one + newer == left + (one + newer);
    }
  }

  /** Taking an input with nothing older of its session in front of it keeps the line intact. */
  lemma TakingKeepsLine(left: seq<Input>, items: seq<Input>, k: nat, s: Entity)
    requires k < |items|
    requires forall m | 0 <= m < k :: items[m].session != items[k].session
    ensures Filter(left + [items[k]], InSession(s)) + Filter(RemoveAt(items, k), InSession(s))
         == Filter(left, InSession(s)) + Filter(items, InSession(s))
  {
    var p := InSession(s);
    var one := if s == items[k].session then [items[k]] else [];
    var older, newer := Filter(items[..k], p), Filter(items[k + 1..], p);
    assert Filter(left + [items[k]], p) == Filter(left, p) + one by {
      FilterConcat(left, [items[k]], p);
      assert Filter([items[k]], p) == one;
    }
    assert Filter(items, p) == older + one + newer && Filter(RemoveAt(items, k), p) == older + newer by {
      FilterRemove(items, k, p);
    }
    if s == items[k].session {
      assert older == [] by {
        FilterNone(items[..k], p);
      }
    }
    MoveAcross(Filter(left, p), one, older, newer);
  }

  lemma TakingKeepsFifo(store: Store, k: nat)
    requires Fifo(store) && k < |store.items|
    requires forall m | 0 <= m < k :: store.items[m].session != store.items[k].session
    ensures Fifo(store.(items := RemoveAt(store.items, k), left := store.left + [store.items[k]]))
  {
    forall s: Entity
      ensures Filter(store.left + [store.items[k]], InSession(s))
                + Filter(RemoveAt(store.items, k), InSession(s))
           == Filter(store.arrived, InSession(s))
    {
      TakingKeepsLine(store.left, store.items, k, s);
    }
  }

  lemma CleaningKeepsFifo(store: Store, session: Entity)
    requires Fifo(store)
    ensures Fifo(store.(
      items := Filter(store.items, NotInSession(session)),
      left := store.left + Filter(store.items, InSession(session))))
  {
    var cleaned := Filter(store.items, InSession(session));
    var kept := Filter(store.items, NotInSession(session));
    forall s: Entity
      ensures Filter(store.left + cleaned, InSession(s)) + Filter(kept, InSession(s))
           == Filter(store.arrived, InSession(s))
    {
      FilterConcat(store.left, cleaned, InSession(s));
      if s == session {
        FilterWithin(store.items, InSession(session), InSession(s));
        forall x | x in kept ensures x.session != s {
          FilterMember(store.items, NotInSession(session), x);
        }
        FilterNone(kept, InSession(s));
      } else {
        FilterWithin(store.items, NotInSession(session), InSession(s));
        forall x | x in cleaned ensures x.session != s {
          FilterMember(store.items, InSession(session), x);
        }
        FilterNone(cleaned, InSession(s));
      }
    }
  }

  /** Dropping some inputs from the storage leaves the rest in order. */
  lemma CleaningKeepsOrder(l: Ledger, source: Entity, items: seq<Input>, session: Entity)
    requires UniqueIds(items) && InOrder(l, source, items)
    ensures UniqueIds(Filter(items, NotInSession(session)))
    ensures InOrder(l, source, Filter(items, NotInSession(session)))
  {
    var kept := Filter(items, NotInSession(session));
    forall i, j | 0 <= i < j < |kept|
      ensures IdOf(0, kept[i]) != IdOf(0, kept[j])
      ensures kept[i].session == kept[j].session ==> Before(l, IdOf(source, kept[i]), IdOf(source, kept[j]))
    {
      var j' := FilterIndex(items, NotInSession(session), j);
      assert kept[i] == kept[..j][i];
      FilterMember(items[..j'], NotInSession(session), kept[i]);
      var i' :| 0 <= i' < j' && items[..j'][i'] == kept[i];
      assert items[i'] == kept[i];
    }
  }

  /** Letting go of every unpaused session's deferrals keeps the order, since two requests of one
      session are let go together. */
  lemma ReleaseKeepsOrder(l: Ledger, source: Entity, items: seq<Input>, d: DebugState, h: Hierarchy)
    requires LedgerOk(l) && InOrder(l, source, items)
    ensures InOrder(l.(deferrals := Filter(l.deferrals, HeldBack(d, h))), source, items)
  {
    var l' := l.(deferrals := Filter(l.deferrals, HeldBack(d, h)));
    forall i, j | 0 <= i < j < |items| && items[i].session == items[j].session
      ensures Before(l', IdOf(source, items[i]), IdOf(source, items[j]))
    {
      var a, b := IdOf(source, items[i]), IdOf(source, items[j]);
      assert Before(l, a, b);
      forall q | 0 <= q < |l'.deferrals| && l'.deferrals[q] == b
        ensures a in l'.allow || a in l'.deferrals[..q]
      {
        var k := FilterIndex(l.deferrals, HeldBack(d, h), q);
        FilterMember(l.deferrals[..k], HeldBack(d, h), a);
      }
    }
  }

  /** Turning a deferral into a permit keeps a before b, unless it is b's and a is held back before it. */
  lemma PermittingKeepsBefore(l: Ledger, k: nat, a: RequestId, b: RequestId)
    requires k < |l.deferrals| && Before(l, a, b)
    requires l.deferrals[k] == b ==> a !in l.deferrals[..k]
    ensures Before(Ledger(RemoveAt(l.deferrals, k), l.allow + {l.deferrals[k]}), a, b)
  {
    var l' := Ledger(RemoveAt(l.deferrals, k), l.allow + {l.deferrals[k]});
    forall q | 0 <= q < |l'.deferrals| && l'.deferrals[q] == b
      ensures a in l'.allow || a in l'.deferrals[..q]
    {
      var q' := if q < k then q else q + 1;
      assert l.deferrals[q'] == b;
      if a !in l'.allow {
        var p :| 0 <= p < q' && l.deferrals[p] == a;
        assert p != k;
        assert l'.deferrals[if p < k then p else p - 1] == a;
      }
    }
  }

  /** A debug step picks the oldest matching deferral, and a session and operation match for all
      of their requests or for none. */
  lemma PopKeepsOrder(l: Ledger, source: Entity, items: seq<Input>, h: Hierarchy, session: Entity,
                      operation: Option<Entity>)
    requires LedgerOk(l) && InOrder(l, source, items)
    ensures InOrder(l.PopNext(h, session, operation).1, source, items)
  {
    var k := FirstMatch(h, session, operation, l.deferrals);
    if k == |l.deferrals| {
      return;
    }
    var l' := Ledger(RemoveAt(l.deferrals, k), l.allow + {l.deferrals[k]});
    forall i, j | 0 <= i < j < |items| && items[i].session == items[j].session
      ensures Before(l', IdOf(source, items[i]), IdOf(source, items[j]))
    {
      var a, b := IdOf(source, items[i]), IdOf(source, items[j]);
      assert StepMatches(h, session, operation, a) <==> StepMatches(h, session, operation, b);
      PermittingKeepsBefore(l, k, a, b);
    }
  }

  /** A new input goes to the end of the line, and nothing in the ledger speaks of it yet. */
  lemma ArrivingKeepsOrder(l: Ledger, target: Entity, items: seq<Input>, input: Input)
    requires UniqueIds(items) && InOrder(l, target, items)
    requires IdOf(target, input) !in l.deferrals && IdOf(target, input) !in l.allow
    requires forall i | 0 <= i < |items| :: IdOf(target, items[i]) != IdOf(target, input)
    ensures UniqueIds(items + [input]) && InOrder(l, target, items + [input])
  {
    var longer := items + [input];
    forall i, j | 0 <= i < j < |longer|
      ensures IdOf(0, longer[i]) != IdOf(0, longer[j])
      ensures longer[i].session == longer[j].session ==>
                Before(l, IdOf(target, longer[i]), IdOf(target, longer[j]))
    {
      if j == |items| {
        assert IdOf(target, items[i]) != IdOf(target, input);
      } else {
        assert IdOf(0, items[i]) != IdOf(0, items[j]);
      }
    }
  }

  lemma ArrivingKeepsFifo(store: Store, input: Input)
    requires Fifo(store)
    ensures Fifo(store.(items := store.items + [input], arrived := store.arrived + [input]))
  {
    forall s: Entity
      ensures Filter(store.left, InSession(s)) + Filter(store.items + [input], InSession(s))
           == Filter(store.arrived + [input], InSession(s))
    {
      FilterConcat(store.items, [input], InSession(s));
      FilterConcat(store.arrived, [input], InSession(s));
    }
  }

  lemma DeliverKeepsOrder(w: World, session: Entity, target: Entity, data: Message, now: bool, into: Into)
    requires OrderOk(w) && FreshId(w, session, target)
    ensures OrderOk(Deliver(w, session, target, data, now, into))
  {
    if DeliveryOf(w, session, target) != Stored {
      return;
    }
    var w' := Deliver(w, session, target, data, now, into);
    var store, store' := w.slots[target].store, w'.slots[target].store;
    var input := Incoming(store, session, data);
    assert store'.items == store.items + [input];
    assert StoreOk(w.ledger, target, store);
    ArrivingKeepsOrder(w.ledger, target, store.items, input);
    ArrivingKeepsFifo(store, input);
    forall op | Holds(w', op) ensures StoreOk(w'.ledger, op, w'.slots[op].store) {
      assert op != target ==> Holds(w, op);
    }
  }

  lemma TakeKeepsOrder(w: World, source: Entity, order: seq<Entity>)
    requires OrderOk(w) && Enumerates(order, w.debug.debugSessions)
    ensures OrderOk(TakeAt(w, source, order))
  {
    if !Holds(w, source) {
      return;
    }
    var store := w.slots[source].store;
    var t := Take(w.hierarchy, order, source, store.items, w.debug, w.ledger);
    FirstOfItsSession(w, source, order);
    var w' := TakeAt(w, source, order);
    forall op | Holds(w', op) ensures StoreOk(w'.ledger, op, w'.slots[op].store) {
      assert Holds(w, op);
      if op != source {
        OtherOperationsKeepOrder(w.ledger, w'.ledger, source, op, w.slots[op].store.items);
      } else if t.index.Some? {
        TakingKeepsFifo(store, t.index.value);
        RemovalKeepsOrder(w.ledger, w.ledger, source, store.items, t.index.value);
      }
    }
  }

  /** What is taken is always the oldest stored input of its session, and when nothing is taken
      everything stored is being held back. */
  lemma FirstOfItsSession(w: World, source: Entity, order: seq<Entity>)
    requires OrderOk(w) && Enumerates(order, w.debug.debugSessions) && Holds(w, source)
    ensures var items := w.slots[source].store.items;
            ScanOk(source, items, w.ledger,
              Take(w.hierarchy, order, source, items, w.debug, w.ledger))
  {
    var items := w.slots[source].store.items;
    assert StoreOk(w.ledger, source, w.slots[source].store);
    if w.debug.IsActive() {
      ScanKeepsOrder(w.hierarchy, order, source, items, w.debug, w.ledger, 0);
    } else if items != [] {
      RemovalKeepsOrder(w.ledger, w.ledger, source, items, 0);
    }
  }

  lemma CleanupKeepsOrder(w: World, session: Entity, source: Entity)
    requires OrderOk(w)
    ensures OrderOk(CleanupAt(w, session, source))
  {
    var w' := CleanupAt(w, session, source);
    forall op | Holds(w', op) ensures StoreOk(w'.ledger, op, w'.slots[op].store) {
      assert Holds(w, op);
      if op == source {
        CleaningKeepsFifo(w.slots[op].store, session);
        CleaningKeepsOrder(w.ledger, op, w.slots[op].store.items, session);
      }
    }
  }

  /** A step that changes only the ledger, and keeps every storage in order with it. */
  lemma LedgerStepKeepsOrder(w: World, step: Step)
    requires OrderOk(w) && (step.DebugStep? || step.ReleaseUnpaused?)
    ensures OrderOk(Next(w, step))
  {
    var w' := Next(w, step);
    match step {
      case DebugStep(session, operation) => PopLedger(w.ledger, w.hierarchy, session, operation);
      case ReleaseUnpaused => ReleaseLedger(w.ledger, w.debug, w.hierarchy);
    }
    forall op | Holds(w', op) ensures StoreOk(w'.ledger, op, w'.slots[op].store) {
      var store := w.slots[op].store;
      assert Holds(w, op);
      match step {
        case DebugStep(session, operation) =>
          PopKeepsOrder(w.ledger, op, store.items, w.hierarchy, session, operation);
        case ReleaseUnpaused => ReleaseKeepsOrder(w.ledger, op, store.items, w.debug, w.hierarchy);
      }
    }
  }

  lemma StepKeepsOrder(w: World, step: Step)
    requires Enabled(w, step) && OrderOk(w) && FreshStep(w, step)
    ensures OrderOk(Next(w, step))
  {
    match step
    case Give(session, target, data, into) => DeliverKeepsOrder(w, session, target, data, true, into);
    case Defer(session, target, data, into) => DeliverKeepsOrder(w, session, target, data, false, into);
    case Execute(order) =>
      var w1 := Dequeued(w);
      assert forall op | Holds(w1, op) :: Holds(w, op);
      TakeKeepsOrder(w1, w.roster.queue[0], order);
    case TakeMore(source, order) => TakeKeepsOrder(w, source, order);
    case DebugStep(session, operation) => LedgerStepKeepsOrder(w, step);
    case ReleaseUnpaused => LedgerStepKeepsOrder(w, step);
    case Cleanup(session, source) => CleanupKeepsOrder(w, session, source);
    case _ =>
      assert forall op | Holds(Next(w, step), op) :: Holds(w, op);
  }

  /** In every run, whatever is paused, stepped, released or cleaned up, every operation's inputs of
      one session leave in the order in which they arrived, none lost and none twice. */
  lemma NeverReorders(run: Run<World, Step>)
    requires Follows(run, Initial, FreshlyStepsTo)
    ensures forall k | 0 <= k < |run.states| :: OrderOk(run.states[k])
  {
    forall w, step, w' | OrderOk(w) && FreshlyStepsTo(w, step, w') ensures OrderOk(w') {
      StepKeepsOrder(w, step);
    }
    AlwaysHolds(run, Initial, FreshlyStepsTo, OrderOk);
  }
}
