/** Once an operation has been cleaned of a session, nothing of that session comes back for as long
    as the session is still being cleaned or is gone. */
module SessionCleanup {
  import opened Common
  import opened Intake
  import opened IntakeMachine
  import opened Runs

  predicate Closed(w: World, session: Entity) {
    session in w.status ==> w.status[session] == Cleaning
  }

  predicate Clean(w: World, session: Entity, op: Entity) {
    Holds(w, op) ==> Filter(w.slots[op].store.items, InSession(session)) == []
  }

  lemma CleanupCleans(w: World, session: Entity, op: Entity)
    ensures Clean(CleanupAt(w, session, op), session, op)
  {
    if Holds(w, op) {
      var items := w.slots[op].store.items;
      var kept := Filter(items, NotInSession(session));
      forall x | x in kept ensures x.session != session {
        FilterMember(items, NotInSession(session), x);
      }
      FilterNone(kept, InSession(session));
    }
  }

  lemma {:induction false} FilterCount<T>(s: seq<T>, p: T -> bool, x: T)
    ensures multiset(Filter(s, p))[x] == if p(x) then multiset(s)[x] else 0
  {
    if s != [] {
      var n := |s| - 1;
      FilterCount(s[..n], p, x);
      assert s == s[..n] + [s[n]];
    }
  }

  /** Cleaning an operation takes every input of the session out of it, as often as it is there, and leaves every
      other input. The other operations keep what they have. */
  lemma CleanupTakesOnlyOwn(w: World, session: Entity, source: Entity, op: Entity, x: Input)
    requires Holds(w, op)
    ensures var w' := Next(w, Cleanup(session, source));
            && w' == w.(slots := w'.slots) && Holds(w', op)
            && var before, after := multiset(w.slots[op].store.items), multiset(w'.slots[op].store.items);
               after[x] == if op == source && x.session == session then 0 else before[x]
  {
    FilterCount(w.slots[op].store.items, NotInSession(session), x);
  }

  /** Every input that is taken out of a buffer uses up a sequence number. Nothing else about the operation
      changes, but for the record of what has left it. */
  lemma CleanupNumbers(w: World, session: Entity, op: Entity)
    requires Holds(w, op)
    ensures var before, after := w.slots[op].store, Next(w, Cleanup(session, op)).slots[op].store;
            && after == before.(items := after.items, issued := after.issued, left := after.left)
            && after.issued == before.issued + (if before.isBuffer then |before.items| - |after.items| else 0)
  {
    FilterSplits(w.slots[op].store.items, InSession(session), NotInSession(session));
  }

  lemma {:induction false} FilterOfSubset<T>(s: seq<T>, t: seq<T>, p: T -> bool)
    requires Filter(s, p) == [] && forall x | x in t :: x in s
    ensures Filter(t, p) == []
  {
    forall x | x in t ensures !p(x) {
      FilterMember(s, p, x);
    }
    FilterNone(t, p);
  }

  lemma CleanupKeepsClean(w: World, session: Entity, op: Entity, other: Entity, source: Entity)
    requires Clean(w, session, op)
    ensures Clean(CleanupAt(w, other, source), session, op)
  {
    if Holds(w, op) && op == source {
      var items := w.slots[op].store.items;
      forall x | x in Filter(items, NotInSession(other)) ensures x in items {
        FilterMember(items, NotInSession(other), x);
      }
      FilterOfSubset(items, Filter(items, NotInSession(other)), InSession(session));
    }
  }

  lemma TakeKeepsClean(w: World, session: Entity, op: Entity, source: Entity, order: seq<Entity>)
    requires Clean(w, session, op)
    ensures Clean(TakeAt(w, source, order), session, op)
  {
    var w' := TakeAt(w, source, order);
    if Holds(w, op) {
      FilterOfSubset(w.slots[op].store.items, w'.slots[op].store.items, InSession(session));
    }
  }

  lemma DeliverKeepsClean(w: World, session: Entity, op: Entity, receiver: Entity, target: Entity,
                          data: Message, now: bool, into: Into)
    requires Closed(w, session) && Clean(w, session, op)
    ensures Clean(Deliver(w, receiver, target, data, now, into), session, op)
  {
    if Holds(w, op) && op == target && DeliveryOf(w, receiver, target) == Stored {
      var store := w.slots[op].store;
      var input := Incoming(store, receiver, data);
      FilterConcat(store.items, [input], InSession(session));
      assert Filter([input], InSession(session)) == [];
    }
  }

  lemma StepKeepsClean(w: World, step: Step, session: Entity, op: Entity)
    requires Enabled(w, step) && Closed(w, session) && Clean(w, session, op)
    ensures Clean(Next(w, step), session, op)
  {
    match step
    case Give(s, target, data, into) => DeliverKeepsClean(w, session, op, s, target, data, true, into);
    case Defer(s, target, data, into) => DeliverKeepsClean(w, session, op, s, target, data, false, into);
    case Execute(order) =>
      TakeKeepsClean(Dequeued(w), session, op, w.roster.queue[0], order);
    case TakeMore(source, order) => TakeKeepsClean(w, session, op, source, order);
    case Cleanup(s, source) => CleanupKeepsClean(w, session, op, s, source);
    case _ =>
  }

  /** A step taken while the session is closed. */
  ghost predicate StepsWhileClosed(w: World, step: Step, w': World, session: Entity) {
    StepsTo(w, step, w') && Closed(w, session)
  }

  /** From the moment a session is cleaned out of an operation, and for as long as it stays closed,
      the operation stores no input of it. */
  lemma CleanedStaysClean(run: Run<World, Step>, session: Entity, op: Entity, start: nat, now: nat)
    requires Follows(run, Initial, StepsTo) && start < now <= |run.steps|
    requires run.steps[start] == Cleanup(session, op)
    requires forall i | start < i < now :: Closed(run.states[i], session)
    ensures Clean(run.states[now], session, op)
  {
    var rel := (w: World, step: Step, w': World) => StepsWhileClosed(w, step, w', session);
    var clean := (w: World) => Clean(w, session, op);
    assert StepsTo(run.states[start], run.steps[start], run.states[start + 1]);
    CleanupCleans(run.states[start], session, op);
    forall w, step, w' | clean(w) && rel(w, step, w') ensures clean(w') {
      StepKeepsClean(w, step, session, op);
    }
    forall k | start + 1 <= k < now ensures rel(run.states[k], run.steps[k], run.states[k + 1]) {
      assert StepsTo(run.states[k], run.steps[k], run.states[k + 1]);
    }
    KeptBetween(run, rel, clean, start + 1, now);
  }
}
