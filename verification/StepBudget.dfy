/** What the debugger's ledger keeps in every run: no request is held back twice or both held back
    and permitted, and one debug step releases at most one message. */
module StepBudget {
  import opened Common
  import opened Debugger
  import opened Intake
  import opened IntakeMachine
  import opened Runs
  import opened Sessions

  ghost predicate LedgerOk(l: Ledger) {
    NoDuplicates(l.deferrals) && forall id | id in l.allow :: id !in l.deferrals
  }

  ghost predicate BudgetOk(w: World) {
    && LedgerOk(w.ledger)
    && w.stepped == w.takenWhilePaused + |w.ledger.allow|
  }

  /** A scan keeps the ledger well formed. It uses a permit, and only one, exactly when it takes an
      input of a paused session. */
  lemma {:induction false} ScanLedger(h: Hierarchy, order: seq<Entity>, source: Entity, items: seq<Input>,
                                      d: DebugState, l: Ledger, i: nat)
    requires i <= |items| && LedgerOk(l)
    ensures var r := ScanFrom(h, order, source, items, d, l, i);
            && LedgerOk(r.ledger)
            && if r.index.Some? && r.debug.IsPaused(h, items[r.index.value].session)
               then IdOf(source, items[r.index.value]) in l.allow
                 && r.ledger.allow == l.allow - {IdOf(source, items[r.index.value])}
               else r.ledger.allow == l.allow
    decreases |items| - i
  {
    if i < |items| {
      var d' := d.EvaluateBreak(h, order, items[i].session, source);
      var (allowed, l') := l.IsAllowed(IdOf(source, items[i]));
      if d'.IsPaused(h, items[i].session) && !allowed {
        ScanLedger(h, order, source, items, d', l', i + 1);
      }
    }
  }

  lemma FilterKeepsNoDuplicates<T>(s: seq<T>, p: T -> bool)
    requires NoDuplicates(s)
    ensures NoDuplicates(Filter(s, p))
  {
    var f := Filter(s, p);
    forall i, j | 0 <= i < j < |f| ensures f[i] != f[j] {
      var k := FilterIndex(s, p, j);
      assert f[i] == f[..j][i];
      FilterMember(s[..k], p, f[i]);
      var m :| 0 <= m < k && s[..k][m] == f[i];
    }
  }

  lemma ReleaseLedger(l: Ledger, d: DebugState, h: Hierarchy)
    requires LedgerOk(l)
    ensures LedgerOk(l.(deferrals := Filter(l.deferrals, HeldBack(d, h))))
  {
    FilterKeepsNoDuplicates(l.deferrals, HeldBack(d, h));
    forall id | id in l.allow ensures id !in Filter(l.deferrals, HeldBack(d, h)) {
      FilterMember(l.deferrals, HeldBack(d, h), id);
    }
  }

  lemma PopLedger(l: Ledger, h: Hierarchy, session: Entity, operation: Option<Entity>)
    requires LedgerOk(l)
    ensures var (id, l') := l.PopNext(h, session, operation);
            LedgerOk(l') && |l'.allow| == |l.allow| + (if id.Some? then 1 else 0)
  {
  }

  lemma TakeBudget(w: World, source: Entity, order: seq<Entity>)
    requires BudgetOk(w)
    ensures BudgetOk(TakeAt(w, source, order))
  {
    if Holds(w, source) {
      ScanLedger(w.hierarchy, order, source, w.slots[source].store.items, w.debug, w.ledger, 0);
    }
  }

  lemma StepKeepsBudget(w: World, step: Step)
    requires Enabled(w, step) && BudgetOk(w)
    ensures BudgetOk(Next(w, step))
  {
    match step
    case Execute(order) =>
      TakeBudget(Dequeued(w), w.roster.queue[0], order);
    case TakeMore(source, order) => TakeBudget(w, source, order);
    case DebugStep(session, operation) => PopLedger(w.ledger, w.hierarchy, session, operation);
    case ReleaseUnpaused => ReleaseLedger(w.ledger, w.debug, w.hierarchy);
    case _ =>
  }

  /** In every run, the inputs taken from paused sessions and the outstanding permits together
      number the debug steps that found something to release. */
  lemma StepBudgetHolds(run: Run<World, Step>)
    requires Follows(run, Initial, StepsTo)
    ensures forall k | 0 <= k < |run.states| :: BudgetOk(run.states[k])
  {
    forall w, step, w' | BudgetOk(w) && StepsTo(w, step, w') ensures BudgetOk(w') {
      StepKeepsBudget(w, step);
    }
    AlwaysHolds(run, Initial, StepsTo, BudgetOk);
  }

  /** While a debugged session or an ancestor of it is under debugging, none of its messages is
      taken at a breakpointed operation without consuming that message's own permit. */
  lemma BreakpointNeedsPermit(h: Hierarchy, order: seq<Entity>, source: Entity, items: seq<Input>,
                              d: DebugState, l: Ledger)
    requires Enumerates(order, d.debugSessions) && LedgerOk(l)
    ensures var t := Take(h, order, source, items, d, l);
            t.index.Some? && d.Breaks(h, items[t.index.value].session, source) ==>
              var id := IdOf(source, items[t.index.value]);
              id in l.allow && t.ledger.allow == l.allow - {id}
  {
    ScanBreaks(h, order, source, items, d, l, 0);
    ScanLedger(h, order, source, items, d, l, 0);
  }

  lemma {:induction false} ScanBreaks(h: Hierarchy, order: seq<Entity>, source: Entity, items: seq<Input>,
                                      d: DebugState, l: Ledger, i: nat)
    requires i <= |items| && Enumerates(order, d.debugSessions)
    ensures var r := ScanFrom(h, order, source, items, d, l, i);
            r.index.Some? && d.Breaks(h, items[r.index.value].session, source) ==>
              r.debug.IsPaused(h, items[r.index.value].session)
    decreases |items| - i
  {
    if i < |items| {
      BreakPauses(d, h, order, items[i].session, source);
      var d' := d.EvaluateBreak(h, order, items[i].session, source);
      var (allowed, l') := l.IsAllowed(IdOf(source, items[i]));
      if d'.IsPaused(h, items[i].session) && !allowed {
        ScanBreaks(h, order, source, items, d', l', i + 1);
      }
    }
  }
}
