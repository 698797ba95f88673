/** What gets paused and held back, and what is let go. A scan past a breakpoint pauses only debugged sessions
    that contain the session of an input it has looked at, and records only the inputs it has passed by. */
module Pauses {
  import opened Common
  import opened Debugger
  import opened Intake
  import opened IntakeMachine
  import opened Sessions

  /** How far a scan has looked: up to the input taken, or through all of them. */
  function Looked(items: seq<Input>, index: Option<nat>): (n: nat)
    requires index.Some? ==> index.value < |items|
    ensures n <= |items|
  {
    if index.Some? then index.value + 1 else |items|
  }

  /** The breakpoint at the operation may pause p because of one of the inputs i to n - 1. */
  ghost predicate MayBreak(h: Hierarchy, d: DebugState, source: Entity, items: seq<Input>, i: nat, n: nat,
                           p: Entity)
    requires n <= |items|
  {
    && p in d.debugSessions && source in d.breakpoints
    && exists j :: i <= j < n && IsDescendent(h, p, items[j].session)
  }

  /** The scan from the i-th input on pauses debugged sessions that contain the session of an input it has
      looked at, at most one for each input. Every input it has looked at and that the breakpoint applies to
      is in a paused session afterwards. */
  lemma {:induction false} ScanPauses(h: Hierarchy, order: seq<Entity>, source: Entity, items: seq<Input>,
                                      d: DebugState, l: Ledger, i: nat)
    requires i <= |items| && Enumerates(order, d.debugSessions)
    ensures var r := ScanFrom(h, order, source, items, d, l, i);
            var n := Looked(items, r.index);
            && r.debug == d.(paused := r.debug.paused) && d.paused <= r.debug.paused
            && (forall p | p in r.debug.paused - d.paused :: MayBreak(h, d, source, items, i, n, p))
            && (forall j | i <= j < n && d.Breaks(h, items[j].session, source) ::
                  r.debug.IsPaused(h, items[j].session))
            && |r.debug.paused - d.paused| <= n - i
    decreases |items| - i
  {
    if i < |items| {
      var session := items[i].session;
      BreakPauses(d, h, order, session, source);
      var d' := d.EvaluateBreak(h, order, session, source);
      AtMostOne(d'.paused - d.paused);
      var (allowed, l') := l.IsAllowed(IdOf(source, items[i]));
      var r := ScanFrom(h, order, source, items, d, l, i);
      if d'.IsPaused(h, session) && !allowed {
        ScanPauses(h, order, source, items, d', l', i + 1);
        OneMoreLooked(d, d', r.debug);
        ScanPausesOn(h, source, items, d, d', r, i);
      }
    }
  }

  lemma AtMostOne(s: set<Entity>)
    requires forall p, q | p in s && q in s :: p == q
    ensures |s| <= 1
  {
    if p :| p in s {
      assert s == {p};
    }
  }

  lemma OneMoreLooked(d: DebugState, d': DebugState, d'': DebugState)
    requires d.paused <= d'.paused <= d''.paused
    ensures |d''.paused - d.paused| == |d'.paused - d.paused| + |d''.paused - d'.paused|
  {
    assert d''.paused - d.paused == (d'.paused - d.paused) + (d''.paused - d'.paused);
  }

  lemma ScanPausesOn(h: Hierarchy, source: Entity, items: seq<Input>, d: DebugState, d': DebugState,
                     r: TakeResult, i: nat)
    requires i < |items| && (r.index.Some? ==> i < r.index.value < |items|)
    requires d' == d.(paused := d'.paused) && r.debug == d.(paused := r.debug.paused)
    requires d.paused <= d'.paused <= r.debug.paused
    requires forall p | p in d'.paused - d.paused ::
               p in d.debugSessions && source in d.breakpoints && IsDescendent(h, p, items[i].session)
    requires forall p | p in r.debug.paused - d'.paused ::
               MayBreak(h, d', source, items, i + 1, Looked(items, r.index), p)
    ensures forall p | p in r.debug.paused - d.paused ::
              MayBreak(h, d, source, items, i, Looked(items, r.index), p)
  {
    forall p | p in r.debug.paused - d.paused ensures MayBreak(h, d, source, items, i, Looked(items, r.index), p) {
      if p in d'.paused {
        assert IsDescendent(h, p, items[i].session);
      } else {
        assert p in r.debug.paused - d'.paused;
        assert MayBreak(h, d', source, items, i + 1, Looked(items, r.index), p);
      }
    }
  }

  /** A session that is paused only since a take is inside a debugged session that also contains the session
      of an input which the take has looked at, and the operation is a breakpoint. */
  lemma TakePauses(h: Hierarchy, order: seq<Entity>, source: Entity, items: seq<Input>, d: DebugState, l: Ledger,
                   session: Entity)
    requires Enumerates(order, d.debugSessions)
    requires Take(h, order, source, items, d, l).debug.IsPaused(h, session) && !d.IsPaused(h, session)
    ensures source in d.breakpoints
    ensures exists p, j ::
              && p in d.debugSessions && IsDescendent(h, p, session)
              && 0 <= j < Looked(items, Take(h, order, source, items, d, l).index)
              && IsDescendent(h, p, items[j].session)
  {
    ScanPauses(h, order, source, items, d, l, 0);
    TakeIsScan(h, order, source, items, d, l);
    var r := ScanFrom(h, order, source, items, d, l, 0);
    var p :| p in r.debug.paused && IsDescendent(h, p, session);
    assert MayBreak(h, d, source, items, 0, Looked(items, r.index), p);
    var j :| 0 <= j < Looked(items, r.index) && IsDescendent(h, p, items[j].session);
  }

  lemma TakeIsScan(h: Hierarchy, order: seq<Entity>, source: Entity, items: seq<Input>,
                                      d: DebugState, l: Ledger)
    requires Enumerates(order, d.debugSessions)
    ensures ScanFrom(h, order, source, items, d, l, 0) == Take(h, order, source, items, d, l)
  {
    if !d.IsActive() {
      FastPathRefinesScan(h, order, source, items, d, l);
    }
  }

  /** A take records exactly the inputs that it has passed by, and drops no record. */
  lemma TakeRecords(h: Hierarchy, order: seq<Entity>, source: Entity, items: seq<Input>, d: DebugState, l: Ledger,
                    id: RequestId)
    requires Enumerates(order, d.debugSessions)
    ensures var t := Take(h, order, source, items, d, l);
            id in t.ledger.deferrals <==>
              || id in l.deferrals
              || exists j :: 0 <= j < (if t.index.Some? then t.index.value else |items|) && IdOf(source, items[j]) == id
  {
    TakeIsScan(h, order, source, items, d, l);
    ScanRecords(h, order, source, items, d, l, 0, id);
  }

  lemma {:induction false} ScanRecords(h: Hierarchy, order: seq<Entity>, source: Entity, items: seq<Input>,
                                       d: DebugState, l: Ledger, i: nat, id: RequestId)
    requires i <= |items|
    ensures var r := ScanFrom(h, order, source, items, d, l, i);
            id in r.ledger.deferrals <==>
              || id in l.deferrals
              || exists j :: i <= j < (if r.index.Some? then r.index.value else |items|) && IdOf(source, items[j]) == id
    decreases |items| - i
  {
    if i < |items| {
      var d' := d.EvaluateBreak(h, order, items[i].session, source);
      var (allowed, l') := l.IsAllowed(IdOf(source, items[i]));
      if d'.IsPaused(h, items[i].session) && !allowed {
        ScanRecords(h, order, source, items, d', l', i + 1, id);
        assert id in l'.deferrals <==> id in l.deferrals || IdOf(source, items[i]) == id;
      }
    }
  }

  // ---------- Over the machine ----------

  /** The operation that a step takes an input of, if any. */
  ghost function TakesFrom(w: World, step: Step): Option<Entity>
    requires Enabled(w, step)
  {
    match step
    case Execute(_) => Some(w.roster.queue[0])
    case TakeMore(source, _) => Some(source)
    case _ => None
  }

  ghost predicate PausedByUser(step: Step, p: Entity) {
    step == Step.Pause(p) || step == StartDebugging(p, true)
  }

  /** An input stored at the breakpoint op is inside the debugged session p. */
  ghost predicate PausedByBreakpoint(w: World, op: Entity, p: Entity) {
    && p in w.debug.debugSessions && op in w.debug.breakpoints && Holds(w, op)
    && exists j :: 0 <= j < |w.slots[op].store.items|
                   && IsDescendent(w.hierarchy, p, w.slots[op].store.items[j].session)
  }

  /** Whatever the step, a session gets on the list of paused ones only because the user has paused it, or
      because the step takes from a breakpoint with an input of it in store. */
  lemma WhatPauses(w: World, step: Step, p: Entity)
    requires Enabled(w, step) && p in Next(w, step).debug.paused - w.debug.paused
    ensures
      || PausedByUser(step, p)
      || (TakesFrom(w, step).Some? && PausedByBreakpoint(w, TakesFrom(w, step).value, p))
  {
    match step
    case Execute(order) => TakePausesAt(Dequeued(w), w.roster.queue[0], order, p);
    case TakeMore(source, order) => TakePausesAt(w, source, order, p);
    case _ =>
  }

  lemma TakePausesAt(w: World, op: Entity, order: seq<Entity>, p: Entity)
    requires Enumerates(order, w.debug.debugSessions) && p in TakeAt(w, op, order).debug.paused - w.debug.paused
    ensures PausedByBreakpoint(w, op, p)
  {
    var items := w.slots[op].store.items;
    ScanPauses(w.hierarchy, order, op, items, w.debug, w.ledger, 0);
    TakeIsScan(w.hierarchy, order, op, items, w.debug, w.ledger);
    var r := ScanFrom(w.hierarchy, order, op, items, w.debug, w.ledger, 0);
    assert MayBreak(w.hierarchy, w.debug, op, items, 0, Looked(items, r.index), p);
  }

  /** A session leaves the list of paused ones exactly if the user unpauses it, stops debugging it, or
      deactivates the debugger. */
  lemma WhatUnpauses(w: World, step: Step, p: Entity)
    requires Enabled(w, step) && p in w.debug.paused
    ensures p !in Next(w, step).debug.paused <==>
              step == Step.Unpause(p) || step == StopDebugging(p) || step == Step.Deactivate
  {
    match step
    case Execute(order) => TakeKeepsPaused(Dequeued(w), w.roster.queue[0], order);
    case TakeMore(source, order) => TakeKeepsPaused(w, source, order);
    case _ =>
  }

  lemma TakeKeepsPaused(w: World, op: Entity, order: seq<Entity>)
    requires Enumerates(order, w.debug.debugSessions)
    ensures w.debug.paused <= TakeAt(w, op, order).debug.paused
  {
    if Holds(w, op) {
      var items := w.slots[op].store.items;
      ScanPauses(w.hierarchy, order, op, items, w.debug, w.ledger, 0);
      TakeIsScan(w.hierarchy, order, op, items, w.debug, w.ledger);
    }
  }

  /** Breakpoints change only by being set, and sessions are debugged from when this is asked for until it is
      asked to stop or the debugger is deactivated. */
  lemma WhatIsDebugged(w: World, step: Step, p: Entity)
    requires Enabled(w, step)
    ensures Next(w, step).debug.breakpoints == if step.SetBreakpoints? then step.breakpoints else w.debug.breakpoints
    ensures p in Next(w, step).debug.debugSessions <==>
              || step == StartDebugging(p, true) || step == StartDebugging(p, false)
              || (p in w.debug.debugSessions && step != StopDebugging(p) && step != Step.Deactivate)
  {
    match step
    case Execute(order) => TakeKeepsSettings(Dequeued(w), w.roster.queue[0], order);
    case TakeMore(source, order) => TakeKeepsSettings(w, source, order);
    case _ =>
  }

  lemma TakeKeepsSettings(w: World, op: Entity, order: seq<Entity>)
    requires Enumerates(order, w.debug.debugSessions)
    ensures var w' := TakeAt(w, op, order);
            w'.debug.breakpoints == w.debug.breakpoints && w'.debug.debugSessions == w.debug.debugSessions
  {
    if Holds(w, op) {
      var items := w.slots[op].store.items;
      ScanPauses(w.hierarchy, order, op, items, w.debug, w.ledger, 0);
      TakeIsScan(w.hierarchy, order, op, items, w.debug, w.ledger);
    }
  }

  // ---------- Letting go ----------

  /** Exactly the requests of sessions that are inside no paused one are let go. Each of them wakes its
      operation, and nothing else is woken. */
  lemma ReleasesUnpausedOnly(w: World, id: RequestId)
    ensures var w' := Next(w, ReleaseUnpaused);
            && w' == w.(ledger := w'.ledger, roster := w'.roster)
            && w'.ledger == w.ledger.(deferrals := w'.ledger.deferrals)
            && (id in w'.ledger.deferrals <==>
                  id in w.ledger.deferrals
                  && exists p :: p in w.debug.paused && IsDescendent(w.hierarchy, p, id.session))
            && w'.roster == w.roster.(queue := w'.roster.queue)
            && |w'.roster.queue| + |w'.ledger.deferrals| == |w.roster.queue| + |w.ledger.deferrals|
            && w.roster.queue <= w'.roster.queue
            && forall op :: op in w'.roster.queue[|w.roster.queue|..] <==>
                 exists k :: && 0 <= k < |w.ledger.deferrals| && w.ledger.deferrals[k].source == op
                             && !w.debug.IsPaused(w.hierarchy, w.ledger.deferrals[k].session)
  {
    var ids, held, gone := w.ledger.deferrals, HeldBack(w.debug, w.hierarchy), LetGo(w.debug, w.hierarchy);
    FilterMember(ids, held, id);
    FilterSplits(ids, held, gone);
    var w' := Next(w, ReleaseUnpaused);
    var dropped := Filter(ids, gone);
    assert w'.roster.queue[|w.roster.queue|..] == Sources(dropped);
    forall op
      ensures op in Sources(dropped) <==>
                exists k :: && 0 <= k < |ids| && ids[k].source == op
                            && !w.debug.IsPaused(w.hierarchy, ids[k].session)
    {
      DroppedSources(ids, gone, op);
    }
  }

  lemma DroppedSources(ids: seq<RequestId>, gone: RequestId -> bool, op: Entity)
    ensures op in Sources(Filter(ids, gone)) <==> exists k :: 0 <= k < |ids| && ids[k].source == op && gone(ids[k])
  {
    var dropped := Filter(ids, gone);
    if op in Sources(dropped) {
      var k :| 0 <= k < |dropped| && Sources(dropped)[k] == op;
      FilterMember(ids, gone, dropped[k]);
    }
    if k :| 0 <= k < |ids| && ids[k].source == op && gone(ids[k]) {
      FilterMember(ids, gone, ids[k]);
      var j :| 0 <= j < |dropped| && dropped[j] == ids[k];
      assert Sources(dropped)[j] == op;
    }
  }
}
