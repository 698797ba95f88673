/** What a debug step achieves. It is meant to have a paused session take its oldest message, but the
    ledger it works on may be out of step with what is stored. */
module DebugSteps {
  import opened Common
  import opened Debugger
  import opened DebuggerOrder
  import opened Intake
  import opened IntakeMachine
  import opened Sessions

  // ---------- Which input is taken ----------

  /** No pause and no breakpoint holds the input, or it is permitted. */
  ghost predicate Free(h: Hierarchy, d: DebugState, allow: set<RequestId>, source: Entity, input: Input) {
    IdOf(source, input) in allow || !(d.IsPaused(h, input.session) || d.Breaks(h, input.session, source))
  }

  ghost predicate IsFirstFree(h: Hierarchy, d: DebugState, allow: set<RequestId>, source: Entity,
                              items: seq<Input>, index: Option<nat>)
  {
    match index
    case None => forall j | 0 <= j < |items| :: !Free(h, d, allow, source, items[j])
    case Some(k) =>
      && k < |items| && Free(h, d, allow, source, items[k])
      && forall j | 0 <= j < k :: !Free(h, d, allow, source, items[j])
  }

  /** Since d, breakpoints at the operation have paused debugged sessions, and nothing else has changed. */
  ghost predicate BrokenSince(d: DebugState, d': DebugState, source: Entity) {
    && d' == d.(paused := d'.paused) && d.paused <= d'.paused
    && forall p | p in d'.paused && p !in d.paused :: p in d.debugSessions && source in d.breakpoints
  }

  lemma BreakingStays(h: Hierarchy, order: seq<Entity>, d: DebugState, d': DebugState, session: Entity,
                      source: Entity)
    requires BrokenSince(d, d', source) && Enumerates(order, d.debugSessions)
    ensures var d'' := d'.EvaluateBreak(h, order, session, source);
            && BrokenSince(d, d'', source)
            && (d''.IsPaused(h, session) <==> d.IsPaused(h, session) || d.Breaks(h, session, source))
  {
    FirstContainingFound(h, order, session);
    BreakPauses(d', h, order, session, source);
    var d'' := d'.EvaluateBreak(h, order, session, source);
    if d''.IsPaused(h, session) {
      var p :| p in d''.paused && IsDescendent(h, p, session);
      assert p in d.paused || (p in d.debugSessions && source in d.breakpoints);
    }
    assert d'.Breaks(h, session, source) <==> d.Breaks(h, session, source);
  }

  lemma {:induction false} ScanTakesFirstFree(h: Hierarchy, order: seq<Entity>, source: Entity, items: seq<Input>,
                                              d: DebugState, d': DebugState, l: Ledger, i: nat)
    requires i <= |items| && Enumerates(order, d.debugSessions) && BrokenSince(d, d', source)
    requires forall j | 0 <= j < i :: !Free(h, d, l.allow, source, items[j])
    ensures IsFirstFree(h, d, l.allow, source, items, ScanFrom(h, order, source, items, d', l, i).index)
    decreases |items| - i
  {
    if i < |items| {
      BreakingStays(h, order, d, d', items[i].session, source);
      var d'' := d'.EvaluateBreak(h, order, items[i].session, source);
      var (allowed, l') := l.IsAllowed(IdOf(source, items[i]));
      if d''.IsPaused(h, items[i].session) && !allowed {
        ScanTakesFirstFree(h, order, source, items, d, d'', l', i + 1);
      }
    }
  }

  /** Whatever is recorded and in whatever order the debugged sessions are visited: an operation takes its
      oldest input that no pause and no breakpoint holds or that is permitted. */
  lemma TakesFirstFree(h: Hierarchy, order: seq<Entity>, source: Entity, items: seq<Input>,
                       d: DebugState, l: Ledger)
    requires Enumerates(order, d.debugSessions)
    ensures IsFirstFree(h, d, l.allow, source, items, Take(h, order, source, items, d, l).index)
  {
    if d.IsActive() {
      ScanTakesFirstFree(h, order, source, items, d, d, l, 0);
    }
  }

  // ---------- What a step makes an operation take ----------

  ghost predicate FreeIn(w: World, source: Entity, input: Input) {
    Free(w.hierarchy, w.debug, w.ledger.allow, source, input)
  }

  /** When the operation is executed next, it takes its k-th oldest input. */
  ghost predicate Ingests(w: World, source: Entity, order: seq<Entity>, k: nat) {
    && Holds(w, source) && k < |w.slots[source].store.items|
    && var store := w.slots[source].store;
       TakeAt(w, source, order).slots[source] ==
       Holding(store.(items := RemoveAt(store.items, k), left := store.left + [store.items[k]]))
  }

  lemma IngestsFirstFree(w: World, source: Entity, order: seq<Entity>, k: nat)
    requires Enumerates(order, w.debug.debugSessions)
    requires Holds(w, source) && k < |w.slots[source].store.items| && UniqueIds(w.slots[source].store.items)
    ensures Ingests(w, source, order, k) <==> IsFirstFreeIn(w, source, Some(k))
  {
    var store := w.slots[source].store;
    TakenIsFirstFree(w, source, order);
    TakenBy(w, source, order);
    var index := TakenIndex(w, source, order);
    if Ingests(w, source, order, k) {
      assert index.Some?;
      assert (store.left + [store.items[k]])[|store.left|] == (store.left + [store.items[index.value]])[|store.left|];
      SameInputSamePlace(store.items, k, index.value);
    }
    if IsFirstFreeIn(w, source, Some(k)) {
      FirstFreeIsUnique(w, source, index, Some(k));
    }
  }

  lemma SameInputSamePlace(items: seq<Input>, i: nat, j: nat)
    requires UniqueIds(items) && i < |items| && j < |items|
    ensures IdOf(0, items[i]) == IdOf(0, items[j]) ==> i == j
  {
    if i < j {
      assert IdOf(0, items[i]) != IdOf(0, items[j]);
    } else if j < i {
      assert IdOf(0, items[j]) != IdOf(0, items[i]);
    }
  }

  /** The request that a step gives a permit. */
  ghost function ReleasedBy(w: World, session: Entity, operation: Option<Entity>): Option<RequestId> {
    w.ledger.PopNext(w.hierarchy, session, operation).0
  }

  lemma StepFrees(w: World, session: Entity, operation: Option<Entity>, source: Entity, input: Input)
    ensures var w' := StepDebugger(w, session, operation);
            FreeIn(w', source, input) <==>
              FreeIn(w, source, input) || ReleasedBy(w, session, operation) == Some(IdOf(source, input))
  {
  }

  /** The request is stored at its operation, in the k-th place from the oldest on. */
  ghost predicate IsStoredAt(w: World, id: RequestId, k: nat) {
    && Holds(w, id.source) && k < |w.slots[id.source].store.items|
    && IdOf(id.source, w.slots[id.source].store.items[k]) == id
  }

  /** Nothing older than the k-th input would be taken before it. */
  ghost predicate NoneOlderFree(w: World, source: Entity, k: nat)
    requires Holds(w, source) && k <= |w.slots[source].store.items|
  {
    forall j | 0 <= j < k :: !FreeIn(w, source, w.slots[source].store.items[j])
  }

  /** The execution that a step queues takes the message that the step has released exactly if that
      message is still stored and no older input would be taken without the step. */
  lemma StepIngestsReleasedIff(w: World, session: Entity, operation: Option<Entity>, order: seq<Entity>,
                               id: RequestId)
    requires OrderOk(w) && Enumerates(order, w.debug.debugSessions)
    requires ReleasedBy(w, session, operation) == Some(id)
    ensures (exists k: nat :: IsStoredAt(w, id, k) && Ingests(StepDebugger(w, session, operation), id.source, order, k))
       <==> exists k: nat :: IsStoredAt(w, id, k) && NoneOlderFree(w, id.source, k)
  {
    var w' := StepDebugger(w, session, operation);
    forall k: nat | IsStoredAt(w, id, k)
      ensures Ingests(w', id.source, order, k) <==> NoneOlderFree(w, id.source, k)
    {
      ReleasedIngestedIff(w, session, operation, order, id, k);
    }
  }

  /** The step frees no other input than the one whose request it releases. */
  lemma OthersStayAsFree(w: World, session: Entity, operation: Option<Entity>, id: RequestId,
                         items: seq<Input>, j: nat, k: nat)
    requires ReleasedBy(w, session, operation) == Some(id)
    requires UniqueIds(items) && j < k < |items| && IdOf(id.source, items[k]) == id
    ensures FreeIn(StepDebugger(w, session, operation), id.source, items[j]) <==> FreeIn(w, id.source, items[j])
  {
    StepFrees(w, session, operation, id.source, items[j]);
    SameInputSamePlace(items, j, k);
  }

  lemma ReleasedIngestedIff(w: World, session: Entity, operation: Option<Entity>, order: seq<Entity>,
                            id: RequestId, k: nat)
    requires OrderOk(w) && Enumerates(order, w.debug.debugSessions)
    requires ReleasedBy(w, session, operation) == Some(id) && IsStoredAt(w, id, k)
    ensures Ingests(StepDebugger(w, session, operation), id.source, order, k) <==> NoneOlderFree(w, id.source, k)
  {
    StepIngestsFirstFree(w, session, operation, id.source, order, k);
    ReleasedIsFirstFree(w, session, operation, id, k);
  }

  lemma ReleasedIsFirstFree(w: World, session: Entity, operation: Option<Entity>, id: RequestId, k: nat)
    requires OrderOk(w) && ReleasedBy(w, session, operation) == Some(id) && IsStoredAt(w, id, k)
    ensures IsFirstFreeIn(StepDebugger(w, session, operation), id.source, Some(k)) <==> NoneOlderFree(w, id.source, k)
  {
    var w', items := StepDebugger(w, session, operation), w.slots[id.source].store.items;
    StepFrees(w, session, operation, id.source, items[k]);
    assert StoreOk(w.ledger, id.source, w.slots[id.source].store);
    forall j | 0 <= j < k
      ensures FreeIn(w', id.source, items[j]) <==> FreeIn(w, id.source, items[j])
    {
      OthersStayAsFree(w, session, operation, id, items, j, k);
    }
  }

  /** The k-th input is the oldest that the session has stored at the operation. */
  ghost predicate IsOldestStored(w: World, session: Entity, op: Entity, k: nat) {
    && Holds(w, op) && k < |w.slots[op].store.items|
    && IsDescendent(w.hierarchy, session, w.slots[op].store.items[k].session)
    && forall j | 0 <= j < k :: !IsDescendent(w.hierarchy, session, w.slots[op].store.items[j].session)
  }

  /** The request is the first one that is held back at its operation, for whichever session. */
  ghost predicate IsFirstHeld(l: Ledger, id: RequestId) {
    exists n :: 0 <= n < |l.deferrals| && l.deferrals[n] == id
                && forall m | 0 <= m < n :: l.deferrals[m].source != id.source
  }

  /** The request is the first one that is held back in the session or in one inside it. */
  ghost predicate IsFirstInside(h: Hierarchy, l: Ledger, session: Entity, id: RequestId) {
    exists n :: 0 <= n < |l.deferrals| && l.deferrals[n] == id && IsDescendent(h, session, id.session)
                && forall m | 0 <= m < n :: !IsDescendent(h, session, l.deferrals[m].session)
  }

  /** A step for an operation is for the first request held back there. Any other is for the first request
      held back in its session. */
  ghost predicate IsDue(w: World, session: Entity, operation: Option<Entity>, id: RequestId) {
    match operation
    case Some(op) => id.source == op && IsFirstHeld(w.ledger, id)
    case None => IsFirstInside(w.hierarchy, w.ledger, session, id)
  }

  /** A step without an operation releases the n-th deferral exactly if that is the first one of its
      session or of one inside it. The deferral turns into a permit and the others stay. If there is none
      nothing changes. */
  lemma PopsFirstInside(h: Hierarchy, l: Ledger, session: Entity)
    ensures var (id, l') := l.PopNext(h, session, None);
            match id
            case Some(next) =>
              exists n ::
                && 0 <= n < |l.deferrals| && l.deferrals[n] == next && IsDescendent(h, session, next.session)
                && (forall m | 0 <= m < n :: !IsDescendent(h, session, l.deferrals[m].session))
                && l' == Ledger(l.deferrals[..n] + l.deferrals[n + 1..], l.allow + {next})
            case None =>
              l' == l && forall n | 0 <= n < |l.deferrals| :: !IsDescendent(h, session, l.deferrals[n].session)
  {
    var n := FirstMatch(h, session, None, l.deferrals);
    forall m | 0 <= m < n ensures !IsDescendent(h, session, l.deferrals[m].session) {
      assert !StepMatches(h, session, None, l.deferrals[m]);
    }
    if n < |l.deferrals| {
      assert StepMatches(h, session, None, l.deferrals[n]);
    }
  }

  /** A step for an operation releases the first deferral of that operation, whatever its session. */
  lemma PopsFirstHeld(h: Hierarchy, l: Ledger, session: Entity, op: Entity)
    ensures var (id, l') := l.PopNext(h, session, Some(op));
            match id
            case Some(next) =>
              exists n ::
                && 0 <= n < |l.deferrals| && l.deferrals[n] == next && next.source == op
                && (forall m | 0 <= m < n :: l.deferrals[m].source != op)
                && l' == Ledger(l.deferrals[..n] + l.deferrals[n + 1..], l.allow + {next})
            case None =>
              l' == l && forall n | 0 <= n < |l.deferrals| :: l.deferrals[n].source != op
  {
    var n := FirstMatch(h, session, Some(op), l.deferrals);
    forall m | 0 <= m < n ensures l.deferrals[m].source != op {
      assert !StepMatches(h, session, Some(op), l.deferrals[m]);
    }
    if n < |l.deferrals| {
      assert StepMatches(h, session, Some(op), l.deferrals[n]);
    }
  }

  lemma ReleasesFirstHeld(h: Hierarchy, l: Ledger, session: Entity, op: Entity, id: RequestId)
    ensures l.PopNext(h, session, Some(op)).0 == Some(id) <==> id.source == op && IsFirstHeld(l, id)
  {
    PopsFirstHeld(h, l, session, op);
  }

  lemma ReleasesFirstInside(h: Hierarchy, l: Ledger, session: Entity, id: RequestId)
    ensures l.PopNext(h, session, None).0 == Some(id) <==> IsFirstInside(h, l, session, id)
  {
    PopsFirstInside(h, l, session);
  }

  lemma ReleasesDue(w: World, session: Entity, operation: Option<Entity>, id: RequestId)
    ensures ReleasedBy(w, session, operation) == Some(id) <==> IsDue(w, session, operation, id)
  {
    if operation.Some? {
      ReleasesFirstHeld(w.hierarchy, w.ledger, session, operation.value, id);
    } else {
      ReleasesFirstInside(w.hierarchy, w.ledger, session, id);
    }
  }

  /** A step frees the inputs whose request it is for, and no others. */
  lemma StepFreesDue(w: World, session: Entity, operation: Option<Entity>, source: Entity, input: Input)
    ensures FreeIn(StepDebugger(w, session, operation), source, input) <==>
              FreeIn(w, source, input) || IsDue(w, session, operation, IdOf(source, input))
  {
    StepFrees(w, session, operation, source, input);
    ReleasesDue(w, session, operation, IdOf(source, input));
  }

  /** Whatever a step without an operation newly frees belongs to its session or to one inside it, and a
      step for an operation newly frees inputs of that operation only. */
  lemma StepFreesOwn(w: World, session: Entity, operation: Option<Entity>, source: Entity, input: Input)
    requires FreeIn(StepDebugger(w, session, operation), source, input) && !FreeIn(w, source, input)
    ensures match operation
            case Some(op) => source == op
            case None => IsDescendent(w.hierarchy, session, input.session)
  {
    StepFreesDue(w, session, operation, source, input);
  }

  /** The operation of the released request is queued in the deferred roster. Without one nothing changes. */
  lemma StepQueuesReleased(w: World, session: Entity, operation: Option<Entity>)
    ensures var w' := StepDebugger(w, session, operation);
            && w' == w.(ledger := w'.ledger, deferred := w'.deferred, stepped := w'.stepped)
            && w'.deferred == w.deferred.(queue := w'.deferred.queue)
            && (forall id | IsDue(w, session, operation, id) ::
                  && w'.deferred.queue == w.deferred.queue + [id.source]
                  && w'.ledger.allow == w.ledger.allow + {id} && w'.stepped == w.stepped + 1)
            && ((forall id :: !IsDue(w, session, operation, id)) ==> w' == w)
  {
    forall id | IsDue(w, session, operation, id) ensures ReleasedBy(w, session, operation) == Some(id) {
      ReleasesDue(w, session, operation, id);
    }
    var id := ReleasedBy(w, session, operation);
    if id.Some? {
      ReleasesDue(w, session, operation, id.value);
    }
  }

  lemma StepLeavesStorage(w: World, session: Entity, operation: Option<Entity>)
    ensures var w' := StepDebugger(w, session, operation);
            w'.slots == w.slots && w'.debug == w.debug && w'.hierarchy == w.hierarchy
  {
  }

  lemma StepIngestsFirstFree(w: World, session: Entity, operation: Option<Entity>, op: Entity,
                             order: seq<Entity>, k: nat)
    requires OrderOk(w) && Enumerates(order, w.debug.debugSessions)
    requires Holds(w, op) && k < |w.slots[op].store.items|
    ensures var w' := StepDebugger(w, session, operation);
            Ingests(w', op, order, k) <==> IsFirstFreeIn(w', op, Some(k))
  {
    assert StoreOk(w.ledger, op, w.slots[op].store);
    StepLeavesStorage(w, session, operation);
    IngestsFirstFree(StepDebugger(w, session, operation), op, order, k);
  }

  lemma FirstFreeAfterStep(w: World, session: Entity, operation: Option<Entity>, op: Entity, k: nat)
    requires Holds(w, op) && k < |w.slots[op].store.items|
    ensures var items := w.slots[op].store.items;
            IsFirstFreeIn(StepDebugger(w, session, operation), op, Some(k)) <==>
              && (FreeIn(w, op, items[k]) || IsDue(w, session, operation, IdOf(op, items[k])))
              && forall j | 0 <= j < k ::
                   !FreeIn(w, op, items[j]) && !IsDue(w, session, operation, IdOf(op, items[j]))
  {
    var w', items := StepDebugger(w, session, operation), w.slots[op].store.items;
    forall j | 0 <= j <= k
      ensures FreeIn(w', op, items[j]) <==>
                FreeIn(w, op, items[j]) || IsDue(w, session, operation, IdOf(op, items[j]))
    {
      StepFreesDue(w, session, operation, op, items[j]);
    }
  }

  /** A step is meant to have its session take the oldest message that the session has, at the operation if
      one is named. An operation takes the oldest message that it has of the session exactly if that message
      is free already or the one that the step is for, and no older input there is either. */
  lemma StepIngestsOldestIff(w: World, session: Entity, operation: Option<Entity>, op: Entity,
                             order: seq<Entity>, k: nat)
    requires OrderOk(w) && Enumerates(order, w.debug.debugSessions) && IsOldestStored(w, session, op, k)
    ensures var items := w.slots[op].store.items;
            Ingests(StepDebugger(w, session, operation), op, order, k) <==>
              && (FreeIn(w, op, items[k]) || IsDue(w, session, operation, IdOf(op, items[k])))
              && forall j | 0 <= j < k ::
                   !FreeIn(w, op, items[j]) && !IsDue(w, session, operation, IdOf(op, items[j]))
  {
    StepIngestsFirstFree(w, session, operation, op, order, k);
    FirstFreeAfterStep(w, session, operation, op, k);
  }

  lemma DueAreUnique(w: World, session: Entity, operation: Option<Entity>, a: RequestId, b: RequestId)
    ensures IsDue(w, session, operation, a) && IsDue(w, session, operation, b) ==> a == b
  {
    ReleasesDue(w, session, operation, a);
    ReleasesDue(w, session, operation, b);
  }

  /** In particular, when all up to that message are held and none is permitted: exactly if the step is for
      that message. */
  lemma StepIngestsHeldIff(w: World, session: Entity, operation: Option<Entity>, op: Entity,
                           order: seq<Entity>, k: nat)
    requires OrderOk(w) && Enumerates(order, w.debug.debugSessions) && IsOldestStored(w, session, op, k)
    requires forall j | 0 <= j <= k :: !FreeIn(w, op, w.slots[op].store.items[j])
    ensures Ingests(StepDebugger(w, session, operation), op, order, k) <==>
              IsDue(w, session, operation, IdOf(op, w.slots[op].store.items[k]))
  {
    var items := w.slots[op].store.items;
    StepIngestsOldestIff(w, session, operation, op, order, k);
    assert StoreOk(w.ledger, op, w.slots[op].store);
    if IsDue(w, session, operation, IdOf(op, items[k])) {
      forall j | 0 <= j < k ensures !IsDue(w, session, operation, IdOf(op, items[j])) {
        SameInputSamePlace(items, j, k);
        DueAreUnique(w, session, operation, IdOf(op, items[j]), IdOf(op, items[k]));
      }
    }
  }

  // ---------- Whether a step makes a difference ----------

  ghost function TakenIndex(w: World, op: Entity, order: seq<Entity>): (index: Option<nat>)
    requires Holds(w, op)
    ensures index.Some? ==> index.value < |w.slots[op].store.items|
  {
    Take(w.hierarchy, order, op, w.slots[op].store.items, w.debug, w.ledger).index
  }

  ghost predicate IsFirstFreeIn(w: World, op: Entity, index: Option<nat>)
    requires Holds(w, op) && (index.Some? ==> index.value < |w.slots[op].store.items|)
  {
    match index
    case None => NoneOlderFree(w, op, |w.slots[op].store.items|)
    case Some(k) => FreeIn(w, op, w.slots[op].store.items[k]) && NoneOlderFree(w, op, k)
  }

  lemma TakenIsFirstFree(w: World, op: Entity, order: seq<Entity>)
    requires Holds(w, op) && Enumerates(order, w.debug.debugSessions)
    ensures IsFirstFreeIn(w, op, TakenIndex(w, op, order))
  {
    TakesFirstFree(w.hierarchy, order, op, w.slots[op].store.items, w.debug, w.ledger);
  }

  lemma FirstFreeIsUnique(w: World, op: Entity, a: Option<nat>, b: Option<nat>)
    requires Holds(w, op)
    requires a.Some? ==> a.value < |w.slots[op].store.items|
    requires b.Some? ==> b.value < |w.slots[op].store.items|
    requires IsFirstFreeIn(w, op, a) && IsFirstFreeIn(w, op, b)
    ensures a == b
  {
  }

  lemma TakenBy(w: World, op: Entity, order: seq<Entity>)
    requires Holds(w, op)
    ensures var store := w.slots[op].store;
            TakeAt(w, op, order).slots[op] ==
            match TakenIndex(w, op, order)
            case None => Holding(store)
            case Some(k) => Holding(store.(items := RemoveAt(store.items, k), left := store.left + [store.items[k]]))
  {
  }

  lemma SameTakeIff(w: World, w': World, op: Entity, order: seq<Entity>)
    requires OrderOk(w) && Holds(w, op) && w'.slots == w.slots
    ensures TakeAt(w', op, order).slots[op] == TakeAt(w, op, order).slots[op]
       <==> TakenIndex(w', op, order) == TakenIndex(w, op, order)
  {
    TakenBy(w, op, order);
    TakenBy(w', op, order);
    assert StoreOk(w.ledger, op, w.slots[op].store);
    var left, items := w.slots[op].store.left, w.slots[op].store.items;
    var a, b := TakenIndex(w', op, order), TakenIndex(w, op, order);
    if a.Some? && b.Some? {
      assert (left + [items[a.value]])[|left|] == items[a.value];
      assert (left + [items[b.value]])[|left|] == items[b.value];
      SameInputSamePlace(items, a.value, b.value);
    }
  }

  /** The released request is the k-th input of the operation, which is held and would not be passed by. */
  ghost predicate LetsThrough(w: World, session: Entity, operation: Option<Entity>, op: Entity, k: nat) {
    && Holds(w, op) && k < |w.slots[op].store.items|
    && ReleasedBy(w, session, operation) == Some(IdOf(op, w.slots[op].store.items[k]))
    && NoneOlderFree(w, op, k + 1)
  }

  /** A step makes a difference to what an operation takes next exactly if the request that it releases is
      stored there, is held, and no older input would be taken anyway. */
  lemma StepMattersIff(w: World, session: Entity, operation: Option<Entity>, op: Entity, order: seq<Entity>)
    requires OrderOk(w) && Enumerates(order, w.debug.debugSessions) && Holds(w, op)
    ensures TakeAt(StepDebugger(w, session, operation), op, order).slots[op] != TakeAt(w, op, order).slots[op]
       <==> exists k: nat :: LetsThrough(w, session, operation, op, k)
  {
    var w' := StepDebugger(w, session, operation);
    SameTakeIff(w, w', op, order);
    TakenIsFirstFree(w, op, order);
    TakenIsFirstFree(w', op, order);
    if k: nat :| LetsThrough(w, session, operation, op, k) {
      LetThrough(w, session, operation, op, k);
      FirstFreeIsUnique(w', op, Some(k), TakenIndex(w', op, order));
      assert !FreeIn(w, op, w.slots[op].store.items[k]);
    } else {
      NothingLetThrough(w, session, operation, op, TakenIndex(w, op, order));
      FirstFreeIsUnique(w', op, TakenIndex(w, op, order), TakenIndex(w', op, order));
    }
  }

  lemma LetThrough(w: World, session: Entity, operation: Option<Entity>, op: Entity, k: nat)
    requires OrderOk(w) && LetsThrough(w, session, operation, op, k)
    ensures IsFirstFreeIn(StepDebugger(w, session, operation), op, Some(k))
  {
    var w' := StepDebugger(w, session, operation);
    var items := w.slots[op].store.items;
    assert StoreOk(w.ledger, op, w.slots[op].store);
    StepFrees(w, session, operation, op, items[k]);
    forall j | 0 <= j < k ensures !FreeIn(w', op, items[j]) {
      StepFrees(w, session, operation, op, items[j]);
      SameInputSamePlace(items, j, k);
    }
  }

  lemma NothingLetThrough(w: World, session: Entity, operation: Option<Entity>, op: Entity, index: Option<nat>)
    requires OrderOk(w) && Holds(w, op) && (index.Some? ==> index.value < |w.slots[op].store.items|)
    requires IsFirstFreeIn(w, op, index)
    requires forall k: nat :: !LetsThrough(w, session, operation, op, k)
    ensures IsFirstFreeIn(StepDebugger(w, session, operation), op, index)
  {
    var w' := StepDebugger(w, session, operation);
    var items := w.slots[op].store.items;
    forall j | 0 <= j < (if index.Some? then index.value else |items|) ensures !FreeIn(w', op, items[j]) {
      StepFrees(w, session, operation, op, items[j]);
      assert !LetsThrough(w, session, operation, op, j);
    }
    if index.Some? {
      StepFrees(w, session, operation, op, items[index.value]);
    }
  }
}
