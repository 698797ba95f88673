/** Message intake as a state machine: every way in which deliveries, executions, the step
    debugger and cleanup can interleave. */
module IntakeMachine {
  import opened Common
  import opened Debugger
  import opened Intake
  import opened Rosters
  import opened Sessions

  // The input storage of one operation, with what has ever been put in and what has left it,
  // taken or cleaned up.
  datatype Store = Store(
    items: seq<Input>,
    issued: nat,
    isBuffer: bool,
    arrived: seq<Input>,
    left: seq<Input>)

  datatype Slot = Holding(store: Store) | Unused | Detached

  datatype World = World(
    hierarchy: Hierarchy,
    status: map<Entity, SessionStatus>,
    slots: map<Entity, Slot>,
    roster: Roster,           // used by the flush
    deferred: Roster,         // used wherever the flush's roster is out of reach
    debug: DebugState,
    ledger: Ledger,
    stepped: nat,             // debug steps that turned a deferral into a permit
    takenWhilePaused: nat)    // inputs taken although their session was paused

  datatype Into = FlushRoster | DeferredRoster

  datatype Step =
    | Give(session: Entity, target: Entity, data: Message, into: Into)
    | Defer(session: Entity, target: Entity, data: Message, into: Into)
    | Execute(order: seq<Entity>)
    | TakeMore(source: Entity, order: seq<Entity>)
    | Pause(session: Entity)
    | Unpause(session: Entity)
    | StartDebugging(session: Entity, pauseImmediately: bool)
    | StopDebugging(session: Entity)
    | Deactivate
    | SetBreakpoints(breakpoints: set<Entity>)
    | DebugStep(session: Entity, operation: Option<Entity>)
    | ReleaseUnpaused
    | ProcessDeferrals
    | CollectDeferred
    | Postpone
    | Cleanup(session: Entity, source: Entity)
    | SetStatus(session: Entity, newStatus: Option<SessionStatus>)
    | SetHierarchy(hierarchy: Hierarchy)

  /** Which steps can happen. A hash set is visited in some order of its elements. */
  ghost predicate Enabled(w: World, step: Step) {
    match step
    case Execute(order) => w.roster.queue != [] && Enumerates(order, w.debug.debugSessions)
    case TakeMore(_, order) => Enumerates(order, w.debug.debugSessions)
    case _ => true
  }

  predicate Holds(w: World, op: Entity) {
    op in w.slots && w.slots[op].Holding?
  }

  function PlaceOf(w: World, target: Entity): Place {
    if target !in w.slots then IsForeign
    else
      match w.slots[target]
      case Holding(_) => HasStorage
      case Unused => IsUnused
      case Detached => IsDetached
  }

  function Incoming(store: Store, session: Entity, data: Message): Input {
    Input(session, store.issued % SEQ_MODULUS, data)
  }

  function WithStore(w: World, op: Entity, store: Store): World {
    w.(slots := w.slots[op := Holding(store)])
  }

  function DeliveryOf(w: World, session: Entity, target: Entity): Delivery {
    Outcome(Admits(w.status, session, target), PlaceOf(w, target))
  }

  function Deliver(w: World, session: Entity, target: Entity, data: Message, now: bool, into: Into)
    : World
  {
    var delivery := DeliveryOf(w, session, target);
    var stored :=
      if delivery == Stored then
        var store := w.slots[target].store;
        WithStore(w, target, store.(
          items := Stocked(store.items, store.issued, delivery, session, data),
          issued := store.issued + 1,
          arrived := store.arrived + [Incoming(store, session, data)]))
      else w;
    match into
    case FlushRoster => stored.(roster := Woken(w.roster, delivery, session, target, now))
    case DeferredRoster => stored.(deferred := Woken(w.deferred, delivery, session, target, now))
  }

  ghost function TakeAt(w: World, source: Entity, order: seq<Entity>): World {
    if !Holds(w, source) then w
    else
      var store := w.slots[source].store;
      var t := Take(w.hierarchy, order, source, store.items, w.debug, w.ledger);
      var after := w.(debug := t.debug, ledger := t.ledger);
      match t.index
      case None => after
      case Some(k) =>
        var input := store.items[k];
        WithStore(after, source, store.(items := RemoveAt(store.items, k), left := store.left + [input])).(
          takenWhilePaused :=
            w.takenWhilePaused + if t.debug.IsPaused(w.hierarchy, input.session) then 1 else 0)
  }

  /** The world without the first entry of the queue. */
  function Dequeued(w: World): World
    requires w.roster.queue != []
  {
    w.(roster := w.roster.(queue := w.roster.queue[1..]))
  }

  ghost function StepDebugger(w: World, session: Entity, operation: Option<Entity>): World {
    var (id, ledger) := w.ledger.PopNext(w.hierarchy, session, operation);
    match id
    case None => w
    case Some(next) =>
      w.(ledger := ledger,
         deferred := w.deferred.(queue := w.deferred.queue + [next.source]),
         stepped := w.stepped + 1)
  }

  function CleanupAt(w: World, session: Entity, source: Entity): World {
    if !Holds(w, source) then w
    else
      var store := w.slots[source].store;
      var cleaned := Filter(store.items, InSession(session));
      WithStore(w, source, store.(
        items := Filter(store.items, NotInSession(session)),
        issued := store.issued + (if store.isBuffer then |cleaned| else 0),
        left := store.left + cleaned))
  }

  ghost function Next(w: World, step: Step): World
    requires Enabled(w, step)
  {
    match step
    case Give(session, target, data, into) => Deliver(w, session, target, data, true, into)
    case Defer(session, target, data, into) => Deliver(w, session, target, data, false, into)
    case Execute(order) =>
      TakeAt(Dequeued(w), w.roster.queue[0], order)
    case TakeMore(source, order) => TakeAt(w, source, order)
    case Pause(s) => w.(debug := w.debug.(paused := w.debug.paused + {s}))
    case Unpause(s) => w.(debug := w.debug.(paused := w.debug.paused - {s}))
    case StartDebugging(s, pauseImmediately) =>
      w.(debug := w.debug.(
        debugSessions := w.debug.debugSessions + {s},
        paused := w.debug.paused + if pauseImmediately then {s} else {}))
    case StopDebugging(s) =>
      w.(debug := w.debug.(debugSessions := w.debug.debugSessions - {s}, paused := w.debug.paused - {s}))
    case Deactivate => w.(debug := w.debug.(debugSessions := {}, paused := {}))
    case SetBreakpoints(b) => w.(debug := w.debug.(breakpoints := b))
    case DebugStep(session, operation) => StepDebugger(w, session, operation)
    case ReleaseUnpaused =>
      w.(ledger := w.ledger.(deferrals := Filter(w.ledger.deferrals, HeldBack(w.debug, w.hierarchy))),
         roster := w.roster.(queue := w.roster.queue +
           Sources(Filter(w.ledger.deferrals, LetGo(w.debug, w.hierarchy)))))
    case ProcessDeferrals => w.(roster := w.roster.ProcessDeferrals())
    case CollectDeferred => w.(roster := w.roster.Append(w.deferred), deferred := EMPTY_ROSTER)
    case Postpone => w.(deferred := w.deferred.Append(w.roster), roster := EMPTY_ROSTER)
    case Cleanup(session, source) => CleanupAt(w, session, source)
    case SetStatus(session, newStatus) =>
      w.(status := match newStatus
                   case Some(s) => w.status[session := s]
                   case None => w.status - {session})
    case SetHierarchy(h) => w.(hierarchy := h)
  }

  ghost predicate StepsTo(w: World, step: Step, w': World) {
    Enabled(w, step) && w' == Next(w, step)
  }

  /** Nothing has been delivered, debugged or queued yet. */
  ghost predicate Initial(w: World) {
    && w.roster == w.deferred == EMPTY_ROSTER
    && w.debug == DebugState({}, {}, {}) && w.ledger == Ledger([], {})
    && w.stepped == w.takenWhilePaused == 0
    && forall op | Holds(w, op) ::
         var store := w.slots[op].store;
         store.items == store.arrived == store.left == [] && store.issued == 0
  }

  /** The identity a delivery is about to assign is not carried by a stored input of the target,
      by a deferral or by a permit. */
  ghost predicate FreshId(w: World, session: Entity, target: Entity) {
    DeliveryOf(w, session, target) == Stored ==>
      var store := w.slots[target].store;
      var id := IdOf(target, Incoming(store, session, ""));
      && id !in w.ledger.deferrals && id !in w.ledger.allow
      && forall i | 0 <= i < |store.items| :: IdOf(target, store.items[i]) != id
  }

  ghost predicate FreshStep(w: World, step: Step) {
    match step
    case Give(session, target, _, _) => FreshId(w, session, target)
    case Defer(session, target, _, _) => FreshId(w, session, target)
    case _ => true
  }

  /** A step that does not reuse an identity that is still in play. */
  ghost predicate FreshlyStepsTo(w: World, step: Step, w': World) {
    StepsTo(w, step, w') && FreshStep(w, step)
  }
}
