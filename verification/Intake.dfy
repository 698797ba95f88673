/** Input storage and message intake (src/input.rs): delivering a message to an operation,
    taking the next input past the step debugger, and cleaning up after a session. */
module Intake {
  import opened Common
  import opened Debugger
  import opened Rosters
  import opened Sessions

  // What a message says is never looked at here.
  type Message = string

  datatype Input = Input(session: Entity, seqNo: nat, data: Message)

  // Sequence numbers are 32 bits wide and wrap around.
  const SEQ_MODULUS: nat := 0x1_0000_0000

  function IdOf(source: Entity, input: Input): RequestId {
    RequestId(input.session, source, input.seqNo)
  }

  function InSession(session: Entity): Input -> bool {
    (input: Input) => input.session == session
  }

  function NotInSession(session: Entity): Input -> bool {
    (input: Input) => input.session != session
  }

  // ---------- Taking an input ----------

  // The debugger after an attempt to take an input, and which input was taken.
  datatype TakeResult = TakeResult(debug: DebugState, ledger: Ledger, index: Option<nat>)

  /** Scan from the i-th oldest input for the first one that is not being held back. */
  ghost function ScanFrom(h: Hierarchy, order: seq<Entity>, source: Entity, items: seq<Input>,
                          d: DebugState, l: Ledger, i: nat): (r: TakeResult)
    requires i <= |items|
    ensures r.index.Some? ==> i <= r.index.value < |items|
    decreases |items| - i
  {
    if i == |items| then TakeResult(d, l, None)
    else
      var session := items[i].session;
      var d' := d.EvaluateBreak(h, order, session, source);
      if !d'.IsPaused(h, session) then TakeResult(d', l, Some(i))
      else
        var (allowed, l') := l.IsAllowed(IdOf(source, items[i]));
        if allowed then TakeResult(d', l', Some(i))
        else ScanFrom(h, order, source, items, d', l', i + 1)
  }

  /** Taking the next input. With debugging inactive it is simply the oldest. */
  ghost function Take(h: Hierarchy, order: seq<Entity>, source: Entity, items: seq<Input>,
                      d: DebugState, l: Ledger): (r: TakeResult)
    ensures r.index.Some? ==> r.index.value < |items|
  {
    if d.IsActive() then ScanFrom(h, order, source, items, d, l, 0)
    else TakeResult(d, l, if items == [] then None else Some(0))
  }

  /** The plain pop is what the scan would have done: when debugging is inactive the scan selects
      the same input and leaves the pause sets, the deferrals and the permits as they were. */
  lemma FastPathRefinesScan(h: Hierarchy, order: seq<Entity>, source: Entity, items: seq<Input>,
                            d: DebugState, l: Ledger)
    requires !d.IsActive() && Enumerates(order, d.debugSessions)
    ensures ScanFrom(h, order, source, items, d, l, 0) == Take(h, order, source, items, d, l)
  {
    if items != [] {
      BreakPauses(d, h, order, items[0].session, source);
    }
  }

  class InputStorage {
    // Newest first, as inputs are inserted at the front and popped off the back.
    var reverseQueue: seq<Input>
    // The next sequence number.
    var sequence: nat
    // How many sequence numbers have been handed out.
    ghost var issued: nat

    ghost predicate Valid()
      reads this
    {
      sequence == issued % SEQ_MODULUS
    }

    // The stored inputs, oldest first.
    function Items(): seq<Input>
      reads this
    {
      Reverse(reverseQueue)
    }

    constructor ()
      ensures Valid() && Items() == [] && issued == 0
    {
      reverseQueue, sequence, issued := [], 0, 0;
    }

    method ContainsSession(session: Entity) returns (r: bool)
      ensures r <==> Filter(Items(), InSession(session)) != []
    {
      r := exists i | 0 <= i < |reverseQueue| :: reverseQueue[i].session == session;
      FilterReverse(reverseQueue, InSession(session));
      if r {
        var i :| 0 <= i < |reverseQueue| && reverseQueue[i].session == session;
        FilterMember(reverseQueue, InSession(session), reverseQueue[i]);
      } else {
        FilterNone(reverseQueue, InSession(session));
      }
    }

    method IncrementSeq() returns (seqNo: nat)
      requires Valid()
      modifies this`sequence, this`issued
      ensures Valid() && seqNo == old(issued) % SEQ_MODULUS && issued == old(issued) + 1
    {
      seqNo := sequence;
      sequence := if sequence + 1 == SEQ_MODULUS then 0 else sequence + 1;
      issued := issued + 1;
    }

    method Push(session: Entity, data: Message) returns (seqNo: nat)
      requires Valid()
      modifies this
      ensures Valid() && seqNo == old(issued) % SEQ_MODULUS && issued == old(issued) + 1
      ensures Items() == old(Items()) + [Input(session, seqNo, data)]
    {
      seqNo := IncrementSeq();
      reverseQueue := [Input(session, seqNo, data)] + reverseQueue;
    }
  }

  /** Removing from the back of the reversed queue removes from the front of the line. */
  lemma ReverseRemove(s: seq<Input>, k: nat)
    requires k < |s|
    ensures Reverse(RemoveAt(s, |s| - k - 1)) == RemoveAt(Reverse(s), k)
  {
  }

  /** Walk the stored inputs from the oldest to the first that is not held back. */
  method FindNext(storage: InputStorage, source: Entity, debug: Debug, debugRoster: DebugRoster,
                  h: Hierarchy, order: seq<Entity>)
    returns (revNext: Option<nat>)
    requires Acyclic(h) && Enumerates(order, debug.debugSessions)
    modifies debug, debugRoster
    ensures TakeResult(debug.State(), debugRoster.State(), revNext)
         == ScanFrom(h, order, source, storage.Items(), old(debug.State()), old(debugRoster.State()), 0)
  {
    var queue := storage.reverseQueue;
    ghost var items := storage.Items();
    var position := 0;
    while position < |queue|
      invariant position <= |queue| && storage.reverseQueue == queue
      invariant debug.debugSessions == old(debug.debugSessions)
      invariant ScanFrom(h, order, source, items, debug.State(), debugRoster.State(), position)
             == ScanFrom(h, order, source, items, old(debug.State()), old(debugRoster.State()), 0)
    {
      var next := queue[|queue| - position - 1];
      assert next == items[position];
      BreakPauses(debug.State(), h, order, next.session, source);
      debug.EvaluateBreak(h, order, next.session, source);
      var isPaused := debug.IsPaused(h, next.session);
      if isPaused {
        var allowed := debugRoster.IsAllowed(IdOf(source, next));
        if allowed {
          isPaused := false;
        }
      }
      if !isPaused {
        return Some(position);
      }
      position := position + 1;
    }
    return None;
  }

  method TryTakeInput(storage: InputStorage, source: Entity, debug: Debug, debugRoster: DebugRoster,
                      h: Hierarchy, order: seq<Entity>)
    returns (input: Option<Input>)
    requires Acyclic(h) && Enumerates(order, debug.debugSessions)
    modifies storage`reverseQueue, debug, debugRoster
    ensures var items := old(storage.Items());
            var t := Take(h, order, source, items, old(debug.State()), old(debugRoster.State()));
            && debug.State() == t.debug && debugRoster.State() == t.ledger
            && match t.index
               case Some(k) => input == Some(items[k]) && storage.Items() == RemoveAt(items, k)
               case None => input == None && storage.Items() == items
  {
    var active := debug.pausedSessions != {} || (debug.debugSessions != {} && debug.breakpoints != {});
    if !active {
      var queue := storage.reverseQueue;
      if queue == [] {
        return None;
      }
      ReverseRemove(queue, 0);
      input := Some(queue[|queue| - 1]);
      storage.reverseQueue := RemoveAt(queue, |queue| - 1);
      return;
    }
    var revNext := FindNext(storage, source, debug, debugRoster, h, order);
    if revNext.None? {
      return None;
    }
    var next := |storage.reverseQueue| - revNext.value - 1;
    ReverseRemove(storage.reverseQueue, revNext.value);
    input := Some(storage.reverseQueue[next]);
    storage.reverseQueue := RemoveAt(storage.reverseQueue, next);
  }

  // ---------- Delivering an input ----------

  datatype SessionStatus = Active | Cleaning | Dropped(stopAt: Entity)

  datatype OperationError = Broken

  // What a message can find at its target.
  datatype Place = HasStorage | IsUnused | IsDetached | IsForeign

  // What becomes of a delivered message.
  datatype Delivery =
    | Stored        // it waits in the target's storage
    | Ignored       // the target is unused: nothing is stored but the target is still woken
    | Refused       // the session does not accept inputs
    | Despawned     // the target is detached: the session gets despawned
    | Rejected      // the target is broken

  /** Whether a session accepts a message for the given target. */
  predicate Admits(status: map<Entity, SessionStatus>, session: Entity, target: Entity) {
    && session in status
    && match status[session]
       case Active => true
       case Cleaning => false
       case Dropped(stopAt) => stopAt != target
  }

  function Outcome(admitted: bool, place: Place): Delivery {
    if !admitted then Refused
    else
      match place
      case HasStorage => Stored
      case IsUnused => Ignored
      case IsDetached => Despawned
      case IsForeign => Rejected
  }

  datatype Target =
    | Storing(storage: InputStorage)
    | UnusedTarget
    | DetachedTarget
    | ForeignTarget
  {
    function Place(): Place {
      match this
      case Storing(_) => HasStorage
      case UnusedTarget => IsUnused
      case DetachedTarget => IsDetached
      case ForeignTarget => IsForeign
    }

    function Objects(): set<object> {
      if Storing? then {storage} else {}
    }

    ghost predicate Valid()
      reads Objects()
    {
      Storing? ==> storage.Valid()
    }

    function Items(): seq<Input>
      reads Objects()
    {
      if Storing? then storage.Items() else []
    }

    ghost function Issued(): nat
      reads Objects()
    {
      if Storing? then storage.issued else 0
    }
  }

  // The stored inputs after a delivery to a target that has handed out `issued` sequence numbers.
  function Stocked(items: seq<Input>, issued: nat, delivery: Delivery, session: Entity, data: Message)
    : seq<Input>
  {
    if delivery == Stored then items + [Input(session, issued % SEQ_MODULUS, data)] else items
  }

  // The roster after a delivery, when an accepted message wakes its target right away (`now`)
  // or once the channel has been drained.
  function Woken(roster: Roster, delivery: Delivery, session: Entity, target: Entity, now: bool): Roster {
    match delivery
    case Stored | Ignored =>
      if now then roster.(queue := roster.queue + [target])
      else roster.(deferredQueue := roster.deferredQueue + [target])
    case Despawned => roster.(sessionDespawn := roster.sessionDespawn + [session])
    case Refused | Rejected => roster
  }

  method SneakInput(status: map<Entity, SessionStatus>, session: Entity, target: Entity, at: Target,
                    data: Message, onlyIfActive: bool, roster: OperationRoster)
    returns (r: Result<bool, OperationError>)
    requires at.Valid()
    modifies roster`sessionDespawn, at.Objects()
    ensures at.Valid()
    ensures var delivery := Outcome(!onlyIfActive || Admits(status, session, target), at.Place());
            && (r == match delivery
                     case Stored | Ignored => Ok(true)
                     case Refused | Despawned => Ok(false)
                     case Rejected => Err(Broken))
            && at.Items() == Stocked(old(at.Items()), old(at.Issued()), delivery, session, data)
            && at.Issued() == old(at.Issued()) + (if delivery == Stored then 1 else 0)
            && roster.sessionDespawn == old(roster.sessionDespawn) +
                 (if delivery == Despawned then [session] else [])
  {
    if onlyIfActive {
      if session in status {
        if status[session].Dropped? {
          if status[session].stopAt == target {
            return Ok(false);
          }
        } else if !status[session].Active? {
          return Ok(false);
        }
      } else {
        return Ok(false);
      }
    }
    match at {
      case Storing(storage) =>
        var _ := storage.Push(session, data);
      case UnusedTarget =>
      case DetachedTarget =>
        roster.DeferDespawnSession(session);
        return Ok(false);
      case ForeignTarget =>
        return Err(Broken);
    }
    return Ok(true);
  }

  method GiveInput(status: map<Entity, SessionStatus>, session: Entity, target: Entity, at: Target,
                   data: Message, roster: OperationRoster)
    returns (r: Result<(), OperationError>)
    requires at.Valid()
    modifies roster, at.Objects()
    ensures at.Valid()
    ensures var delivery := Outcome(Admits(status, session, target), at.Place());
            && r == (if delivery == Rejected then Err(Broken) else Ok(()))
            && at.Items() == Stocked(old(at.Items()), old(at.Issued()), delivery, session, data)
            && roster.Contents() == Woken(old(roster.Contents()), delivery, session, target, true)
    ensures r.Err? <==> Admits(status, session, target) && at.ForeignTarget?
    ensures roster.deferredQueue == old(roster.deferredQueue)
  {
    var sneaked := SneakInput(status, session, target, at, data, true, roster);
    if sneaked.Err? {
      return Err(sneaked.error);
    }
    if sneaked.value {
      roster.Queue(target);
    }
    return Ok(());
  }

  method DeferInput(status: map<Entity, SessionStatus>, session: Entity, target: Entity, at: Target,
                    data: Message, roster: OperationRoster)
    returns (r: Result<(), OperationError>)
    requires at.Valid()
    modifies roster, at.Objects()
    ensures at.Valid()
    ensures var delivery := Outcome(Admits(status, session, target), at.Place());
            && r == (if delivery == Rejected then Err(Broken) else Ok(()))
            && at.Items() == Stocked(old(at.Items()), old(at.Issued()), delivery, session, data)
            && roster.Contents() == Woken(old(roster.Contents()), delivery, session, target, false)
    ensures r.Err? <==> Admits(status, session, target) && at.ForeignTarget?
    ensures roster.queue == old(roster.queue)
  {
    var sneaked := SneakInput(status, session, target, at, data, true, roster);
    if sneaked.Err? {
      return Err(sneaked.error);
    }
    if sneaked.value {
      roster.Defer(target);
    }
    return Ok(());
  }

  // ---------- Cleaning up after a session ----------

  /** The buffer behind a buffer operation, as far as cleanup is concerned: what was pushed. */
  class Buffer {
    var pushed: seq<Message>

    constructor ()
      ensures pushed == []
    {
      pushed := [];
    }

    method ForcePush(input: InputStorage, data: Message)
      requires input.Valid()
      modifies this, input`sequence, input`issued
      ensures input.Valid() && input.issued == old(input.issued) + 1
      ensures pushed == old(pushed) + [data]
    {
      var _ := input.IncrementSeq();
      pushed := pushed + [data];
    }
  }

  function Payloads(inputs: seq<Input>): (r: seq<Message>)
    ensures |r| == |inputs|
    ensures forall i | 0 <= i < |inputs| :: r[i] == inputs[i].data
  {
    seq(|inputs|, i requires 0 <= i < |inputs| => inputs[i].data)
  }

  /** The positions of the inputs that belong to the session, in ascending order. */
  ghost predicate ArePositions(indices: seq<nat>, queue: seq<Input>, session: Entity) {
    && (forall m | 0 <= m < |indices| :: indices[m] < |queue| && queue[indices[m]].session == session)
    && (forall m, n | 0 <= m < n < |indices| :: indices[m] < indices[n])
    && (forall i: nat | i < |queue| && queue[i].session == session :: i in indices)
  }

  /** A stretch of the queue in which nothing belongs to the session. */
  lemma SkipStretch(queue: seq<Input>, session: Entity, a: nat, b: nat)
    requires a <= b <= |queue|
    requires forall i | a <= i < b :: queue[i].session != session
    ensures Filter(queue[a..], NotInSession(session))
         == queue[a..b] + Filter(queue[b..], NotInSession(session))
    ensures Filter(queue[a..], InSession(session)) == Filter(queue[b..], InSession(session))
  {
    var gap := queue[a..b];
    assert queue[a..] == gap + queue[b..];
    FilterConcat(gap, queue[b..], NotInSession(session));
    FilterAll(gap, NotInSession(session));
    FilterConcat(gap, queue[b..], InSession(session));
    FilterNone(gap, InSession(session));
  }

  /** Nothing between the listed positions m and m + 1 belongs to the session. */
  lemma GapKept(indices: seq<nat>, queue: seq<Input>, session: Entity, m: nat, b: nat)
    requires ArePositions(indices, queue, session) && m < |indices|
    requires b == if m + 1 < |indices| then indices[m + 1] else |queue|
    ensures indices[m] < b <= |queue|
    ensures forall i | indices[m] < i < b :: queue[i].session != session
  {
    forall i: nat | indices[m] < i < b ensures queue[i].session != session {
      forall n | 0 <= n < |indices| ensures indices[n] != i {
        assert n <= m ==> indices[n] <= indices[m];
        assert n > m ==> indices[n] >= indices[m + 1];
      }
      assert i !in indices;
    }
  }

  /** Taking out position a, the only one of the session's before b, once all from b on are out. */
  lemma ExtractStep(queue: seq<Input>, session: Entity, a: nat, b: nat)
    requires a < b <= |queue| && queue[a].session == session
    requires forall i | a < i < b :: queue[i].session != session
    ensures RemoveAt(queue[..b] + Filter(queue[b..], NotInSession(session)), a)
         == queue[..a] + Filter(queue[a..], NotInSession(session))
    ensures Filter(queue[a..], InSession(session)) == [queue[a]] + Filter(queue[b..], InSession(session))
  {
    SkipStretch(queue, session, a + 1, b);
    assert queue[a..] == [queue[a]] + queue[a + 1..];
    FilterPrepend(queue[a], queue[a + 1..], NotInSession(session));
    FilterPrepend(queue[a], queue[a + 1..], InSession(session));
    RemoveInFront(queue, a, b, Filter(queue[b..], NotInSession(session)));
  }

  lemma FilterPrepend(x: Input, s: seq<Input>, p: Input -> bool)
    ensures Filter([x] + s, p) == if p(x) then [x] + Filter(s, p) else Filter(s, p)
  {
    FilterConcat([x], s, p);
    assert [x][..0] == [];
    assert [] + Filter(s, p) == Filter(s, p);
  }

  lemma RemoveInFront(queue: seq<Input>, a: nat, b: nat, rest: seq<Input>)
    requires a < b <= |queue|
    ensures RemoveAt(queue[..b] + rest, a) == queue[..a] + (queue[a + 1..b] + rest)
  {
  }

  /** One turn of the extraction loop: what the storage and the extracted inputs become. */
  lemma ExtractTurn(queue: seq<Input>, session: Entity, indices: seq<nat>, m: nat, b: nat)
    requires ArePositions(indices, queue, session) && m < |indices|
    requires b == if m + 1 < |indices| then indices[m + 1] else |queue|
    ensures indices[m] < b <= |queue|
    ensures var a, kept := indices[m], queue[..b] + Filter(queue[b..], NotInSession(session));
            && kept[a] == queue[a]
            && RemoveAt(kept, a) == queue[..a] + Filter(queue[a..], NotInSession(session))
            && Reverse(Filter(queue[b..], InSession(session))) + [queue[a]]
            == Reverse(Filter(queue[a..], InSession(session)))
  {
    GapKept(indices, queue, session, m, b);
    ExtractStep(queue, session, indices[m], b);
    ReversePrepend(queue[indices[m]], Filter(queue[b..], InSession(session)));
  }

  lemma ReversePrepend(x: Input, s: seq<Input>)
    ensures Reverse([x] + s) == Reverse(s) + [x]
  {
  }

  method PositionsOf(queue: seq<Input>, session: Entity) returns (indices: seq<nat>)
    ensures ArePositions(indices, queue, session)
  {
    indices := [];
    var i := 0;
    while i < |queue|
      invariant i <= |queue| && ArePositions(indices, queue[..i], session)
    {
      if queue[i].session == session {
        indices := indices + [i];
      }
      i := i + 1;
    }
    assert queue[..i] == queue;
  }

  /** Pull a session's inputs out of the queue, position by position from the back. */
  method ExtractSession(storage: InputStorage, session: Entity) returns (reverseRemaining: seq<Input>)
    modifies storage`reverseQueue
    ensures storage.reverseQueue == Filter(old(storage.reverseQueue), NotInSession(session))
    ensures reverseRemaining == Reverse(Filter(old(storage.reverseQueue), InSession(session)))
  {
    ghost var queue := storage.reverseQueue;
    var indices := PositionsOf(storage.reverseQueue, session);
    reverseRemaining := [];
    var m := |indices|;
    ghost var b: nat := |queue|;
    while m > 0
      invariant 0 <= m <= |indices|
      invariant b == (if m < |indices| then indices[m] else |queue|) <= |queue|
      invariant storage.reverseQueue == queue[..b] + Filter(queue[b..], NotInSession(session))
      invariant reverseRemaining == Reverse(Filter(queue[b..], InSession(session)))
    {
      m := m - 1;
      ExtractTurn(queue, session, indices, m, b);
      b := indices[m];
      reverseRemaining := reverseRemaining + [storage.reverseQueue[indices[m]]];
      storage.reverseQueue := RemoveAt(storage.reverseQueue, indices[m]);
    }
    assert forall i: nat | i < b :: queue[i].session != session;
    SkipStretch(queue, session, 0, b);
    assert queue[0..] == queue;
  }

  /** Cleaning removes exactly the session's inputs and keeps the others in order. A buffer
      receives every removed input exactly once, newest first. */
  method CleanupInputs(storage: InputStorage, buffer: Buffer?, session: Entity)
    requires storage.Valid()
    modifies storage, buffer
    ensures storage.Valid()
    ensures storage.Items() == Filter(old(storage.Items()), NotInSession(session))
    ensures var cleaned := Filter(old(storage.Items()), InSession(session));
            && storage.issued == old(storage.issued) + (if buffer != null then |cleaned| else 0)
            && (buffer != null ==> buffer.pushed == old(buffer.pushed) + Payloads(Reverse(cleaned)))
  {
    ghost var items := storage.Items();
    ghost var queue := storage.reverseQueue;
    FilterReverse(queue, NotInSession(session));
    FilterReverse(queue, InSession(session));
    if buffer != null {
      var reverseRemaining := ExtractSession(storage, session);
      ghost var cleaned := Filter(items, InSession(session));
      assert reverseRemaining == cleaned;
      var i := |reverseRemaining|;
      while i > 0
        invariant 0 <= i <= |reverseRemaining| && storage.Valid()
        invariant storage.reverseQueue == Filter(queue, NotInSession(session))
        invariant storage.issued == old(storage.issued) + |cleaned| - i
        invariant buffer.pushed == old(buffer.pushed) + Payloads(Reverse(cleaned[i..]))
      {
        i := i - 1;
        buffer.ForcePush(storage, reverseRemaining[i].data);
        assert Reverse(cleaned[i..]) == Reverse(cleaned[i + 1..]) + [cleaned[i]];
      }
      return;
    }
    storage.reverseQueue := Filter(storage.reverseQueue, NotInSession(session));
  }
}
