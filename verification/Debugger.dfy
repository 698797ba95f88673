/** The step debugger (src/debug.rs): which sessions are paused, which inputs have been held
    back, and which of those have been given one-shot permission to proceed. */
module Debugger {
  import opened Common
  import opened Rosters
  import opened Sessions

  // Identifies one request made to one operation.
  datatype RequestId = RequestId(session: Entity, source: Entity, seqNo: nat)

  // What the user has asked of the debugger, and the sessions it is holding.
  datatype DebugState = DebugState(
    breakpoints: set<Entity>,
    debugSessions: set<Entity>,
    paused: set<Entity>)
  {
    predicate IsActive() {
      paused != {} || (debugSessions != {} && breakpoints != {})
    }

    ghost predicate IsPaused(h: Hierarchy, session: Entity) {
      exists p :: p in paused && IsDescendent(h, p, session)
    }

    /** A breakpoint at `target` applies to `session`. */
    ghost predicate Breaks(h: Hierarchy, session: Entity, target: Entity) {
      && target in breakpoints
      && exists d :: d in debugSessions && IsDescendent(h, d, session)
    }

    /** The effect of checking for a breakpoint: the debugged session that is found first in
        the iteration order of the set gets paused. */
    ghost function EvaluateBreak(h: Hierarchy, order: seq<Entity>, session: Entity, target: Entity)
      : DebugState
    {
      match FirstContaining(h, order, session)
      case Some(d) => if target in breakpoints then this.(paused := paused + {d}) else this
      case None => this
    }
  }

  ghost function FirstContaining(h: Hierarchy, order: seq<Entity>, session: Entity): Option<Entity> {
    if order == [] then None
    else if IsDescendent(h, order[0], session) then Some(order[0])
    else FirstContaining(h, order[1..], session)
  }

  /** `order` is a possible iteration order of the set s. */
  ghost predicate Enumerates(order: seq<Entity>, s: set<Entity>) {
    forall x :: x in order <==> x in s
  }

  lemma {:induction false} FirstContainingFound(h: Hierarchy, order: seq<Entity>, session: Entity)
    ensures match FirstContaining(h, order, session)
            case Some(d) => d in order && IsDescendent(h, d, session)
            case None => forall d | d in order :: !IsDescendent(h, d, session)
  {
    if order != [] {
      FirstContainingFound(h, order[1..], session);
      assert order == [order[0]] + order[1..];
    }
  }

  /** Whatever the iteration order: if a breakpoint applies to the session, one debugged session that it is
      inside gets paused, and no other session. Otherwise nothing changes. */
  lemma BreakPausesOne(d: DebugState, h: Hierarchy, order: seq<Entity>, session: Entity, target: Entity)
    requires Enumerates(order, d.debugSessions)
    ensures var d' := d.EvaluateBreak(h, order, session, target);
            if d.Breaks(h, session, target)
            then exists p :: p in d.debugSessions && IsDescendent(h, p, session)
                             && d' == d.(paused := d.paused + {p})
            else d' == d
  {
    FirstContainingFound(h, order, session);
  }

  /** A session a breakpoint applies to ends up paused, nothing is ever unpaused, and whatever gets paused is
      debugged and contains that session. */
  lemma BreakPauses(d: DebugState, h: Hierarchy, order: seq<Entity>, session: Entity, target: Entity)
    requires Enumerates(order, d.debugSessions)
    ensures var d' := d.EvaluateBreak(h, order, session, target);
            && d.paused <= d'.paused && d' == d.(paused := d'.paused)
            && (d.Breaks(h, session, target) ==> d'.IsPaused(h, session))
            && (!d.Breaks(h, session, target) ==> d' == d)
            && (forall p | p in d'.paused - d.paused ::
                  p in d.debugSessions && target in d.breakpoints && IsDescendent(h, p, session))
            && (forall p, q | p in d'.paused - d.paused && q in d'.paused - d.paused :: p == q)
  {
    BreakPausesOne(d, h, order, session, target);
  }

  // Requests that have been held back, oldest first, and requests that may proceed once.
  datatype Ledger = Ledger(deferrals: seq<RequestId>, allow: set<RequestId>) {
    /** Ask whether a request of a paused session may be taken. Using a permit consumes it;
        without one the request is recorded as held back. */
    function IsAllowed(id: RequestId): (bool, Ledger) {
      if id in allow then (true, this.(allow := allow - {id}))
      else if id in deferrals then (false, this)
      else (false, this.(deferrals := deferrals + [id]))
    }

    /** Turn the first matching deferral into a permit. */
    ghost function PopNext(h: Hierarchy, session: Entity, operation: Option<Entity>)
      : (Option<RequestId>, Ledger)
    {
      var k := FirstMatch(h, session, operation, deferrals);
      if k < |deferrals| then
        (Some(deferrals[k]), Ledger(RemoveAt(deferrals, k), allow + {deferrals[k]}))
      else (None, this)
    }
  }

  /** Which deferrals a step applies to. When an operation is named the session is ignored. */
  ghost predicate StepMatches(h: Hierarchy, session: Entity, operation: Option<Entity>, id: RequestId) {
    match operation
    case Some(op) => id.source == op
    case None => IsDescendent(h, session, id.session)
  }

  ghost function FirstMatch(h: Hierarchy, session: Entity, operation: Option<Entity>, ids: seq<RequestId>)
    : (k: nat)
    ensures k <= |ids|
    ensures forall j | 0 <= j < k :: !StepMatches(h, session, operation, ids[j])
    ensures k < |ids| ==> StepMatches(h, session, operation, ids[k])
  {
    if ids == [] || StepMatches(h, session, operation, ids[0]) then 0
    else
      assert forall j | 0 < j < |ids| :: ids[j] == ids[1..][j - 1];
      1 + FirstMatch(h, session, operation, ids[1..])
  }

  /** Since the session is ignored when an operation is named, a step for session 2 at operation 7 can
      release a request of the unrelated session 1. */
  lemma StepMayLeaveSession()
    ensures var one, two := RequestId(1, 7, 0), RequestId(2, 7, 1);
            Ledger([one, two], {}).PopNext(map[], 2, Some(7)) == (Some(one), Ledger([two], {one}))
            && !IsDescendent(map[], 2, 1)
  {
    var one, two := RequestId(1, 7, 0), RequestId(2, 7, 1);
    var l, h: Hierarchy := Ledger([one, two], {}), map[];
    assert StepMatches(h, 2, Some(7), l.deferrals[0]);
    assert FirstMatch(h, 2, Some(7), l.deferrals) == 0;
    assert RemoveAt(l.deferrals, 0) == [two] && l.allow + {one} == {one};
    forall n: nat ensures Ancestor(map[], 1, n) != Some(2) {
    }
  }

  ghost function HeldBack(d: DebugState, h: Hierarchy): RequestId -> bool {
    (id: RequestId) => d.IsPaused(h, id.session)
  }

  ghost function LetGo(d: DebugState, h: Hierarchy): RequestId -> bool {
    (id: RequestId) => !d.IsPaused(h, id.session)
  }

  function Sources(ids: seq<RequestId>): (r: seq<Entity>)
    ensures |r| == |ids|
    ensures forall i | 0 <= i < |ids| :: r[i] == ids[i].source
  {
    seq(|ids|, i requires 0 <= i < |ids| => ids[i].source)
  }

  class Debug {
    var breakpoints: set<Entity>
    var debugSessions: set<Entity>
    var pausedSessions: set<Entity>

    function State(): DebugState
      reads this
    {
      DebugState(breakpoints, debugSessions, pausedSessions)
    }

    constructor ()
      ensures State() == DebugState({}, {}, {})
    {
      breakpoints, debugSessions, pausedSessions := {}, {}, {};
    }

    method Deactivate()
      modifies this
      ensures State() == old(State()).(debugSessions := {}, paused := {})
      ensures !State().IsActive()
    {
      debugSessions := {};
      pausedSessions := {};
    }

    method StartDebuggingFor(session: Entity, pauseImmediately: bool)
      modifies this
      ensures State() == old(State()).(
        debugSessions := old(debugSessions) + {session},
        paused := old(pausedSessions) + if pauseImmediately then {session} else {})
    {
      debugSessions := debugSessions + {session};
      if pauseImmediately {
        Pause(session);
      }
    }

    method StopDebuggingFor(session: Entity)
      modifies this
      ensures State() == old(State()).(
        debugSessions := old(debugSessions) - {session}, paused := old(pausedSessions) - {session})
    {
      debugSessions := debugSessions - {session};
      pausedSessions := pausedSessions - {session};
    }

    method Pause(session: Entity)
      modifies this
      ensures State() == old(State()).(paused := old(pausedSessions) + {session})
    {
      pausedSessions := pausedSessions + {session};
    }

    method Unpause(session: Entity)
      modifies this
      ensures State() == old(State()).(paused := old(pausedSessions) - {session})
    {
      pausedSessions := pausedSessions - {session};
    }

    /** Pause the session if it has reached a breakpoint. The set of debugged sessions is
        visited in the given order. */
    method EvaluateBreak(h: Hierarchy, order: seq<Entity>, session: Entity, target: Entity)
      requires Acyclic(h) && Enumerates(order, debugSessions)
      modifies this
      ensures State() == old(State()).EvaluateBreak(h, order, session, target)
    {
      var isDebugSession := None;
      var i := 0;
      while i < |order|
        invariant i <= |order| && isDebugSession == None && State() == old(State())
        invariant FirstContaining(h, order, session) == FirstContaining(h, order[i..], session)
      {
        var inside := IsDescendentSession(h, order[i], session);
        assert order[i..][0] == order[i] && order[i..][1..] == order[i + 1..];
        if inside {
          isDebugSession := Some(order[i]);
          break;
        }
        i := i + 1;
      }
      assert isDebugSession == FirstContaining(h, order, session);
      if isDebugSession.Some? {
        if target in breakpoints {
          pausedSessions := pausedSessions + {isDebugSession.value};
        }
      }
    }

    method IsPaused(h: Hierarchy, session: Entity) returns (r: bool)
      requires Acyclic(h)
      ensures r <==> State().IsPaused(h, session)
    {
      var remaining := pausedSessions;
      while remaining != {}
        invariant remaining <= pausedSessions
        invariant forall p | p in pausedSessions - remaining :: !IsDescendent(h, p, session)
        decreases |remaining|
      {
        var p :| p in remaining;
        var inside := IsDescendentSession(h, p, session);
        if inside {
          return true;
        }
        remaining := remaining - {p};
      }
      return false;
    }
  }

  class DebugRoster {
    var deferrals: seq<RequestId>
    var allow: set<RequestId>

    function State(): Ledger
      reads this
    {
      Ledger(deferrals, allow)
    }

    constructor ()
      ensures State() == Ledger([], {})
    {
      deferrals, allow := [], {};
    }

    method IsAllowed(id: RequestId) returns (r: bool)
      modifies this
      ensures (r, State()) == old(State()).IsAllowed(id)
    {
      if id in allow {
        allow := allow - {id};
        return true;
      }
      if id in deferrals {
        return false;
      }
      deferrals := deferrals + [id];
      return false;
    }

    /** Step a session forward: the oldest matching deferral gets a permit and its operation
        is queued in the deferred roster. */
    method PopNextInSession(h: Hierarchy, session: Entity, operation: Option<Entity>, roster: OperationRoster)
      requires Acyclic(h)
      modifies this, roster
      ensures var (id, ledger) := old(State()).PopNext(h, session, operation);
              && State() == ledger
              && roster.Contents() == match id
                   case Some(next) =>
                     old(roster.Contents()).(queue := old(roster.queue) + [next.source])
                   case None => old(roster.Contents())
    {
      var index := 0;
      while index < |deferrals|
        invariant index <= |deferrals| && State() == old(State())
        invariant roster.Contents() == old(roster.Contents())
        invariant forall j | 0 <= j < index :: !StepMatches(h, session, operation, deferrals[j])
      {
        var req := deferrals[index];
        var isInSession := IsDescendentSession(h, session, req.session);
        var matches := if operation.Some? then req.source == operation.value else isInSession;
        if matches {
          break;
        }
        index := index + 1;
      }
      assert index == FirstMatch(h, session, operation, deferrals);
      if index < |deferrals| {
        var next := deferrals[index];
        deferrals := deferrals[..index] + deferrals[index + 1..];
        allow := allow + {next};
        roster.Queue(next.source);
      }
    }

    /** Forget the deferrals of sessions that are no longer paused, queueing their operations. */
    method ReleaseUnpaused(debug: Debug, h: Hierarchy, roster: OperationRoster)
      requires Acyclic(h)
      modifies this, roster
      ensures State() == old(State()).(deferrals := Filter(old(deferrals), HeldBack(debug.State(), h)))
      ensures roster.Contents() == old(roster.Contents()).(
        queue := old(roster.queue) + Sources(Filter(old(deferrals), LetGo(debug.State(), h))))
    {
      var d := debug.State();
      var kept: seq<RequestId> := [];
      var i := 0;
      while i < |deferrals|
        invariant i <= |deferrals| && State() == old(State())
        invariant debug.State() == d
        invariant kept == Filter(deferrals[..i], HeldBack(d, h))
        invariant roster.Contents() == old(roster.Contents()).(
          queue := old(roster.queue) + Sources(Filter(deferrals[..i], LetGo(d, h))))
      {
        var req := deferrals[i];
        var paused := debug.IsPaused(h, req.session);
        assert deferrals[..i + 1][..i] == deferrals[..i];
        if paused {
          kept := kept + [req];
        } else {
          roster.Queue(req.source);
        }
        i := i + 1;
      }
      assert deferrals[..i] == deferrals;
      deferrals := kept;
    }
  }
}
