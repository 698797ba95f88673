/** The wake-up roster (src/operation.rs): the lists of work a flush has to get through. */
module Rosters {
  import opened Common

  // The contents of a roster. Blockers, reachability checks and disposals are represented by
  // the entity that will be called for them.
  datatype Roster = Roster(
    queue: seq<Entity>,
    awake: seq<Entity>,
    deferredQueue: seq<Entity>,
    unblock: seq<Entity>,
    sessionDespawn: seq<Entity>,
    reachable: seq<Entity>,
    disposals: seq<Entity>)
  {
    predicate IsEmpty() {
      this == EMPTY_ROSTER
    }

    function Append(other: Roster): Roster {
      Roster(
        queue + other.queue,
        awake + other.awake,
        deferredQueue + other.deferredQueue,
        unblock + other.unblock,
        sessionDespawn + other.sessionDespawn,
        reachable + other.reachable,
        disposals + other.disposals)
    }

    function ProcessDeferrals(): Roster {
      this.(queue := queue + deferredQueue, deferredQueue := [])
    }
  }

  const EMPTY_ROSTER := Roster([], [], [], [], [], [], [])

  /** The roster as the flush and the operations update it in place. */
  class OperationRoster {
    var queue: seq<Entity>
    var awake: seq<Entity>
    var deferredQueue: seq<Entity>
    var unblock: seq<Entity>
    var sessionDespawn: seq<Entity>
    var reachable: seq<Entity>
    var disposals: seq<Entity>

    function Contents(): Roster
      reads this
    {
      Roster(queue, awake, deferredQueue, unblock, sessionDespawn, reachable, disposals)
    }

    constructor ()
      ensures Contents() == EMPTY_ROSTER
    {
      queue, awake, deferredQueue, unblock := [], [], [], [];
      sessionDespawn, reachable, disposals := [], [], [];
    }

    method Queue(source: Entity)
      modifies this`queue
      ensures queue == old(queue) + [source]
    {
      queue := queue + [source];
    }

    method Defer(source: Entity)
      modifies this`deferredQueue
      ensures deferredQueue == old(deferredQueue) + [source]
    {
      deferredQueue := deferredQueue + [source];
    }

    method DeferDespawnSession(session: Entity)
      modifies this`sessionDespawn
      ensures sessionDespawn == old(sessionDespawn) + [session]
    {
      sessionDespawn := sessionDespawn + [session];
    }

    /** Move everything out of `other` to the end of this roster. */
    method Append(other: OperationRoster)
      requires other != this
      modifies this, other
      ensures Contents() == old(Contents()).Append(old(other.Contents()))
      ensures other.Contents() == EMPTY_ROSTER
    {
      queue, other.queue := queue + other.queue, [];
      awake, other.awake := awake + other.awake, [];
      deferredQueue, other.deferredQueue := deferredQueue + other.deferredQueue, [];
      unblock, other.unblock := unblock + other.unblock, [];
      sessionDespawn, other.sessionDespawn := sessionDespawn + other.sessionDespawn, [];
      reachable, other.reachable := reachable + other.reachable, [];
      disposals, other.disposals := disposals + other.disposals, [];
    }

    /** The deferred wake-ups join the end of the line, in order. */
    method ProcessDeferrals()
      modifies this
      ensures Contents() == old(Contents()).ProcessDeferrals()
    {
      while deferredQueue != []
        invariant queue + deferredQueue == old(queue + deferredQueue)
        invariant Contents() == old(Contents()).(queue := queue, deferredQueue := deferredQueue)
        decreases |deferredQueue|
      {
        var e := deferredQueue[0];
        deferredQueue := deferredQueue[1..];
        queue := queue + [e];
      }
    }
  }
}
