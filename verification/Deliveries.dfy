/** What a delivery does: which messages are stored, which targets are woken, and when. */
module Deliveries {
  import opened Common
  import opened Intake
  import opened IntakeMachine
  import opened Rosters

  /** The session is there and takes messages for the target: it is not being cleaned up, and the target is
      not where it has been dropped. */
  ghost predicate Open(w: World, session: Entity, target: Entity) {
    && session in w.status
    && w.status[session] != Cleaning && w.status[session] != Dropped(target)
  }

  ghost predicate IsDetachedTarget(w: World, target: Entity) {
    target in w.slots && w.slots[target] == Detached
  }

  /** The message is accepted: it is stored, or the target is unused and the message is ignored. */
  ghost predicate Accepts(w: World, session: Entity, target: Entity) {
    Open(w, session, target) && target in w.slots && !IsDetachedTarget(w, target)
  }

  /** A delivery stores the message at its target, as the last one, exactly if the session takes it and the
      target has storage. It never touches anything else that is stored. */
  lemma StoresIff(w: World, session: Entity, target: Entity, data: Message, now: bool, into: Into)
    ensures var w' := Deliver(w, session, target, data, now, into);
            && w' == w.(slots := w'.slots, roster := w'.roster, deferred := w'.deferred)
            && if Open(w, session, target) && Holds(w, target)
               then
                 var store := w.slots[target].store;
                 var input := Input(session, store.issued % 0x1_0000_0000, data);
                 && w'.slots == w.slots[target := Holding(w'.slots[target].store)]
                 && w'.slots[target].store == Store(store.items + [input], store.issued + 1, store.isBuffer,
                                                    store.arrived + [input], store.left)
               else w'.slots == w.slots
  {
  }

  /** What `into` names, before and after. */
  function RosterOf(w: World, into: Into): Roster {
    if into == FlushRoster then w.roster else w.deferred
  }

  function OtherRosterOf(w: World, into: Into): Roster {
    if into == FlushRoster then w.deferred else w.roster
  }

  /** A deferred delivery lengthens no queue. It adds its target at the end of the deferred queue exactly if
      the message is accepted, and has the session despawned exactly if the target is detached. */
  lemma DeferWaits(w: World, session: Entity, target: Entity, data: Message, into: Into)
    ensures var w' := Next(w, Defer(session, target, data, into));
            && w'.roster.queue == w.roster.queue && w'.deferred.queue == w.deferred.queue
            && OtherRosterOf(w', into) == OtherRosterOf(w, into)
            && var r, r' := RosterOf(w, into), RosterOf(w', into);
               && r' == r.(deferredQueue := r'.deferredQueue, sessionDespawn := r'.sessionDespawn)
               && r'.deferredQueue == r.deferredQueue + (if Accepts(w, session, target) then [target] else [])
               && r'.sessionDespawn == r.sessionDespawn +
                    (if Open(w, session, target) && IsDetachedTarget(w, target) then [session] else [])
  {
    var r := RosterOf(w, into);
    assert r.deferredQueue + [] == r.deferredQueue && r.sessionDespawn + [] == r.sessionDespawn;
  }

  /** An immediate delivery does the reverse. */
  lemma GiveQueues(w: World, session: Entity, target: Entity, data: Message, into: Into)
    ensures var w' := Next(w, Give(session, target, data, into));
            && w'.roster.deferredQueue == w.roster.deferredQueue
            && w'.deferred.deferredQueue == w.deferred.deferredQueue
            && OtherRosterOf(w', into) == OtherRosterOf(w, into)
            && var r, r' := RosterOf(w, into), RosterOf(w', into);
               && r' == r.(queue := r'.queue, sessionDespawn := r'.sessionDespawn)
               && r'.queue == r.queue + (if Accepts(w, session, target) then [target] else [])
               && r'.sessionDespawn == r.sessionDespawn +
                    (if Open(w, session, target) && IsDetachedTarget(w, target) then [session] else [])
  {
    var r := RosterOf(w, into);
    assert r.queue + [] == r.queue && r.sessionDespawn + [] == r.sessionDespawn;
  }

}
