/** The execution flush (src/flush.rs), one handler call at a time. Operations, tasks, unblocked
    services, disposal listeners and channel commands are handlers: calling one may add to the
    flush's roster, to the deferred roster, to the channel and to the wake queue. */
module FlushMachine {
  import opened Common
  import opened Rosters

  // A stream item wakes its target when it is received. Any other command is a handler.
  datatype ChannelItem = StreamItem(target: Entity) | Command

  // What a handler call brings about, and what other threads send in the meantime.
  datatype Emission = Emission(
    roster: Roster,
    later: Roster,
    sends: seq<ChannelItem>,
    wakes: seq<Entity>)

  datatype Parameters = Parameters(flushLoopLimit: Option<nat>, channelReceivedLimit: Option<nat>)

  const DEFAULT_PARAMETERS := Parameters(None, None)

  datatype Phase =
    | Idle                                       // between flushes
    | Collecting(first: bool, received: nat)     // receiving from the channel
    | Draining(first: bool, receivedAll: bool)   // moving deferrals to the queue
    | Joining(first: bool, receivedAll: bool)    // taking over the deferred roster and wake-ups
    | Releasing                                  // letting the debugger release inputs
    | Looping                                    // at the top of the loop
    | Unblocking
    | Executing
    | Awakening
    | Disposing
    | Reaching

  datatype State = State(
    phase: Phase,
    roster: Roster,
    deferred: Roster,
    channel: seq<ChannelItem>,
    wakes: seq<Entity>,
    loopCount: nat,
    // History: the operations dequeued for execution, how many of them in earlier flushes, and the
    // passes of this flush.
    executed: seq<Entity>,
    earlier: nat,
    passes: nat)

  /** What happens outside of the flush's own roster. */
  function Meanwhile(s: State, e: Emission): State {
    s.(deferred := s.deferred.Append(e.later),
       channel := s.channel + e.sends,
       wakes := s.wakes + e.wakes)
  }

  /** A handler call that has access to the flush's roster. */
  function Handle(s: State, e: Emission): State {
    Meanwhile(s, e).(roster := s.roster.Append(e.roster))
  }

  predicate Reached(limit: Option<nat>, count: nat) {
    limit.Some? && limit.value <= count
  }

  /** Take over whatever was left in the deferred roster. */
  function TakeOver(s: State): State {
    s.(roster := s.roster.Append(s.deferred), deferred := EMPTY_ROSTER)
  }

  function Tail(s: seq<Entity>): seq<Entity> {
    if s == [] then [] else s[1..]
  }

  /** Serve one entry of a list, leaving `rest`, or move on once the list is empty. */
  function Serve(s: State, done: bool, rest: Roster, next: Phase, e: Emission): State {
    if done then Meanwhile(s.(phase := next), e) else Handle(s.(roster := rest), e)
  }

  function Loop(p: Parameters, s: State, e: Emission): State {
    if s.roster.IsEmpty() then Meanwhile(s.(phase := Idle), e)
    else
      var drained := s.(roster := s.roster.(sessionDespawn := []));
      if Reached(p.flushLoopLimit, s.loopCount) then
        Meanwhile(drained.(
          phase := Idle, deferred := s.deferred.Append(drained.roster), roster := EMPTY_ROSTER), e)
      else
        Handle(drained.(phase := Unblocking, loopCount := s.loopCount + 1, passes := s.passes + 1), e)
  }

  function Execute(p: Parameters, s: State, e: Emission): State {
    if s.roster.queue == [] then Meanwhile(s.(phase := Awakening), e)
    else
      Handle(
        s.(roster := s.roster.(queue := s.roster.queue[1..]),
           executed := s.executed + [s.roster.queue[0]],
           loopCount := s.loopCount + 1,
           phase := if Reached(p.flushLoopLimit, s.loopCount + 1) then Awakening else Executing),
        e)
  }

  function Receive(p: Parameters, s: State, e: Emission): State
    requires s.phase.Collecting?
  {
    if s.channel == [] then Meanwhile(s.(phase := Draining(s.phase.first, true)), e)
    else
      var item := s.channel[0];
      var woken := if item.StreamItem? then [item.target] else [];
      Handle(
        s.(channel := s.channel[1..],
           roster := s.roster.(queue := s.roster.queue + woken),
           phase := if Reached(p.channelReceivedLimit, s.phase.received) then Draining(s.phase.first, false)
                    else Collecting(s.phase.first, s.phase.received + 1)),
        e)
  }

  function Join(s: State, e: Emission): State
    requires s.phase.Joining?
  {
    var joined := TakeOver(s);
    Handle(
      joined.(
        roster := joined.roster.(awake := joined.roster.awake + s.wakes),
        wakes := [],
        phase := if s.phase.first then Releasing
                 else if s.phase.receivedAll then Disposing
                 else Looping),
      e)
  }

  function Start(s: State, e: Emission): State {
    Meanwhile(s.(
      phase := Collecting(true, 0), roster := EMPTY_ROSTER, loopCount := 0, earlier := |s.executed|,
      passes := 0), e)
  }

  function Drain(s: State, e: Emission): State
    requires s.phase.Draining?
  {
    Handle(s.(roster := s.roster.ProcessDeferrals(), phase := Joining(s.phase.first, s.phase.receivedAll)), e)
  }

  function Release(s: State, e: Emission): State {
    TakeOver(Handle(s.(phase := Looping), e))
  }

  /** One step of the flush, given what its handler does. */
  function Next(p: Parameters, s: State, e: Emission): State {
    match s.phase
    case Idle => Start(s, e)
    case Collecting(_, _) => Receive(p, s, e)
    case Draining(_, _) => Drain(s, e)
    case Joining(_, _) => Join(s, e)
    case Releasing => Release(s, e)
    case Looping => Loop(p, s, e)
    case Unblocking => Serve(s, s.roster.unblock == [], s.roster.(unblock := Tail(s.roster.unblock)), Executing, e)
    case Executing => Execute(p, s, e)
    case Awakening =>
      Serve(s, s.roster.awake == [], s.roster.(awake := Tail(s.roster.awake)), Collecting(false, 0), e)
    case Disposing =>
      Serve(s, s.roster.disposals == [], s.roster.(disposals := Tail(s.roster.disposals)), Reaching, e)
    case Reaching =>
      Serve(s, s.roster.reachable == [], s.roster.(reachable := Tail(s.roster.reachable)), Looping, e)
  }

  /** One step of the flush under the given parameters. */
  ghost function Flushes(p: Parameters): (State, Emission, State) -> bool {
    (s: State, e: Emission, s': State) => s' == Next(p, s, e)
  }

  const INITIAL := State(Idle, EMPTY_ROSTER, EMPTY_ROSTER, [], [], 0, [], 0, 0)

  ghost predicate IsInitial(s: State) {
    s == INITIAL
  }

  /** Between flushes, nothing is kept in the flush's roster. */
  ghost predicate IdleIsEmpty(s: State) {
    s.phase.Idle? ==> s.roster == EMPTY_ROSTER
  }

  lemma StaysIdleOnlyEmpty(p: Parameters, s: State, e: Emission)
    requires IdleIsEmpty(s)
    ensures IdleIsEmpty(Next(p, s, e))
  {
  }
}
