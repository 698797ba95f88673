/** `wait_for` of the async channel (src/channel.rs): a task and the closures that it sends to the
    world share a callback and the one sender of the reply. Each step is one action of the task, of
    the world or of the user, and they may interleave in any order. Waiting for a buffer to change
    and for a thread to be scheduled is left to the choice of the next step. */
module WaitForMachine {

  type Value = nat

  // What a call of the callback comes to.
  datatype Verdict = Done(value: Value) | NotYet | Panicked

  datatype Task =
    | NotSpawned
    | LoopTop                    // about to look whether the reply is detached
    | Taking                     // about to take the sender from its mutex
    | Selecting                  // waiting for a change or for the receiver to close
    | Closed                     // the receiver closed, about to look at the reply again
    | Restoring                  // about to put the sender back
    | Posting                    // about to send a closure to the world
    | Awaiting(round: nat)       // waiting to hear what the closure of that round has seen
    | Ended

  // What the world is doing with the closure of a round.
  datatype WorldSide =
    | Free
    | Evaluating(round: nat)                  // holds the callback
    | Replying(round: nat, value: Value)      // about to take the sender from its mutex
    | Sending(round: nat, value: Value)       // has the sender
    | Seeing(round: nat)                      // about to tell the task what it has seen

  datatype State = State(
    firstPending: bool,       // the first closure is in the channel, with the sender and the callback
    task: Task,
    world: WorldSide,
    inFlight: seq<nat>,       // the rounds of the closures in the channel
    rounds: nat,
    seen: set<nat>,           // rounds that reported what they have seen
    unseen: set<nat>,         // rounds that dropped their seen_sender
    poisoned: bool,           // the mutex of the callback
    // Where the sender may be.
    inMutex: bool,
    withTask: bool,
    withWorld: bool,
    replies: seq<Value>,
    dropped: nat,
    // The user's side.
    detached: bool,
    receiving: bool,
    // History.
    calls: seq<Verdict>,
    changes: nat)

  const INITIAL := State(true, NotSpawned, Free, [], 0, {}, {}, false, false, false, false, [], 0, false, true, [], 0)

  ghost predicate IsInitial(s: State) {
    s == INITIAL
  }

  datatype Step =
    // The world
    | RunFirst(verdict: Verdict) | RunClosure | Return(verdict: Verdict) | TakeForReply | Send | SendSeen
    // The task
    | LoadDetached | TakeSender | SeeChange | SeeClosed | CheckDetached | Restore | Post | Resume
    // The user
    | Detach | DropReply
    // Shutdown
    | DropFirst | DropClosure | DropTask
  {
    /** Nothing is shut down and the callback does not panic. */
    predicate Ordinary() {
      match this
      case RunFirst(verdict) => !verdict.Panicked?
      case Return(verdict) => !verdict.Panicked?
      case DropFirst => false
      case DropClosure => false
      case DropTask => false
      case _ => true
    }

    predicate OfWorld() {
      RunFirst? || RunClosure? || Return? || TakeForReply? || Send? || SendSeen?
    }

    predicate OfTask() {
      LoadDetached? || TakeSender? || SeeChange? || SeeClosed? || CheckDetached? || Restore? || Post? || Resume?
    }
  }

  predicate Enabled(s: State, step: Step) {
    match step
    case RunFirst(_) => s.firstPending && s.world.Free?
    case RunClosure => s.inFlight != [] && s.world.Free?
    case Return(_) => s.world.Evaluating?
    case TakeForReply => s.world.Replying?
    case Send => s.world.Sending?
    case SendSeen => s.world.Seeing?
    case LoadDetached => s.task.LoopTop?
    case TakeSender => s.task.Taking?
    case SeeChange => s.task.Selecting?
    case SeeClosed => s.task.Selecting? && !s.receiving
    case CheckDetached => s.task.Closed?
    case Restore => s.task.Restoring?
    case Post => s.task.Posting?
    case Resume => s.task.Awaiting? && (s.task.round in s.seen || s.task.round in s.unseen)
    case Detach => s.receiving
    case DropReply => s.receiving
    case DropFirst => s.firstPending
    case DropClosure => s.inFlight != []
    case DropTask => TaskAlive(s)
  }

  predicate TaskAlive(s: State) {
    !s.task.NotSpawned? && !s.task.Ended?
  }

  /** The mutex of the sender is shared by the task and the closures, and goes with the last of them. */
  function ReleaseShared(s: State): State {
    if s.inMutex && !TaskAlive(s) && s.inFlight == [] && s.world.Free? then
      s.(inMutex := false, dropped := s.dropped + 1)
    else
      s
  }

  /** The task returns, and drops the sender if it has it. */
  function EndTask(s: State): State {
    s.(task := Ended, withTask := false, dropped := s.dropped + if s.withTask then 1 else 0)
  }

  /** The closure returns without telling the task what it has seen. */
  function FinishUnseen(s: State, round: nat): State {
    s.(world := Free, unseen := s.unseen + {round})
  }

  function AfterWorld(s: State, step: Step): State
    requires Enabled(s, step)
  {
    match step
    case RunFirst(verdict) =>
      var called := s.(firstPending := false, calls := s.calls + [verdict]);
      (match verdict
       case Done(value) => called.(replies := s.replies + [value])
       case NotYet => called.(task := LoopTop, inMutex := true)
       case Panicked => called.(dropped := s.dropped + 1))
    case RunClosure =>
      var popped := s.(inFlight := s.inFlight[1..]);
      if s.poisoned then FinishUnseen(popped, s.inFlight[0])
      else popped.(world := Evaluating(s.inFlight[0]))
    case Return(verdict) =>
      var called := s.(calls := s.calls + [verdict]);
      (match verdict
       case Done(value) => called.(world := Replying(s.world.round, value))
       case NotYet => called.(world := Seeing(s.world.round))
       case Panicked => FinishUnseen(called.(poisoned := true), s.world.round))
    case TakeForReply =>
      if s.inMutex then
        s.(inMutex := false, withWorld := true, world := Sending(s.world.round, s.world.value))
      else
        FinishUnseen(s, s.world.round)
    case Send =>
      FinishUnseen(s.(withWorld := false, replies := s.replies + [s.world.value]), s.world.round)
    case SendSeen => s.(world := Free, seen := s.seen + {s.world.round})
    case _ => s
  }

  function AfterTask(s: State, step: Step): State
    requires Enabled(s, step)
  {
    match step
    case LoadDetached => s.(task := if s.detached then Posting else Taking)
    case TakeSender =>
      if s.inMutex then s.(inMutex := false, withTask := true, task := Selecting) else EndTask(s)
    case SeeChange => s.(task := Restoring, changes := s.changes + 1)
    case SeeClosed => s.(task := Closed)
    case CheckDetached => if s.detached then s.(task := Restoring) else EndTask(s)
    case Restore =>
      // Putting the sender back drops whatever was there.
      s.(inMutex := true, withTask := false, dropped := s.dropped + (if s.inMutex then 1 else 0), task := Posting)
    case Post => s.(inFlight := s.inFlight + [s.rounds], rounds := s.rounds + 1, task := Awaiting(s.rounds))
    case Resume => if s.task.round in s.seen then s.(task := LoopTop) else EndTask(s)
    case _ => s
  }

  function AfterOthers(s: State, step: Step): State
    requires Enabled(s, step)
  {
    match step
    case Detach => s.(detached := true)
    case DropReply => s.(receiving := false)
    case DropFirst => s.(firstPending := false, dropped := s.dropped + 1)
    case DropClosure => s.(inFlight := s.inFlight[1..], unseen := s.unseen + {s.inFlight[0]})
    case DropTask => EndTask(s)
    case _ => s
  }

  function After(s: State, step: Step): State
    requires Enabled(s, step)
  {
    ReleaseShared(
      if step.OfWorld() then AfterWorld(s, step)
      else if step.OfTask() then AfterTask(s, step)
      else AfterOthers(s, step))
  }

  ghost predicate Steps(s: State, step: Step, s': State) {
    Enabled(s, step) && s' == After(s, step)
  }

  /** The steps of a system that keeps running. */
  ghost predicate OrdinarySteps(s: State, step: Step, s': State) {
    step.Ordinary() && Steps(s, step, s')
  }
}
