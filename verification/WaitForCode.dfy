/** The code of `wait_for` (src/channel.rs) as its two threads run it: the loop of the task, and the
    closures in the world. They share a mutex with the sender, one with the callback, the channel and
    what was reported. Other threads may change all of this between any two actions. For every run of
    the protocol the code leaves what is shared just as the run has it. */
module WaitForCode {
  import opened Runs
  import opened WaitForMachine
  import opened WaitForProperties

  // What the threads share: whether the first closure is still in the channel, the mutexes, and the
  // closures that the task has sent, with their reports. The mutexes are held by the task and by every
  // closure that was sent, and they go with the last holder.
  datatype Shared = Shared(
    first: bool,
    holders: nat,
    sender: bool,
    poisoned: bool,
    channel: seq<nat>,
    sent: nat,
    seen: set<nat>,
    unseen: set<nat>,
    detached: bool,
    replies: seq<Value>)

  /** What a state of the protocol says of it. Where the threads are is not part of it. */
  function SharedOf(s: State): Shared {
    Shared(
      s.firstPending, Count(TaskAlive(s)) + |s.inFlight| + Count(!s.world.Free?),
      s.inMutex, s.poisoned, s.inFlight, s.rounds, s.seen, s.unseen, s.detached, s.replies)
  }

  /** A holder is gone. */
  function Released(shared: Shared): Shared
    requires shared.holders > 0
  {
    shared.(holders := shared.holders - 1, sender := shared.sender && shared.holders > 1)
  }

  lemma UnseenReleases(s: State, round: nat)
    requires !s.world.Free?
    ensures SharedOf(ReleaseShared(FinishUnseen(s, round))) == Released(SharedOf(s).(unseen := s.unseen + {round}))
  {
  }

  // Whose turn it is. A choice is what the thread finds when it acts: which of the futures it waits for
  // is ready, or what the callback returns. After a turn of others, this is what they have left, and
  // they may have cancelled the task.
  datatype Turn<+C> = Mine(choice: C) | Others(left: Shared, cancelled: bool)

  class Wait {
    var first: bool
    var holders: nat
    var sender: bool
    var poisoned: bool
    var channel: seq<nat>
    var sent: nat
    var seen: set<nat>
    var unseen: set<nat>
    var detached: bool
    var replies: seq<Value>

    function Contents(): Shared
      reads this
    {
      Shared(first, holders, sender, poisoned, channel, sent, seen, unseen, detached, replies)
    }

    constructor ()
      ensures Contents() == SharedOf(INITIAL)
    {
      first, holders, sender, poisoned, channel, sent := true, 0, false, false, [], 0;
      seen, unseen, detached, replies := {}, {}, false, [];
    }

    /** Other threads have done something. */
    method Interfere(left: Shared)
      modifies this
      ensures Contents() == left
    {
      first, holders, sender, poisoned, channel, sent :=
        left.first, left.holders, left.sender, left.poisoned, left.channel, left.sent;
      seen, unseen, detached, replies := left.seen, left.unseen, left.detached, left.replies;
    }

    /** A holder of the mutexes is gone, and with the last one goes the sender. */
    method Release()
      requires holders > 0
      modifies this
      ensures Contents() == Released(old(Contents()))
    {
      holders := holders - 1;
      if holders == 0 {
        sender := false;
      }
    }

    // ---------- The task ----------

    /** The turns are those of the run, seen from the task, and what is shared is as after k of them. */
    ghost predicate TaskAt(run: Run<State, Step>, turns: seq<Turn<bool>>, k: nat)
      reads this
    {
      && TaskTurns(run, turns) && k <= |turns|
      && Contents() == SharedOf(run.states[k]) && !first
    }

    /** Other threads go on until it is the turn of the task, or there are no more turns for it. */
    method UntilTask(ghost run: Run<State, Step>, turns: seq<Turn<bool>>, j: nat) returns (k: nat, over: bool)
      requires TaskAt(run, turns, j) && TaskAlive(run.states[j])
      modifies this
      ensures j <= k && TaskAt(run, turns, k)
      ensures if over then k == |turns| || run.states[k].task.Ended?
              else k < |turns| && turns[k].Mine? && run.states[k].task == run.states[j].task
    {
      k := j;
      while k < |turns| && turns[k].Others?
        invariant j <= k && TaskAt(run, turns, k) && run.states[k].task == run.states[j].task
        decreases |turns| - k
      {
        OthersTurn(run, turns, k);
        Interfere(turns[k].left);
        k := k + 1;
        if turns[k - 1].cancelled {
          return k, true;
        }
      }
      return k, k == |turns|;
    }

    /** Take the sender from its mutex. */
    method TakeSender(ghost run: Run<State, Step>, turns: seq<Turn<bool>>, j: nat) returns (k: nat, over: bool)
      requires TaskAt(run, turns, j) && run.states[j].task.Taking?
      modifies this
      ensures j <= k && TaskAt(run, turns, k)
      ensures if over then k == |turns| || run.states[k].task.Ended? else run.states[k].task.Selecting?
    {
      k, over := UntilTask(run, turns, j);
      if over {
        return;
      }
      TaskTurn(run, turns, k);
      if !sender {
        Release();
        return k + 1, true;
      }
      sender := false;
      return k + 1, false;
    }

    /** Wait for a change or for the receiver to close, unless the reply is detached by then. */
    method Select(ghost run: Run<State, Step>, turns: seq<Turn<bool>>, j: nat) returns (k: nat, over: bool)
      requires TaskAt(run, turns, j) && run.states[j].task.Selecting?
      modifies this
      ensures j <= k && TaskAt(run, turns, k)
      ensures if over then k == |turns| || run.states[k].task.Ended? else run.states[k].task.Restoring?
    {
      k, over := UntilTask(run, turns, j);
      if over {
        return;
      }
      TaskTurn(run, turns, k);
      var closed := turns[k].choice;
      k := k + 1;
      if closed {
        k, over := GiveUpUnlessDetached(run, turns, k);
      }
    }

    /** The receiver has closed. */
    method GiveUpUnlessDetached(ghost run: Run<State, Step>, turns: seq<Turn<bool>>, j: nat)
      returns (k: nat, over: bool)
      requires TaskAt(run, turns, j) && run.states[j].task.Closed?
      modifies this
      ensures j <= k && TaskAt(run, turns, k)
      ensures if over then k == |turns| || run.states[k].task.Ended? else run.states[k].task.Restoring?
    {
      k, over := UntilTask(run, turns, j);
      if over {
        return;
      }
      TaskTurn(run, turns, k);
      k := k + 1;
      if !detached {
        Release();
        over := true;
      }
    }

    /** Put the sender back. */
    method RestoreSender(ghost run: Run<State, Step>, turns: seq<Turn<bool>>, j: nat) returns (k: nat, over: bool)
      requires TaskAt(run, turns, j) && run.states[j].task.Restoring?
      modifies this
      ensures j <= k && TaskAt(run, turns, k)
      ensures if over then k == |turns| || run.states[k].task.Ended? else run.states[k].task.Posting?
    {
      k, over := UntilTask(run, turns, j);
      if !over {
        TaskTurn(run, turns, k);
        sender := true;
        k := k + 1;
      }
    }

    /** Wait for a change with the sender in hand, so as to notice when the receiver closes. */
    method AwaitChange(ghost run: Run<State, Step>, turns: seq<Turn<bool>>, j: nat) returns (k: nat, over: bool)
      requires TaskAt(run, turns, j) && run.states[j].task.Taking?
      modifies this
      ensures j <= k && TaskAt(run, turns, k)
      ensures if over then k == |turns| || run.states[k].task.Ended? else run.states[k].task.Posting?
    {
      k, over := TakeSender(run, turns, j);
      if !over {
        k, over := Select(run, turns, k);
      }
      if !over {
        k, over := RestoreSender(run, turns, k);
      }
    }

    /** Send a closure to the world. */
    method Post(ghost run: Run<State, Step>, turns: seq<Turn<bool>>, j: nat)
      returns (k: nat, round: nat, over: bool)
      requires TaskAt(run, turns, j) && run.states[j].task.Posting?
      modifies this
      ensures j <= k && TaskAt(run, turns, k)
      ensures if over then k == |turns| || run.states[k].task.Ended? else run.states[k].task == Awaiting(round)
    {
      k, over := UntilTask(run, turns, j);
      round := sent;
      if !over {
        TaskTurn(run, turns, k);
        channel, sent, holders := channel + [round], round + 1, holders + 1;
        k := k + 1;
      }
    }

    /** Wait to hear what the closure has seen. */
    method Hear(ghost run: Run<State, Step>, turns: seq<Turn<bool>>, j: nat, round: nat)
      returns (k: nat, over: bool)
      requires TaskAt(run, turns, j) && run.states[j].task == Awaiting(round)
      modifies this
      ensures j <= k && TaskAt(run, turns, k)
      ensures if over then k == |turns| || run.states[k].task.Ended? else run.states[k].task.LoopTop?
    {
      k, over := UntilTask(run, turns, j);
      if over {
        return;
      }
      TaskTurn(run, turns, k);
      k := k + 1;
      if round !in seen {
        Release();
        over := true;
      }
    }

    /** The loop of the task. */
    method RunTask(ghost run: Run<State, Step>, turns: seq<Turn<bool>>, j: nat) returns (k: nat)
      requires TaskAt(run, turns, j) && run.states[j].task.LoopTop?
      modifies this
      ensures j <= k && TaskAt(run, turns, k)
      ensures k == |turns| || run.states[k].task.Ended?
    {
      k := j;
      var over := false;
      while !over
        invariant j <= k && TaskAt(run, turns, k)
        invariant if over then k == |turns| || run.states[k].task.Ended? else run.states[k].task.LoopTop?
        decreases !over, |turns| - k
      {
        k, over := UntilTask(run, turns, k);
        if over {
          return;
        }
        TaskTurn(run, turns, k);
        k := k + 1;
        if !detached {
          k, over := AwaitChange(run, turns, k);
        }
        // If it is detached, the future that waits for a change is made and dropped.
        var round := 0;
        if !over {
          k, round, over := Post(run, turns, k);
        }
        if !over {
          k, over := Hear(run, turns, k, round);
        }
      }
    }

    // ---------- The world ----------

    /** The turns are those of the run, seen from the world, and what is shared is as after k of them. */
    ghost predicate WorldAt(run: Run<State, Step>, turns: seq<Turn<Verdict>>, k: nat)
      reads this
    {
      WorldTurns(run, turns) && k <= |turns| && Contents() == SharedOf(run.states[k])
    }

    /** Other threads go on until it is the turn of the world, or there are no more turns. */
    method UntilWorld(ghost run: Run<State, Step>, turns: seq<Turn<Verdict>>, j: nat) returns (k: nat)
      requires WorldAt(run, turns, j)
      modifies this
      ensures j <= k && WorldAt(run, turns, k) && run.states[k].world == run.states[j].world
      ensures k == |turns| || turns[k].Mine?
    {
      k := j;
      while k < |turns| && turns[k].Others?
        invariant j <= k && WorldAt(run, turns, k) && run.states[k].world == run.states[j].world
        decreases |turns| - k
      {
        OthersWorldTurn(run, turns, k);
        Interfere(turns[k].left);
        k := k + 1;
      }
    }

    /** The first closure calls the callback, and replies, or puts the sender and the callback into
        mutexes and spawns the task. */
    method RunFirstClosure(ghost run: Run<State, Step>, turns: seq<Turn<Verdict>>, j: nat)
      requires WorldAt(run, turns, j) && j < |turns| && turns[j].Mine? && run.steps[j].RunFirst?
      requires Invariant(run.states[j])
      modifies this
      ensures WorldAt(run, turns, j + 1)
    {
      WorldTurn(run, turns, j);
      first := false;
      match turns[j].choice {
        case Done(value) =>
          replies := replies + [value];
        case NotYet =>
          sender, holders := true, 1;
        case Panicked =>
      }
    }

    /** A closure of the task: call the callback, and send the reply or what has been seen. */
    method RunNextClosure(ghost run: Run<State, Step>, turns: seq<Turn<Verdict>>, j: nat) returns (k: nat)
      requires WorldAt(run, turns, j) && j < |turns| && turns[j].Mine? && run.steps[j].RunClosure?
      modifies this
      ensures j < k && WorldAt(run, turns, k)
      ensures k == |turns| || run.states[k].world.Free?
    {
      WorldTurn(run, turns, j);
      LockingShares(run.states[j]);
      var round := channel[0];
      channel := channel[1..];
      k := j + 1;
      if poisoned {
        unseen := unseen + {round};
        Release();
        return;
      }
      k := CallCallback(run, turns, k, round);
    }

    method CallCallback(ghost run: Run<State, Step>, turns: seq<Turn<Verdict>>, j: nat, round: nat)
      returns (k: nat)
      requires WorldAt(run, turns, j) && run.states[j].world == Evaluating(round)
      modifies this
      ensures j <= k && WorldAt(run, turns, k)
      ensures k == |turns| || run.states[k].world.Free?
    {
      k := UntilWorld(run, turns, j);
      if k == |turns| {
        return;
      }
      WorldTurn(run, turns, k);
      var verdict := turns[k].choice;
      CallShares(run.states[k], verdict);
      k := k + 1;
      match verdict {
        case Done(value) =>
          k := TakeSenderForReply(run, turns, k, round, value);
        case NotYet =>
          k := ReportSeen(run, turns, k, round);
        case Panicked =>
          poisoned, unseen := true, unseen + {round};
          Release();
      }
    }

    method TakeSenderForReply(ghost run: Run<State, Step>, turns: seq<Turn<Verdict>>, j: nat, round: nat, value: Value)
      returns (k: nat)
      requires WorldAt(run, turns, j) && run.states[j].world == Replying(round, value)
      modifies this
      ensures j <= k && WorldAt(run, turns, k)
      ensures k == |turns| || run.states[k].world.Free?
    {
      k := UntilWorld(run, turns, j);
      if k == |turns| {
        return;
      }
      WorldTurn(run, turns, k);
      TakingShares(run.states[k]);
      k := k + 1;
      if sender {
        sender := false;
        k := SendReply(run, turns, k, round, value);
      } else {
        unseen := unseen + {round};
        Release();
      }
    }

    method SendReply(ghost run: Run<State, Step>, turns: seq<Turn<Verdict>>, j: nat, round: nat, value: Value)
      returns (k: nat)
      requires WorldAt(run, turns, j) && run.states[j].world == Sending(round, value)
      modifies this
      ensures j <= k && WorldAt(run, turns, k)
      ensures k == |turns| || run.states[k].world.Free?
    {
      k := UntilWorld(run, turns, j);
      if k < |turns| {
        WorldTurn(run, turns, k);
        SendingShares(run.states[k]);
        replies, unseen := replies + [value], unseen + {round};
        Release();
        k := k + 1;
      }
    }

    method ReportSeen(ghost run: Run<State, Step>, turns: seq<Turn<Verdict>>, j: nat, round: nat)
      returns (k: nat)
      requires WorldAt(run, turns, j) && run.states[j].world == Seeing(round)
      modifies this
      ensures j <= k && WorldAt(run, turns, k)
      ensures k == |turns| || run.states[k].world.Free?
    {
      k := UntilWorld(run, turns, j);
      if k < |turns| {
        WorldTurn(run, turns, k);
        ReportingShares(run.states[k]);
        seen := seen + {round};
        Release();
        k := k + 1;
      }
    }

    /** The world runs the closures in the channel, the first one and then those of the task. */
    method RunWorld(ghost run: Run<State, Step>, turns: seq<Turn<Verdict>>)
      requires Follows(run, IsInitial, Steps) && WorldAt(run, turns, 0)
      modifies this
      ensures WorldAt(run, turns, |turns|)
    {
      ProtocolIsSafe(run);
      var k := 0;
      while k < |turns|
        invariant 0 <= k <= |turns| && WorldAt(run, turns, k)
        invariant k == |turns| || run.states[k].world.Free?
        decreases |turns| - k
      {
        k := UntilWorld(run, turns, k);
        if k == |turns| {
          return;
        }
        assert Invariant(run.states[k]);
        WorldTurn(run, turns, k);
        if first {
          RunFirstClosure(run, turns, k);
          k := k + 1;
        } else {
          k := RunNextClosure(run, turns, k);
        }
      }
    }
  }

  // ---------- The turns of a run ----------

  ghost predicate TaskTurns(run: Run<State, Step>, turns: seq<Turn<bool>>) {
    && run.Valid() && |turns| == |run.steps| && StepsBetween(run, Steps, 0, |turns|)
    && forall k | 0 <= k < |turns| ::
         match turns[k]
         case Mine(closed) => run.steps[k].OfTask() && (closed <==> run.steps[k].SeeClosed?)
         case Others(left, cancelled) =>
           !run.steps[k].OfTask() && left == SharedOf(run.states[k + 1])
           && (cancelled <==> run.steps[k].DropTask?)
  }

  ghost predicate WorldTurns(run: Run<State, Step>, turns: seq<Turn<Verdict>>) {
    && run.Valid() && |turns| == |run.steps| && StepsBetween(run, Steps, 0, |turns|)
    && forall k | 0 <= k < |turns| ::
         match turns[k]
         case Mine(verdict) =>
           && run.steps[k].OfWorld()
           && (run.steps[k].RunFirst? || run.steps[k].Return? ==> run.steps[k].verdict == verdict)
         case Others(left, _) => !run.steps[k].OfWorld() && left == SharedOf(run.states[k + 1])
  }

  /** What the task does next, given where it is. */
  function NextOfTask(task: Task, closed: bool): Step {
    match task
    case LoopTop => LoadDetached
    case Taking => TakeSender
    case Selecting => if closed then SeeClosed else SeeChange
    case Closed => CheckDetached
    case Restoring => Restore
    case Posting => Post
    case _ => Resume
  }

  /** On its turn the task takes the step that belongs to where it is. */
  lemma TaskTurn(run: Run<State, Step>, turns: seq<Turn<bool>>, k: nat)
    requires TaskTurns(run, turns) && k < |turns| && turns[k].Mine? && TaskAlive(run.states[k])
    ensures Enabled(run.states[k], run.steps[k])
    ensures run.steps[k] == NextOfTask(run.states[k].task, turns[k].choice)
    ensures run.states[k + 1] == After(run.states[k], run.steps[k])
  {
    assert Steps(run.states[k], run.steps[k], run.states[k + 1]);
  }

  /** Others leave the task where it is, or cancel it. */
  lemma OthersTurn(run: Run<State, Step>, turns: seq<Turn<bool>>, k: nat)
    requires TaskTurns(run, turns) && k < |turns| && turns[k].Others?
    requires TaskAlive(run.states[k]) && !run.states[k].firstPending
    ensures !run.states[k + 1].firstPending
    ensures run.states[k + 1].task == if turns[k].cancelled then Ended else run.states[k].task
  {
    assert Steps(run.states[k], run.steps[k], run.states[k + 1]);
    OthersLeaveTask(run.states[k], run.steps[k]);
  }

  lemma OthersLeaveTask(s: State, step: Step)
    requires Enabled(s, step) && !step.OfTask() && TaskAlive(s) && !s.firstPending
    ensures !After(s, step).firstPending
    ensures After(s, step).task == if step.DropTask? then Ended else s.task
  {
    if step.Return? {
      CallLeavesTask(s, step.verdict);
    } else if step.OfWorld() {
      WorldLeavesTask(s, step);
    }
  }

  lemma WorldLeavesTask(s: State, step: Step)
    requires Enabled(s, step) && step.OfWorld() && !step.RunFirst? && !step.Return?
    ensures After(s, step).task == s.task && After(s, step).firstPending == s.firstPending
  {
    var s' := AfterWorld(s, step);
    assert s'.task == s.task && s'.firstPending == s.firstPending;
  }

  lemma CallLeavesTask(s: State, verdict: Verdict)
    requires Enabled(s, Return(verdict))
    ensures var s' := After(s, Return(verdict)); s'.task == s.task && s'.firstPending == s.firstPending
  {
    match verdict
    case Done(value) =>
    case NotYet =>
    case Panicked =>
  }

  /** Others leave the world where it is. */
  lemma OthersWorldTurn(run: Run<State, Step>, turns: seq<Turn<Verdict>>, k: nat)
    requires WorldTurns(run, turns) && k < |turns| && turns[k].Others?
    ensures run.states[k + 1].world == run.states[k].world
  {
    assert Steps(run.states[k], run.steps[k], run.states[k + 1]);
    OthersLeaveWorld(run.states[k], run.steps[k]);
  }

  lemma OthersLeaveWorld(s: State, step: Step)
    requires Enabled(s, step) && !step.OfWorld()
    ensures After(s, step).world == s.world
  {
    if step.OfTask() {
      assert AfterTask(s, step).world == s.world;
    }
  }

  /** On its turn the world takes the step that belongs to where it is. */
  lemma WorldTurn(run: Run<State, Step>, turns: seq<Turn<Verdict>>, k: nat)
    requires WorldTurns(run, turns) && k < |turns| && turns[k].Mine?
    ensures Enabled(run.states[k], run.steps[k])
    ensures run.states[k + 1] == After(run.states[k], run.steps[k])
    ensures match run.states[k].world
            case Free =>
              run.steps[k].RunClosure? || run.steps[k] == RunFirst(turns[k].choice)
            case Evaluating(_) => run.steps[k] == Return(turns[k].choice)
            case Replying(_, _) => run.steps[k] == TakeForReply
            case Sending(_, _) => run.steps[k] == Send
            case Seeing(_) => run.steps[k] == SendSeen
  {
    assert Steps(run.states[k], run.steps[k], run.states[k + 1]);
  }

  // ---------- What the world's steps do to what is shared ----------

  lemma LockingShares(s: State)
    requires Enabled(s, RunClosure)
    ensures var s', round, popped := After(s, RunClosure), s.inFlight[0], SharedOf(s).(channel := s.inFlight[1..]);
            if s.poisoned then
              SharedOf(s') == Released(popped.(unseen := s.unseen + {round})) && s'.world == Free
            else
              SharedOf(s') == popped && s'.world == Evaluating(round)
  {
    var running := s.(inFlight := s.inFlight[1..], world := Evaluating(s.inFlight[0]));
    assert SharedOf(running) == SharedOf(s).(channel := s.inFlight[1..]);
    if s.poisoned {
      UnseenReleases(running, s.inFlight[0]);
      assert After(s, RunClosure) == ReleaseShared(FinishUnseen(running, s.inFlight[0]));
    } else {
      assert After(s, RunClosure) == running;
    }
  }

  lemma PanicShares(s: State)
    requires Enabled(s, Return(Panicked))
    ensures var s', round := After(s, Return(Panicked)), s.world.round;
            && SharedOf(s') == Released(SharedOf(s).(poisoned := true, unseen := s.unseen + {round}))
            && s'.world == Free
  {
    UnseenReleases(s.(calls := s.calls + [Panicked], poisoned := true), s.world.round);
  }

  lemma CallShares(s: State, verdict: Verdict)
    requires Enabled(s, Return(verdict))
    ensures var s', round := After(s, Return(verdict)), s.world.round;
            match verdict
            case Done(value) => SharedOf(s') == SharedOf(s) && s'.world == Replying(round, value)
            case NotYet => SharedOf(s') == SharedOf(s) && s'.world == Seeing(round)
            case Panicked =>
              && SharedOf(s') == Released(SharedOf(s).(poisoned := true, unseen := s.unseen + {round}))
              && s'.world == Free
  {
    match verdict
    case Done(value) =>
    case NotYet =>
    case Panicked => PanicShares(s);
  }

  lemma TakingShares(s: State)
    requires Enabled(s, TakeForReply)
    ensures var s', round := After(s, TakeForReply), s.world.round;
            if s.inMutex then
              SharedOf(s') == SharedOf(s).(sender := false) && s'.world == Sending(round, s.world.value)
            else
              SharedOf(s') == Released(SharedOf(s).(unseen := s.unseen + {round})) && s'.world == Free
  {
    UnseenReleases(s, s.world.round);
  }

  lemma SendingShares(s: State)
    requires Enabled(s, Send)
    ensures var s', round := After(s, Send), s.world.round;
            && SharedOf(s') == Released(SharedOf(s).(
                 replies := s.replies + [s.world.value], unseen := s.unseen + {round}))
            && s'.world == Free
  {
    UnseenReleases(s.(withWorld := false, replies := s.replies + [s.world.value]), s.world.round);
  }

  lemma ReportingShares(s: State)
    requires Enabled(s, SendSeen)
    ensures var s' := After(s, SendSeen);
            && SharedOf(s') == Released(SharedOf(s).(seen := s.seen + {s.world.round}))
            && s'.world == Free
  {
  }
}
