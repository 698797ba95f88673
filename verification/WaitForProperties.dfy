/** What `wait_for` guarantees in every interleaving of the task, the world, the user and shutdown. */
module WaitForProperties {
  import opened Common
  import opened Runs
  import opened WaitForMachine

  // ---------- The protocol is safe ----------

  function Count(b: bool): nat {
    if b then 1 else 0
  }

  /** In how many places the sender is. */
  function Senders(s: State): nat {
    Count(s.firstPending) + Count(s.inMutex) + Count(s.withTask) + Count(s.withWorld) + |s.replies| + s.dropped
  }

  /** How many closures are waiting to evaluate the callback or are at it. */
  function Evaluations(s: State): nat {
    Count(s.firstPending) + |s.inFlight| + Count(!s.world.Free?)
  }

  /** Every call but the last one said that it is not time yet. */
  ghost predicate NoneAfterResult(calls: seq<Verdict>) {
    forall i | 0 <= i < |calls| - 1 :: calls[i].NotYet?
  }

  ghost predicate Undecided(calls: seq<Verdict>) {
    forall i | 0 <= i < |calls| :: calls[i].NotYet?
  }

  function Outcome(calls: seq<Verdict>): Option<Value> {
    if calls != [] && calls[|calls| - 1].Done? then Some(calls[|calls| - 1].value) else None
  }

  /** The value that the callback has returned is the reply, or is about to be. */
  ghost predicate RepliesWithResult(s: State) {
    match Outcome(s.calls)
    case None => s.replies == [] && !s.world.Replying? && !s.world.Sending?
    case Some(value) =>
      || s.replies == [value]
      || (s.replies == [] && (s.world.Replying? || s.world.Sending?) && s.world.value == value)
  }

  ghost predicate Safe(s: State) {
    && Senders(s) == 1
    && Evaluations(s) <= 1
    && NoneAfterResult(s.calls)
    && RepliesWithResult(s)
  }

  /** Where the sender is whenever someone may reach for it. */
  ghost predicate SenderInPlace(s: State) {
    && (s.withTask <==> s.task.Selecting? || s.task.Closed? || s.task.Restoring?)
    && (s.withWorld <==> s.world.Sending?)
    && (s.task.LoopTop? || s.task.Taking? || s.task.Posting? ==> s.inMutex)
    && (s.inFlight != [] || s.world.Evaluating? || s.world.Seeing? || s.world.Replying? ==> s.inMutex)
    && (s.task.Awaiting? && s.task.round in s.seen ==> s.inMutex)
  }

  /** The task and the closures take turns. */
  ghost predicate TakeTurns(s: State) {
    && (s.firstPending ==> s.task.NotSpawned?)
    && (s.task.NotSpawned? ==> s.world.Free? && s.inFlight == [] && s.rounds == 0)
    && (TaskAlive(s) && !s.task.Awaiting? ==> s.world.Free? && s.inFlight == [])
    && (s.task.Awaiting? ==> s.task.round + 1 == s.rounds)
    && (s.inFlight != [] ==> s.inFlight[0] + 1 == s.rounds)
    && (!s.world.Free? ==> s.world.round + 1 == s.rounds)
    && (forall r | r in s.seen + s.unseen :: r < s.rounds)
    && ((s.inFlight != [] || !s.world.Free?) ==> s.rounds - 1 !in s.seen + s.unseen)
    && (s.task.Awaiting? && s.task.round in s.seen ==> s.task.round !in s.unseen)
  }

  /** Whoever may still bring about a call knows that the callback has not returned a value. */
  ghost predicate CallableOnlyUndecided(s: State) {
    && (s.firstPending ==> s.calls == [] && !s.poisoned)
    && (TaskAlive(s) && !s.task.Awaiting? ==> Undecided(s.calls) && !s.poisoned)
    && (s.inFlight != [] || s.world.Evaluating? || s.world.Seeing? ==> Undecided(s.calls) && !s.poisoned)
    && (s.task.Awaiting? && s.task.round in s.seen ==> Undecided(s.calls) && !s.poisoned)
  }

  ghost predicate Invariant(s: State) {
    Safe(s) && SenderInPlace(s) && TakeTurns(s) && CallableOnlyUndecided(s)
  }

  lemma FirstClosureKeepsInvariant(s: State, verdict: Verdict)
    requires Invariant(s) && Enabled(s, RunFirst(verdict))
    ensures Invariant(After(s, RunFirst(verdict)))
  {
  }

  lemma ClosureKeepsInvariant(s: State, step: Step)
    requires Invariant(s) && Enabled(s, step) && (step.RunClosure? || step.SendSeen?)
    ensures Invariant(After(s, step))
  {
  }

  lemma ReturnKeepsInvariant(s: State, verdict: Verdict)
    requires Invariant(s) && Enabled(s, Return(verdict))
    ensures Invariant(After(s, Return(verdict)))
  {
    match verdict
    case Done(_) =>
    case NotYet =>
    case Panicked =>
  }

  lemma ReplyKeepsInvariant(s: State, step: Step)
    requires Invariant(s) && Enabled(s, step) && (step.TakeForReply? || step.Send?)
    ensures Invariant(After(s, step))
  {
  }

  lemma SelectKeepsInvariant(s: State, step: Step)
    requires Invariant(s) && Enabled(s, step)
    requires step.LoadDetached? || step.TakeSender? || step.SeeChange? || step.SeeClosed? || step.CheckDetached?
             || step.Restore?
    ensures Invariant(After(s, step))
  {
  }

  lemma PostKeepsInvariant(s: State)
    requires Invariant(s) && Enabled(s, Post)
    ensures Invariant(After(s, Post))
  {
  }

  lemma EndingKeepsInvariant(s: State)
    requires Invariant(s) && TaskAlive(s)
    ensures Invariant(ReleaseShared(EndTask(s)))
  {
  }

  lemma HearingKeepsInvariant(s: State)
    requires Invariant(s) && s.task.Awaiting? && s.task.round in s.seen
    ensures Invariant(s.(task := LoopTop))
  {
  }

  lemma ResumeKeepsInvariant(s: State)
    requires Invariant(s) && Enabled(s, Resume)
    ensures Invariant(After(s, Resume))
  {
    if s.task.round in s.seen {
      HearingKeepsInvariant(s);
    } else {
      EndingKeepsInvariant(s);
    }
  }

  lemma UserKeepsInvariant(s: State, step: Step)
    requires Invariant(s) && Enabled(s, step) && (step.Detach? || step.DropReply? || step.DropFirst?)
    ensures Invariant(After(s, step))
  {
  }

  lemma DropClosureKeepsInvariant(s: State)
    requires Invariant(s) && Enabled(s, DropClosure)
    ensures Invariant(After(s, DropClosure))
  {
  }

  lemma DropTaskKeepsInvariant(s: State)
    requires Invariant(s) && Enabled(s, DropTask)
    ensures Invariant(After(s, DropTask))
  {
    EndingKeepsInvariant(s);
  }

  lemma StepKeepsInvariant(s: State, step: Step)
    requires Invariant(s) && Enabled(s, step)
    ensures Invariant(After(s, step))
  {
    match step
    case RunFirst(verdict) => FirstClosureKeepsInvariant(s, verdict);
    case Return(verdict) => ReturnKeepsInvariant(s, verdict);
    case RunClosure => ClosureKeepsInvariant(s, step);
    case SendSeen => ClosureKeepsInvariant(s, step);
    case TakeForReply => ReplyKeepsInvariant(s, step);
    case Send => ReplyKeepsInvariant(s, step);
    case Post => PostKeepsInvariant(s);
    case Resume => ResumeKeepsInvariant(s);
    case Detach => UserKeepsInvariant(s, step);
    case DropReply => UserKeepsInvariant(s, step);
    case DropFirst => UserKeepsInvariant(s, step);
    case DropClosure => DropClosureKeepsInvariant(s);
    case DropTask => DropTaskKeepsInvariant(s);
    case _ => SelectKeepsInvariant(s, step);
  }

  /** In every state of every run, also while the callback panics or everything is shut down: the
      sender is in exactly one place, at most one closure is there to evaluate the callback, the
      callback is not called again after it has returned a value, and a reply is that value. */
  lemma ProtocolIsSafe(run: Run<State, Step>)
    requires Follows(run, IsInitial, Steps)
    ensures forall k | 0 <= k < |run.states| :: Invariant(run.states[k])
  {
    forall s, step, s' | Invariant(s) && Steps(s, step, s') ensures Invariant(s') {
      StepKeepsInvariant(s, step);
    }
    AlwaysHolds(run, IsInitial, Steps, Invariant);
  }

  /** The branches for a missing sender and for a poisoned callback are never taken, nothing is ever
      overwritten when the sender is put back, and a value that the callback has returned is sent or
      about to be sent: its sender is at hand. */
  lemma NothingGoesMissing(run: Run<State, Step>, k: nat)
    requires Follows(run, IsInitial, Steps) && k < |run.states|
    ensures var s := run.states[k];
            && (Enabled(s, TakeSender) ==> s.inMutex)
            && (Enabled(s, TakeForReply) ==> s.inMutex)
            && (Enabled(s, Restore) ==> !s.inMutex)
            && (Enabled(s, RunClosure) ==> !s.poisoned)
            && (Outcome(s.calls).Some? ==>
                  || s.replies == [Outcome(s.calls).value]
                  || (s.world.Replying? && s.inMutex && s.world.value == Outcome(s.calls).value)
                  || (s.world.Sending? && s.withWorld && s.world.value == Outcome(s.calls).value))
  {
    ProtocolIsSafe(run);
    assert Invariant(run.states[k]);
  }

  /** Nothing will ever happen again, whatever the user does. */
  ghost predicate Over(s: State, calls: seq<Verdict>, replies: seq<Value>) {
    && s.calls == calls && s.replies == replies
    && !s.firstPending && s.task.NotSpawned? && s.world.Free? && s.inFlight == [] && s.rounds == 0
  }

  lemma OverIsFinal(s: State, step: Step, calls: seq<Verdict>, replies: seq<Value>)
    requires Over(s, calls, replies) && Enabled(s, step)
    ensures Over(After(s, step), calls, replies)
  {
    assert step.Detach? || step.DropReply?;
  }

  /** If the first call of the callback returns a value, that is the reply, and if it panics there is
      none. In either case it is the only call, and no task is ever spawned and no other closure sent. */
  lemma FirstCallDecides(run: Run<State, Step>, i: nat, j: nat)
    requires Follows(run, IsInitial, Steps) && i < j <= |run.steps|
    requires run.steps[i].RunFirst? && !run.steps[i].verdict.NotYet?
    ensures var verdict := run.steps[i].verdict;
            Over(run.states[j], [verdict], if verdict.Done? then [verdict.value] else [])
  {
    var verdict := run.steps[i].verdict;
    var replies := if verdict.Done? then [verdict.value] else [];
    ProtocolIsSafe(run);
    assert Invariant(run.states[i]);
    assert Steps(run.states[i], run.steps[i], run.states[i + 1]);
    FirstCallEndsWait(run.states[i], verdict);
    var over := (s: State) => Over(s, [verdict], replies);
    forall s, step, s' | over(s) && Steps(s, step, s') ensures over(s') {
      OverIsFinal(s, step, [verdict], replies);
    }
    forall k | i + 1 <= k < j ensures Steps(run.states[k], run.steps[k], run.states[k + 1]) {
    }
    KeptBetween(run, Steps, over, i + 1, j);
  }

  lemma FirstCallEndsWait(s: State, verdict: Verdict)
    requires Invariant(s) && Enabled(s, RunFirst(verdict)) && !verdict.NotYet?
    ensures Over(After(s, RunFirst(verdict)), [verdict], if verdict.Done? then [verdict.value] else [])
  {
  }

  // ---------- The wait goes on for as long as someone wants the reply ----------

  ghost predicate Wanted(s: State) {
    s.receiving || s.detached
  }

  /** What holds as long as nothing is shut down and the callback does not panic. */
  ghost predicate Unabandoned(s: State) {
    && !s.poisoned
    && (forall i | 0 <= i < |s.calls| :: !s.calls[i].Panicked?)
    && (s.task.Closed? ==> !s.receiving)
    && (s.unseen != {} ==> Outcome(s.calls).Some?)
    && (s.dropped > 0 ==> !Wanted(s))
    && (Wanted(s) && Outcome(s.calls).None? ==> s.firstPending || TaskAlive(s))
    && (s.task.Awaiting? ==>
          s.task.round in s.seen || s.task.round in s.unseen || s.inFlight == [s.task.round] ||
          (!s.world.Free? && s.world.round == s.task.round))
  }

  lemma OrdinaryFirstCallAbandonsNothing(s: State, verdict: Verdict)
    requires Invariant(s) && Unabandoned(s) && Enabled(s, RunFirst(verdict)) && !verdict.Panicked?
    ensures Unabandoned(After(s, RunFirst(verdict)))
  {
  }

  lemma OrdinaryCallAbandonsNothing(s: State, verdict: Verdict)
    requires Invariant(s) && Unabandoned(s) && Enabled(s, Return(verdict)) && !verdict.Panicked?
    ensures Unabandoned(After(s, Return(verdict)))
  {
  }

  lemma OrdinaryWorldStepAbandonsNothing(s: State, step: Step)
    requires Invariant(s) && Unabandoned(s) && Enabled(s, step)
    requires step.RunClosure? || step.TakeForReply? || step.Send? || step.SendSeen?
    ensures Unabandoned(After(s, step))
  {
  }

  lemma OrdinaryStepAbandonsNothing(s: State, step: Step)
    requires Invariant(s) && Unabandoned(s) && Enabled(s, step) && step.Ordinary()
    ensures Unabandoned(After(s, step))
  {
    if step.RunFirst? {
      OrdinaryFirstCallAbandonsNothing(s, step.verdict);
    } else if step.Return? {
      OrdinaryCallAbandonsNothing(s, step.verdict);
    } else if step.RunClosure? || step.TakeForReply? || step.Send? || step.SendSeen? {
      OrdinaryWorldStepAbandonsNothing(s, step);
    }
  }

  lemma OrdinaryRunsAbandonNothing(run: Run<State, Step>)
    requires Follows(run, IsInitial, OrdinarySteps)
    ensures forall k | 0 <= k < |run.states| :: Invariant(run.states[k]) && Unabandoned(run.states[k])
  {
    var inv := s => Invariant(s) && Unabandoned(s);
    forall s, step, s' | inv(s) && OrdinarySteps(s, step, s') ensures inv(s') {
      StepKeepsInvariant(s, step);
      OrdinaryStepAbandonsNothing(s, step);
    }
    AlwaysHolds(run, IsInitial, OrdinarySteps, inv);
    assert forall k | 0 <= k < |run.states| :: inv(run.states[k]);
  }

  /** As long as the reply is detached or its receiver is there, the sender is not dropped and the wait
      does not end before the callback has returned a value. It cannot get stuck either: unless the
      task is waiting for a change, the task or the world has a step to take. */
  lemma NeverAbandoned(run: Run<State, Step>, k: nat) returns (step: Step)
    requires Follows(run, IsInitial, OrdinarySteps) && k < |run.states|
    requires Wanted(run.states[k]) && run.states[k].replies == []
    ensures run.states[k].dropped == 0
    ensures step.Ordinary() && (step.OfWorld() || step.OfTask()) && Enabled(run.states[k], step)
    ensures step.SeeChange? ==> run.states[k].task.Selecting?
  {
    OrdinaryRunsAbandonNothing(run);
    var s := run.states[k];
    assert Invariant(s) && Unabandoned(s);
    step := if s.firstPending then RunFirst(NotYet) else
      match s.world
      case Evaluating(_) => Return(NotYet)
      case Replying(_, _) => TakeForReply
      case Sending(_, _) => Send
      case Seeing(_) => SendSeen
      case Free => TaskStep(s);
  }

  function TaskStep(s: State): Step {
    match s.task
    case LoopTop => LoadDetached
    case Taking => TakeSender
    case Selecting => SeeChange
    case Closed => CheckDetached
    case Restoring => Restore
    case Posting => Post
    case _ => if s.inFlight != [] then RunClosure else Resume
  }

  // ---------- How often the callback is called ----------

  /** A closure is on its way to call the callback, or will be sent without waiting any further. */
  predicate CallDue(s: State) {
    s.task.Restoring? || s.task.Posting? || s.inFlight != [] || s.world.Evaluating?
  }

  ghost predicate CalledForChanges(s: State) {
    s.detached || |s.calls| + Count(CallDue(s)) <= s.changes + 1
  }

  /** Unless the reply is detached, the callback is called once, and then at most once for each change
      that the task has waited for. */
  lemma CallsFollowChanges(run: Run<State, Step>, k: nat)
    requires Follows(run, IsInitial, Steps) && k < |run.states| && !run.states[k].detached
    ensures |run.states[k].calls| <= run.states[k].changes + 1
  {
    var inv := s => Invariant(s) && CalledForChanges(s);
    forall s, step, s' | inv(s) && Steps(s, step, s') ensures inv(s') {
      StepKeepsInvariant(s, step);
      StepFollowsChanges(s, step);
    }
    AlwaysHolds(run, IsInitial, Steps, inv);
    assert inv(run.states[k]);
  }

  lemma StepFollowsChanges(s: State, step: Step)
    requires Invariant(s) && CalledForChanges(s) && Enabled(s, step)
    ensures CalledForChanges(After(s, step))
  {
    if step.OfWorld() {
      WorldStepFollowsChanges(s, step);
    }
  }

  lemma WorldStepFollowsChanges(s: State, step: Step)
    requires Invariant(s) && CalledForChanges(s) && Enabled(s, step) && step.OfWorld()
    ensures CalledForChanges(After(s, step))
  {
  }

  /** The second run begins with the first, and the user does not detach the reply in what it adds. */
  ghost predicate GoesOn(run: Run<State, Step>, longer: Run<State, Step>) {
    && run.states <= longer.states && run.steps <= longer.steps
    && forall i | |run.steps| <= i < |longer.steps| :: longer.steps[i] != Detach
  }

  /** However the run goes on, short of detaching the reply, calls do not outnumber the changes by more
      than one. */
  ghost predicate KeepsPace(run: Run<State, Step>) {
    forall longer: Run<State, Step> |
      Follows(longer, IsInitial, OrdinarySteps) && GoesOn(run, longer) ::
      |longer.Last().calls| <= longer.Last().changes + 1
  }

  /** The wait is not over, and nobody abandons it. */
  ghost predicate Ongoing(s: State) {
    Outcome(s.calls).None? && (s.firstPending || TaskAlive(s))
  }

  ghost predicate Pollable(s: State) {
    Invariant(s) && Unabandoned(s) && Ongoing(s) && s.detached
  }

  /** A step on the way to the next call that does not wait for a change, */
  function Approach(s: State): Step {
    if s.firstPending then RunFirst(NotYet)
    else
      match s.world
      case Evaluating(_) => Return(NotYet)
      case Seeing(_) => SendSeen
      case _ =>
        if s.task.Selecting? then (if s.receiving then DropReply else SeeClosed) else TaskStep(s)
  }

  /** and how many more there are before the callback is called. */
  function StepsToCall(s: State): nat {
    if s.firstPending then 0
    else
      match s.world
      case Evaluating(_) => 0
      case Seeing(_) => 5
      case _ =>
        match s.task
        case Posting => 2
        case LoopTop => 3
        case Restoring => 3
        case Closed => 4
        case Selecting => if s.receiving then 6 else 5
        case Taking => 7
        case _ => if s.inFlight != [] then 1 else 4
  }

  lemma ApproachIsPossible(s: State)
    requires Pollable(s)
    ensures Enabled(s, Approach(s)) && Approach(s).Ordinary() && Approach(s) != Detach
  {
  }

  lemma ApproachGetsCloser(s: State)
    requires Pollable(s) && Enabled(s, Approach(s))
    ensures var s' := After(s, Approach(s));
            && Ongoing(s') && s'.detached && s'.changes == s.changes
            && if StepsToCall(s) == 0 then |s'.calls| == |s.calls| + 1
               else |s'.calls| == |s.calls| && StepsToCall(s') < StepsToCall(s)
  {
    if s.world.Seeing? {
      SeenGetsCloser(s);
    }
  }

  lemma SeenGetsCloser(s: State)
    requires Pollable(s) && s.world.Seeing?
    ensures var s' := After(s, SendSeen);
            && Ongoing(s') && s'.detached && s'.changes == s.changes
            && |s'.calls| == |s.calls| && StepsToCall(s') < StepsToCall(s)
  {
  }

  /** Any number of further calls without a further change. */
  lemma {:induction false} CallMore(run: Run<State, Step>, n: nat) returns (longer: Run<State, Step>)
    requires Follows(run, IsInitial, OrdinarySteps) && Pollable(run.Last())
    ensures Follows(longer, IsInitial, OrdinarySteps) && GoesOn(run, longer)
    ensures |longer.Last().calls| == |run.Last().calls| + n && longer.Last().changes == run.Last().changes
    decreases n, StepsToCall(run.Last())
  {
    if n == 0 {
      longer := run;
    } else {
      var s := run.Last();
      var step := Approach(s);
      ApproachIsPossible(s);
      ApproachGetsCloser(s);
      StepKeepsInvariant(s, step);
      OrdinaryStepAbandonsNothing(s, step);
      var next := Extended(run, step);
      longer := CallMore(next, if StepsToCall(s) == 0 then n - 1 else n);
    }
  }

  lemma Extended(run: Run<State, Step>, step: Step) returns (longer: Run<State, Step>)
    requires Follows(run, IsInitial, OrdinarySteps)
    requires Enabled(run.Last(), step) && step.Ordinary() && step != Detach
    ensures Follows(longer, IsInitial, OrdinarySteps) && longer.Last() == After(run.Last(), step)
    ensures |longer.steps| == |run.steps| + 1 && GoesOn(run, longer)
  {
    longer := Continued(run, IsInitial, OrdinarySteps, step, After(run.Last(), step));
  }

  lemma {:induction false} StaysAttached(run: Run<State, Step>, i: nat, j: nat)
    requires Follows(run, IsInitial, OrdinarySteps) && i <= j <= |run.steps|
    requires !run.states[i].detached && forall k | i <= k < j :: run.steps[k] != Detach
    ensures !run.states[j].detached
    decreases j
  {
    if i < j {
      StaysAttached(run, i, j - 1);
      assert OrdinarySteps(run.states[j - 1], run.steps[j - 1], run.states[j - 1 + 1]);
      OnlyDetachDetaches(run.states[j - 1], run.steps[j - 1]);
    }
  }

  lemma CallLeavesUser(s: State, step: Step, verdict: Verdict)
    requires Enabled(s, step) && (step == RunFirst(verdict) || step == Return(verdict))
    ensures AfterWorld(s, step).detached == s.detached
  {
    match verdict
    case Done(_) =>
    case NotYet =>
    case Panicked =>
  }

  lemma ClosureLeavesUser(s: State)
    requires Enabled(s, RunClosure)
    ensures AfterWorld(s, RunClosure).detached == s.detached
  {
  }

  lemma WorldLeavesUser(s: State, step: Step)
    requires Enabled(s, step) && step.OfWorld() && !step.RunFirst? && !step.Return?
    ensures AfterWorld(s, step).detached == s.detached
  {
    if step.RunClosure? {
      ClosureLeavesUser(s);
    }
  }

  lemma OnlyDetachDetaches(s: State, step: Step)
    requires Enabled(s, step) && step != Detach
    ensures After(s, step).detached == s.detached
  {
    if step.RunFirst? || step.Return? {
      CallLeavesUser(s, step, step.verdict);
    } else if step.OfWorld() {
      WorldLeavesUser(s, step);
    } else if step.OfTask() {
      assert AfterTask(s, step).detached == s.detached;
    } else {
      assert AfterOthers(s, step).detached == s.detached;
    }
  }

  lemma OrdinaryRunsFollow(run: Run<State, Step>)
    requires Follows(run, IsInitial, OrdinarySteps)
    ensures Follows(run, IsInitial, Steps)
  {
    forall k | 0 <= k < |run.steps| ensures Steps(run.states[k], run.steps[k], run.states[k + 1]) {
      assert OrdinarySteps(run.states[k], run.steps[k], run.states[k + 1]);
    }
  }

  /** While the wait is on, calls keep pace with the changes from here on exactly if the reply is not
      detached. Once it is detached, the task does not wait for changes. */
  lemma KeepsPaceIffAttached(run: Run<State, Step>)
    requires Follows(run, IsInitial, OrdinarySteps) && Ongoing(run.Last())
    ensures KeepsPace(run) <==> !run.Last().detached
  {
    if run.Last().detached {
      OrdinaryRunsAbandonNothing(run);
      var last := run.states[|run.states| - 1];
      assert Invariant(last) && Unabandoned(last);
      var longer := CallMore(run, last.changes + 2);
      assert !KeepsPace(run);
    } else {
      forall longer: Run<State, Step> | Follows(longer, IsInitial, OrdinarySteps) && GoesOn(run, longer)
        ensures |longer.Last().calls| <= longer.Last().changes + 1
      {
        assert longer.states[|run.steps|] == run.Last();
        StaysAttached(longer, |run.steps|, |longer.steps|);
        OrdinaryRunsFollow(longer);
        CallsFollowChanges(longer, |longer.steps|);
      }
    }
  }
}
