/** `wait_for_access` of the async channel (src/channel.rs): the callback that it hands to `wait_for`
    keeps `then` in an option and takes it out for the one call that is allowed. */
module WaitForAccess {
  import opened Common
  import opened Runs
  import opened WaitForMachine
  import opened WaitForProperties

  // What the world and the user's functions do in one call of the callback. `then` may panic, and
  // otherwise it comes to a value, which stands for an access error as well.
  datatype Attempt =
    | ViewFails(error: Value)
    | WhenPanics
    | NotReady
    | Ready(outcome: Option<Value>)

  datatype Access = Access(thenLeft: bool, thenTaken: nat, foundGone: bool)

  const UNUSED := Access(true, 0, false)
  const GONE: Value := 0

  function Call(access: Access, attempt: Attempt): (Access, Verdict) {
    match attempt
    case ViewFails(error) => (access, Done(error))
    case WhenPanics => (access, Panicked)
    case NotReady => (access, NotYet)
    case Ready(outcome) =>
      if access.thenLeft then
        (access.(thenLeft := false, thenTaken := access.thenTaken + 1),
         if outcome.Some? then Done(outcome.value) else Panicked)
      else
        (access.(foundGone := true), Done(GONE))
  }

  function AfterAttempts(attempts: seq<Attempt>): Access {
    if attempts == [] then UNUSED
    else Call(AfterAttempts(attempts[..|attempts| - 1]), attempts[|attempts| - 1]).0
  }

  function Verdicts(attempts: seq<Attempt>): seq<Verdict> {
    if attempts == [] then []
    else
      var front := attempts[..|attempts| - 1];
      Verdicts(front) + [Call(AfterAttempts(front), attempts[|attempts| - 1]).1]
  }

  lemma {:induction false} UndecidedLeavesThen(attempts: seq<Attempt>)
    requires Undecided(Verdicts(attempts))
    ensures AfterAttempts(attempts) == UNUSED
  {
    if attempts != [] {
      var front := attempts[..|attempts| - 1];
      var verdicts := Verdicts(attempts);
      assert Verdicts(front) == verdicts[..|verdicts| - 1];
      UndecidedLeavesThen(front);
      assert verdicts[|verdicts| - 1].NotYet?;
    }
  }

  /** What is to be replied after an attempt. */
  predicate Says(attempt: Attempt, value: Value) {
    attempt == ViewFails(value) || attempt == Ready(Some(value))
  }

  predicate EndsWith(attempts: seq<Attempt>, value: Value) {
    attempts != [] && Says(attempts[|attempts| - 1], value)
  }

  lemma CalledOnce(attempt: Attempt)
    ensures var (access, verdict) := Call(UNUSED, attempt);
            && !access.foundGone && access.thenTaken == (if attempt.Ready? then 1 else 0)
            && forall value: Value :: verdict == Done(value) <==> Says(attempt, value)
  {
  }

  /** None but the last attempt is anything but too early. */
  ghost predicate OnlyLastDecides(attempts: seq<Attempt>) {
    forall i | 0 <= i < |attempts| - 1 :: attempts[i] == NotReady
  }

  lemma {:induction false} UndecidedAreNotReady(attempts: seq<Attempt>)
    requires Undecided(Verdicts(attempts))
    ensures |Verdicts(attempts)| == |attempts| && forall i | 0 <= i < |attempts| :: attempts[i] == NotReady
  {
    if attempts != [] {
      var front, verdicts := attempts[..|attempts| - 1], Verdicts(attempts);
      assert Verdicts(front) == verdicts[..|verdicts| - 1];
      UndecidedAreNotReady(front);
      UndecidedLeavesThen(front);
      assert verdicts[|verdicts| - 1].NotYet?;
      assert attempts[|attempts| - 1] == NotReady;
    }
  }

  /** Before the last attempt, nothing is used up. */
  lemma FrontIsNotReady(attempts: seq<Attempt>)
    requires attempts != [] && NoneAfterResult(Verdicts(attempts))
    ensures OnlyLastDecides(attempts)
    ensures var call := Call(UNUSED, attempts[|attempts| - 1]);
            AfterAttempts(attempts) == call.0
            && Verdicts(attempts) != [] && Verdicts(attempts)[|Verdicts(attempts)| - 1] == call.1
  {
    var front := attempts[..|attempts| - 1];
    var calls, last := Verdicts(front), Call(AfterAttempts(front), attempts[|attempts| - 1]);
    assert Verdicts(attempts) == calls + [last.1];
    assert Undecided(calls) by {
      assert forall i | 0 <= i < |calls| :: calls[i] == (calls + [last.1])[i];
    }
    UndecidedLeavesThen(front);
    UndecidedAreNotReady(front);
    assert forall i | 0 <= i < |front| :: attempts[i] == front[i];
  }

  /** If no call follows a result or a panic, then it is the first attempt that is not too early which decides:
      `then` is taken out exactly if that attempt is ready, and is there for it. The result is its value, or the error of
      a failed view, and there is none if `when` or `then` panics. */
  lemma OnlyLastAttemptUsesThen(attempts: seq<Attempt>)
    requires NoneAfterResult(Verdicts(attempts))
    ensures OnlyLastDecides(attempts)
    ensures !AfterAttempts(attempts).foundGone
    ensures AfterAttempts(attempts).thenTaken ==
              if attempts != [] && attempts[|attempts| - 1].Ready? then 1 else 0
    ensures forall value: Value :: Outcome(Verdicts(attempts)) == Some(value) <==> EndsWith(attempts, value)
  {
    if attempts != [] {
      FrontIsNotReady(attempts);
      CalledOnce(attempts[|attempts| - 1]);
      LastIsOutcome(Verdicts(attempts));
    }
  }

  lemma LastIsOutcome(calls: seq<Verdict>)
    requires calls != []
    ensures forall value: Value :: Outcome(calls) == Some(value) <==> calls[|calls| - 1] == Done(value)
  {
  }

  lemma RepliedResult(s: State)
    requires Invariant(s)
    ensures forall value | value in s.replies :: Outcome(s.calls) == Some(value)
    ensures NoneAfterResult(s.calls)
  {
  }

  /** In every run of `wait_for` with this callback, the first attempt that is not too early is the last one.
      `then` is taken out once if that attempt is ready and never otherwise, so it runs at most once. The branch
      for a missing `then` is never taken, and a value that is replied comes from `then` or from a failed view of that attempt. */
  lemma ThenRunsAtMostOnce(run: Run<State, Step>, k: nat, attempts: seq<Attempt>)
    requires Follows(run, IsInitial, Steps) && k < |run.states|
    requires run.states[k].calls == Verdicts(attempts)
    ensures OnlyLastDecides(attempts) && !AfterAttempts(attempts).foundGone
    ensures AfterAttempts(attempts).thenTaken ==
              if attempts != [] && attempts[|attempts| - 1].Ready? then 1 else 0
    ensures forall value | value in run.states[k].replies :: EndsWith(attempts, value)
  {
    assert Invariant(run.states[k]) by {
      ProtocolIsSafe(run);
    }
    RepliedResult(run.states[k]);
    OnlyLastAttemptUsesThen(attempts);
  }
}
