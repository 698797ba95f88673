/** The flush as the code runs it: nested loops over the lists of a roster (src/flush.rs). What the
    handlers do is read from a script, one emission for each step, so a call covers the first steps
    of a flush, as many as the script is long, or all of it if it ends before that. */
module FlushLoop {
  import opened Common
  import opened FlushMachine
  import opened Rosters
  import opened Runs

  class FlushExecution {
    const parameters: Parameters
    var roster: Roster
    var deferred: Roster
    var channel: seq<ChannelItem>
    var wakes: seq<Entity>
    var loopCount: nat
    // The steps taken since the flush began.
    ghost var run: Run<State, Emission>

    /** The fields hold what the state says they hold. */
    ghost predicate Agrees(s: State)
      reads `roster, `deferred, `channel, `wakes, `loopCount
    {
      && roster == s.roster && deferred == s.deferred && channel == s.channel && wakes == s.wakes
      && loopCount == s.loopCount
    }

    ghost function Now(): State
      requires run.states != []
      reads `run
    {
      run.Last()
    }

    /** The flush has taken k steps from the start state, with the first k emissions of the script. */
    ghost predicate Took(start: State, script: seq<Emission>, k: nat)
      reads this
    {
      && run.Valid() && k <= |script| && run.steps == script[..k] && run.states[0] == start
      && StepsBetween(run, Flushes(parameters), 0, k)
      && Agrees(Now())
    }

    constructor (parameters: Parameters)
      ensures this.parameters == parameters && Agrees(INITIAL)
    {
      this.parameters := parameters;
      roster, deferred, channel, wakes, loopCount := EMPTY_ROSTER, EMPTY_ROSTER, [], [], 0;
      run := Run([INITIAL], []);
    }

    /** Add the step that was just taken to the run. */
    ghost method Record(start: State, script: seq<Emission>, k: nat)
      requires run.Valid() && k < |script| && run.steps == script[..k] && run.states[0] == start
      requires StepsBetween(run, Flushes(parameters), 0, k)
      requires Agrees(Next(parameters, Now(), script[k]))
      modifies `run
      ensures Took(start, script, k + 1) && Now() == Next(parameters, old(Now()), script[k])
    {
      var longer := Run(run.states + [Next(parameters, Now(), script[k])], run.steps + [script[k]]);
      assert longer.steps == script[..k + 1];
      forall i | 0 <= i < k + 1
        ensures Flushes(parameters)(longer.states[i], longer.steps[i], longer.states[i + 1])
      {
        if i < k {
          assert Flushes(parameters)(run.states[i], run.steps[i], run.states[i + 1]);
        }
      }
      run := longer;
    }

    method BeyondRoster(ghost s: State, e: Emission)
      requires Agrees(s)
      modifies this
      ensures run == old(run) && Agrees(Meanwhile(s, e))
    {
      deferred, channel, wakes := deferred.Append(e.later), channel + e.sends, wakes + e.wakes;
    }

    method CallHandler(ghost s: State, e: Emission)
      requires Agrees(s)
      modifies this
      ensures run == old(run) && Agrees(Handle(s, e))
    {
      BeyondRoster(s, e);
      roster := roster.Append(e.roster);
    }

    /** Go on to another phase without calling a handler. */
    method MoveOn(ghost s: State, ghost next: Phase, e: Emission)
      requires Agrees(s) && Next(parameters, s, e) == Meanwhile(s.(phase := next), e)
      modifies this
      ensures run == old(run) && Agrees(Next(parameters, s, e)) && Next(parameters, s, e).phase == next
    {
      BeyondRoster(s, e);
    }

    // ---------- Collecting from the channels ----------

    method ReceiveOne(ghost s: State, e: Emission, received: nat) returns (limitReached: bool)
      requires Agrees(s) && s.phase.Collecting? && s.phase.received == received && channel != []
      modifies this
      ensures run == old(run) && Agrees(Next(parameters, s, e))
      ensures limitReached <==> Reached(parameters.channelReceivedLimit, received)
      ensures Next(parameters, s, e).phase == if limitReached then Draining(s.phase.first, false)
                                              else Collecting(s.phase.first, received + 1)
    {
      var item := channel[0];
      channel := channel[1..];
      if item.StreamItem? {
        roster := roster.(queue := roster.queue + [item.target]);
      }
      assert roster == s.roster.(queue := s.roster.queue + (if item.StreamItem? then [item.target] else []));
      CallHandler(s.(channel := channel, roster := roster), e);
      limitReached := parameters.channelReceivedLimit.Some? && parameters.channelReceivedLimit.value <= received;
    }

    /** Run the commands in the channel. A limit of L lets L + 1 of them run before it stops. */
    method ReceiveAll(ghost start: State, script: seq<Emission>, j: nat, ghost first: bool)
      returns (k: nat, receivedAll: bool, ran: nat)
      requires Took(start, script, j) && Now().phase == Collecting(first, 0)
      modifies this
      ensures j <= k && Took(start, script, k) && (k == |script| || Now().phase == Draining(first, receivedAll))
      ensures match parameters.channelReceivedLimit
              case Some(limit) => ran <= limit + 1 && (receivedAll <==> ran <= limit)
              case None => receivedAll
      ensures k - j == ran + if receivedAll && Now().phase.Draining? then 1 else 0
    {
      k, receivedAll, ran := j, true, 0;
      while k < |script| && channel != []
        invariant j <= k && Took(start, script, k) && receivedAll
        invariant Now().phase == Collecting(first, ran) && k - j == ran
        invariant parameters.channelReceivedLimit.Some? ==> ran <= parameters.channelReceivedLimit.value
        decreases |script| - k
      {
        var limitReached := ReceiveOne(Now(), script[k], ran);
        Record(start, script, k);
        k, ran := k + 1, ran + 1;
        if limitReached {
          receivedAll := false;
          return;
        }
      }
      if k < |script| {
        MoveOn(Now(), Draining(first, true), script[k]);
        Record(start, script, k);
        k := k + 1;
      }
    }

    method DrainDeferrals(ghost s: State, e: Emission)
      requires Agrees(s) && s.phase.Draining?
      modifies this
      ensures run == old(run) && Agrees(Next(parameters, s, e))
      ensures Next(parameters, s, e).phase == Joining(s.phase.first, s.phase.receivedAll)
    {
      roster := roster.ProcessDeferrals();
      CallHandler(s.(roster := roster), e);
    }

    method JoinDeferred(ghost s: State, e: Emission)
      requires Agrees(s) && s.phase.Joining?
      modifies this
      ensures run == old(run) && Agrees(Next(parameters, s, e))
      ensures Next(parameters, s, e).phase ==
              if s.phase.first then Releasing else if s.phase.receivedAll then Disposing else Looping
    {
      roster, deferred := roster.Append(deferred), EMPTY_ROSTER;
      roster, wakes := roster.(awake := roster.awake + wakes), [];
      CallHandler(s.(roster := roster, deferred := EMPTY_ROSTER, wakes := []), e);
    }

    /** Run what is in the channel, queue the deferrals, take over the deferred roster and collect
        the tasks to be woken. */
    method CollectFromChannels(ghost start: State, script: seq<Emission>, j: nat, ghost first: bool)
      returns (k: nat, receivedAll: bool)
      requires Took(start, script, j) && Now().phase == Collecting(first, 0)
      modifies this
      ensures j <= k && Took(start, script, k)
      ensures k == |script| ||
                Now().phase == (if first then Releasing else if receivedAll then Disposing else Looping)
    {
      var ran;
      k, receivedAll, ran := ReceiveAll(start, script, j, first);
      if k < |script| {
        DrainDeferrals(Now(), script[k]);
        Record(start, script, k);
        k := k + 1;
      }
      if k < |script| {
        JoinDeferred(Now(), script[k]);
        Record(start, script, k);
        k := k + 1;
      }
    }

    // ---------- The lists of the roster ----------

    method UnblockOne(ghost s: State, e: Emission)
      requires Agrees(s) && s.phase == Unblocking && roster.unblock != []
      modifies this
      ensures run == old(run) && Agrees(Next(parameters, s, e)) && Next(parameters, s, e).phase == Unblocking
    {
      roster := roster.(unblock := roster.unblock[1..]);
      CallHandler(s.(roster := roster), e);
    }

    method ServeUnblocked(ghost start: State, script: seq<Emission>, j: nat) returns (k: nat)
      requires Took(start, script, j) && Now().phase == Unblocking
      modifies this
      ensures j <= k && Took(start, script, k) && (k == |script| || Now().phase == Executing)
    {
      k := j;
      while k < |script| && roster.unblock != []
        invariant j <= k && Took(start, script, k) && Now().phase == Unblocking
        decreases |script| - k
      {
        UnblockOne(Now(), script[k]);
        Record(start, script, k);
        k := k + 1;
      }
      if k < |script| {
        MoveOn(Now(), Executing, script[k]);
        Record(start, script, k);
        k := k + 1;
      }
    }

    method ExecuteOne(ghost s: State, e: Emission) returns (limitReached: bool)
      requires Agrees(s) && s.phase == Executing && roster.queue != []
      modifies this
      ensures run == old(run) && Agrees(Next(parameters, s, e))
      ensures Next(parameters, s, e).phase == if limitReached then Awakening else Executing
      ensures limitReached <==> Reached(parameters.flushLoopLimit, s.loopCount + 1)
    {
      roster := roster.(queue := roster.queue[1..]);
      loopCount := loopCount + 1;
      limitReached := parameters.flushLoopLimit.Some? && parameters.flushLoopLimit.value <= loopCount;
      CallHandler(s.(roster := roster, loopCount := loopCount), e);
    }

    method ExecuteQueue(ghost start: State, script: seq<Emission>, j: nat) returns (k: nat)
      requires Took(start, script, j) && Now().phase == Executing
      modifies this
      ensures j <= k && Took(start, script, k) && (k == |script| || Now().phase == Awakening)
    {
      k := j;
      while k < |script| && roster.queue != []
        invariant j <= k && Took(start, script, k) && Now().phase == Executing
        decreases |script| - k
      {
        var limitReached := ExecuteOne(Now(), script[k]);
        Record(start, script, k);
        k := k + 1;
        if limitReached {
          return;
        }
      }
      if k < |script| {
        MoveOn(Now(), Awakening, script[k]);
        Record(start, script, k);
        k := k + 1;
      }
    }

    method AwakenOne(ghost s: State, e: Emission)
      requires Agrees(s) && s.phase == Awakening && roster.awake != []
      modifies this
      ensures run == old(run) && Agrees(Next(parameters, s, e)) && Next(parameters, s, e).phase == Awakening
    {
      roster := roster.(awake := roster.awake[1..]);
      CallHandler(s.(roster := roster), e);
    }

    method AwakenTasks(ghost start: State, script: seq<Emission>, j: nat) returns (k: nat)
      requires Took(start, script, j) && Now().phase == Awakening
      modifies this
      ensures j <= k && Took(start, script, k) && (k == |script| || Now().phase == Collecting(false, 0))
    {
      k := j;
      while k < |script| && roster.awake != []
        invariant j <= k && Took(start, script, k) && Now().phase == Awakening
        decreases |script| - k
      {
        AwakenOne(Now(), script[k]);
        Record(start, script, k);
        k := k + 1;
      }
      if k < |script| {
        MoveOn(Now(), Collecting(false, 0), script[k]);
        Record(start, script, k);
        k := k + 1;
      }
    }

    method DisposeOne(ghost s: State, e: Emission)
      requires Agrees(s) && s.phase == Disposing && roster.disposals != []
      modifies this
      ensures run == old(run) && Agrees(Next(parameters, s, e)) && Next(parameters, s, e).phase == Disposing
    {
      roster := roster.(disposals := roster.disposals[1..]);
      CallHandler(s.(roster := roster), e);
    }

    method ValidateOne(ghost s: State, e: Emission)
      requires Agrees(s) && s.phase == Reaching && roster.reachable != []
      modifies this
      ensures run == old(run) && Agrees(Next(parameters, s, e)) && Next(parameters, s, e).phase == Reaching
    {
      roster := roster.(reachable := roster.reachable[1..]);
      CallHandler(s.(roster := roster), e);
    }

    /** Notify the listeners of all disposals. */
    method NotifyListeners(ghost start: State, script: seq<Emission>, j: nat) returns (k: nat)
      requires Took(start, script, j) && Now().phase == Disposing
      modifies this
      ensures j <= k && Took(start, script, k) && (k == |script| || Now().phase == Reaching)
    {
      k := j;
      while k < |script| && roster.disposals != []
        invariant j <= k && Took(start, script, k) && Now().phase == Disposing
        decreases |script| - k
      {
        DisposeOne(Now(), script[k]);
        Record(start, script, k);
        k := k + 1;
      }
      if k < |script| {
        MoveOn(Now(), Reaching, script[k]);
        Record(start, script, k);
        k := k + 1;
      }
    }

    /** Validate the reachability of all scopes that were affected. */
    method ValidateReachability(ghost start: State, script: seq<Emission>, j: nat) returns (k: nat)
      requires Took(start, script, j) && Now().phase == Reaching
      modifies this
      ensures j <= k && Took(start, script, k) && (k == |script| || Now().phase == Looping)
    {
      k := j;
      while k < |script| && roster.reachable != []
        invariant j <= k && Took(start, script, k) && Now().phase == Reaching
        decreases |script| - k
      {
        ValidateOne(Now(), script[k]);
        Record(start, script, k);
        k := k + 1;
      }
      if k < |script| {
        MoveOn(Now(), Looping, script[k]);
        Record(start, script, k);
        k := k + 1;
      }
    }

    method ProcessDisposals(ghost start: State, script: seq<Emission>, j: nat) returns (k: nat)
      requires Took(start, script, j) && Now().phase == Disposing
      modifies this
      ensures j <= k && Took(start, script, k) && (k == |script| || Now().phase == Looping)
    {
      k := NotifyListeners(start, script, j);
      if k < |script| {
        k := ValidateReachability(start, script, k);
      }
    }

    // ---------- The loop ----------

    /** Begin a pass, or leave everything for the next flush if the limit has been reached. */
    method BeginPass(ghost s: State, e: Emission) returns (postponed: bool)
      requires Agrees(s) && s.phase == Looping && !roster.IsEmpty()
      modifies this
      ensures run == old(run) && Agrees(Next(parameters, s, e))
      ensures Next(parameters, s, e).phase == if postponed then Idle else Unblocking
      ensures postponed <==> Reached(parameters.flushLoopLimit, s.loopCount)
    {
      roster := roster.(sessionDespawn := []);
      postponed := parameters.flushLoopLimit.Some? && parameters.flushLoopLimit.value <= loopCount;
      if postponed {
        deferred, roster := deferred.Append(roster), EMPTY_ROSTER;
        BeyondRoster(s.(deferred := deferred, roster := roster), e);
      } else {
        loopCount := loopCount + 1;
        CallHandler(s.(roster := roster, loopCount := loopCount), e);
      }
    }

    method Pass(ghost start: State, script: seq<Emission>, j: nat) returns (k: nat, postponed: bool)
      requires Took(start, script, j) && Now().phase == Looping && !roster.IsEmpty() && j < |script|
      modifies this
      ensures j < k && Took(start, script, k)
      ensures if postponed then Now().phase == Idle else k == |script| || Now().phase == Looping
    {
      postponed := BeginPass(Now(), script[j]);
      Record(start, script, j);
      k := j + 1;
      if postponed || k == |script| {
        return;
      }
      k := ServeUnblocked(start, script, k);
      if k < |script| {
        k := ExecuteQueue(start, script, k);
      }
      if k < |script| {
        k := AwakenTasks(start, script, k);
      }
      if k < |script| {
        var receivedAll;
        k, receivedAll := CollectFromChannels(start, script, k, false);
        if receivedAll && k < |script| {
          k := ProcessDisposals(start, script, k);
        }
      }
    }

    method Begin(ghost s: State, e: Emission)
      requires Agrees(s) && s.phase == Idle
      modifies this
      ensures run == old(run) && Agrees(Next(parameters, s, e))
      ensures Next(parameters, s, e).phase == Collecting(true, 0)
    {
      roster, loopCount := EMPTY_ROSTER, 0;
      BeyondRoster(s.(roster := roster, loopCount := 0), e);
    }

    method ReleaseUnpaused(ghost s: State, e: Emission)
      requires Agrees(s) && s.phase == Releasing
      modifies this
      ensures run == old(run) && Agrees(Next(parameters, s, e)) && Next(parameters, s, e).phase == Looping
    {
      CallHandler(s.(phase := Looping), e);
      roster, deferred := roster.Append(deferred), EMPTY_ROSTER;
    }

    /** The part of a flush before its loop. */
    method Prepare(ghost start: State, script: seq<Emission>) returns (k: nat)
      requires Took(start, script, 0) && Now().phase == Idle
      modifies this
      ensures Took(start, script, k) && (k == |script| || Now().phase == Looping)
    {
      k := 0;
      if |script| > 0 {
        Begin(Now(), script[0]);
        Record(start, script, 0);
        var receivedAll;
        k, receivedAll := CollectFromChannels(start, script, 1, true);
      }
      if k < |script| {
        ReleaseUnpaused(Now(), script[k]);
        Record(start, script, k);
        k := k + 1;
      }
    }

    /** Flush until the roster is empty, the loop limit is reached or the script ends. What happens is
        a run of the flush's state machine, step by step, with the emissions of the script. */
    method Flush(ghost start: State, script: seq<Emission>) returns (k: nat)
      requires Agrees(start) && start.phase == Idle
      modifies this
      ensures Took(start, script, k)
      ensures k == |script| || Now().phase == Idle
    {
      run := Run([start], []);
      k := Prepare(start, script);
      while k < |script| && !roster.IsEmpty()
        invariant Took(start, script, k) && (k == |script| || Now().phase == Looping)
        decreases |script| - k
      {
        var postponed;
        k, postponed := Pass(start, script, k);
        if postponed {
          return;
        }
      }
      if k < |script| {
        MoveOn(Now(), Idle, script[k]);
        Record(start, script, k);
        k := k + 1;
      }
    }
  }
}
