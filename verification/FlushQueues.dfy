/** Each list of a roster is served in the order in which its entries were handed over, and tasks are
    awakened in the order in which they were woken. */
module FlushQueues {
  import opened Common
  import opened FlushConservation
  import opened FlushMachine
  import opened FlushOrder
  import opened Rosters
  import opened Runs

  // ---------- Subsequences ----------

  lemma {:induction false} SubsequenceSelf(a: seq<Entity>)
    ensures Subsequence(a, a)
  {
    if a != [] {
      SubsequenceSelf(a[..|a| - 1]);
    }
  }

  lemma {:induction false} SubsequenceConcat(a: seq<Entity>, b: seq<Entity>, c: seq<Entity>, d: seq<Entity>)
    requires Subsequence(a, b) && Subsequence(c, d)
    ensures Subsequence(a + c, b + d)
  {
    if c == [] {
      assert a + c == a;
      SubsequencePadded(a, b, d);
    } else {
      var m, n := |c| - 1, |d| - 1;
      assert (b + d)[..|b + d| - 1] == b + d[..n];
      if Subsequence(c, d[..n]) {
        SubsequenceConcat(a, b, c, d[..n]);
      } else {
        SubsequenceConcat(a, b, c[..m], d[..n]);
        assert (a + c)[..|a + c| - 1] == a + c[..m];
      }
    }
  }

  lemma {:induction false} SubsequenceTransitive(a: seq<Entity>, b: seq<Entity>, c: seq<Entity>)
    requires Subsequence(a, b) && Subsequence(b, c)
    ensures Subsequence(a, c)
    decreases |c|
  {
    if a != [] {
      var l, m, n := |a| - 1, |b| - 1, |c| - 1;
      if Subsequence(b, c[..n]) {
        SubsequenceTransitive(a, b, c[..n]);
      } else if Subsequence(a, b[..m]) {
        SubsequenceTransitive(a, b[..m], c[..n]);
      } else {
        SubsequenceTransitive(a[..l], b[..m], c[..n]);
      }
    }
  }

  /** A line that is only added to, behind it or in between, still has all that it had in order. */
  lemma Padded(a: seq<Entity>, i: seq<Entity>)
    ensures Subsequence(a, a + i)
  {
    SubsequenceSelf(a);
    SubsequencePadded(a, a, i);
  }

  lemma Inserted(a: seq<Entity>, i: seq<Entity>, b: seq<Entity>)
    ensures Subsequence(a + b, a + i + b)
  {
    Padded(a, i);
    SubsequenceSelf(b);
    SubsequenceConcat(a, a + i, b, b);
  }

  lemma InsertedTwice(a: seq<Entity>, i: seq<Entity>, b: seq<Entity>, j: seq<Entity>, c: seq<Entity>)
    ensures Subsequence(a + b + c, a + i + b + j + c)
  {
    Inserted(a, i, b);
    SubsequencePadded(a + b, a + i + b, j);
    SubsequenceSelf(c);
    SubsequenceConcat(a + b, a + i + b + j, c, c);
  }

  lemma NothingBehind(a: seq<Entity>)
    ensures a + [] == [] + a == a
  {
  }

  lemma Regrouped(a: seq<Entity>, b: seq<Entity>, c: seq<Entity>)
    ensures a + b + c == a + (b + c)
  {
  }

  // ---------- The lines ----------

  /** The flush has not taken over yet what earlier flushes have left in the deferred roster. */
  predicate Early(phase: Phase) {
    match phase
    case Idle => true
    case Collecting(first, _) => first
    case Draining(first, _) => first
    case Joining(first, _) => first
    case _ => false
  }

  /** What has been served of a kind, and after it what is in line. */
  function Line(s: State, served: seq<Entity>, kind: Kind): seq<Entity> {
    if Early(s.phase) then served + Listed(s.roster, kind) + Listed(s.deferred, kind)
    else served + Listed(s.roster, kind)
  }

  /** The same for the tasks, of which those in the wake queue come last. */
  function WakeLine(s: State, served: seq<Entity>): seq<Entity> {
    Line(s, served, Awakenings) + s.wakes
  }

  /** What is handed to the flush's roster in a step, once it has taken over what was left before. */
  ghost function HandedIn(p: Parameters, s: State, e: Emission, kind: Kind): seq<Entity> {
    if HasRoster(p, s) && !Early(s.phase) then Listed(e.roster, kind) else []
  }

  ghost predicate LineGoesOn(p: Parameters, s: State, e: Emission, served: seq<Entity>, kind: Kind) {
    Subsequence(Line(s, served, kind) + HandedIn(p, s, e, kind),
                Line(Next(p, s, e), served + ServedIn(s, kind), kind))
  }

  ghost predicate WakeLineGoesOn(p: Parameters, s: State, e: Emission, served: seq<Entity>) {
    Subsequence(WakeLine(s, served) + e.wakes, WakeLine(Next(p, s, e), served + ServedIn(s, Awakenings)))
  }

  // ---------- One step ----------

  lemma HandleLists(s: State, e: Emission, kind: Kind)
    ensures Listed(Handle(s, e).roster, kind) == Listed(s.roster, kind) + Listed(e.roster, kind)
    ensures Listed(Handle(s, e).deferred, kind) == Listed(s.deferred, kind) + Listed(e.later, kind)
    ensures Meanwhile(s, e).roster == s.roster && Meanwhile(s, e).deferred == Handle(s, e).deferred
  {
  }

  lemma TakeOverLists(s: State, kind: Kind)
    ensures Listed(TakeOver(s).roster, kind) == Listed(s.roster, kind) + Listed(s.deferred, kind)
  {
  }

  /** While a flush has not taken over the deferred roster, both lists only grow. */
  ghost predicate BothGrow(s: State, s': State, e: Emission, kind: Kind, more: seq<Entity>) {
    && Listed(s'.roster, kind) == Listed(s.roster, kind) + more
    && Listed(s'.deferred, kind) == Listed(s.deferred, kind) + Listed(e.later, kind)
    && Early(s'.phase) && s'.wakes == s.wakes + e.wakes
  }

  lemma BeginLists(p: Parameters, s: State, e: Emission, kind: Kind)
    requires IdleIsEmpty(s) && s.phase.Idle?
    ensures BothGrow(s, Next(p, s, e), e, kind, [])
  {
    HandleLists(s, e, kind);
  }

  lemma EarlyReceiving(p: Parameters, s: State, e: Emission, kind: Kind) returns (more: seq<Entity>)
    requires s.phase.Collecting? && s.phase.first
    ensures BothGrow(s, Next(p, s, e), e, kind, more)
  {
    if s.channel == [] {
      more := [];
      NothingBehind(Listed(s.roster, kind));
      HandleLists(s, e, kind);
    } else {
      var s' := ReceivingHandles(p, s, e);
      HandleLists(s', e, kind);
      more := (if kind.Executions? then WokenBy(s.channel[0]) else []) + Listed(e.roster, kind);
    }
  }

  lemma EarlyDraining(p: Parameters, s: State, e: Emission, kind: Kind) returns (more: seq<Entity>)
    requires s.phase.Draining? && s.phase.first
    ensures BothGrow(s, Next(p, s, e), e, kind, more)
  {
    HandleLists(s.(roster := s.roster.ProcessDeferrals()), e, kind);
    more := (if kind.Executions? then s.roster.deferredQueue else []) + Listed(e.roster, kind);
  }

  lemma EarlyLists(p: Parameters, s: State, e: Emission, kind: Kind) returns (more: seq<Entity>)
    requires IdleIsEmpty(s) && Early(s.phase) && !s.phase.Joining?
    ensures BothGrow(s, Next(p, s, e), e, kind, more) && ServedIn(s, kind) == [] == HandedIn(p, s, e, kind)
  {
    if s.phase.Idle? {
      BeginLists(p, s, e, kind);
      more := [];
    } else if s.phase.Collecting? {
      more := EarlyReceiving(p, s, e, kind);
    } else {
      more := EarlyDraining(p, s, e, kind);
    }
  }

  lemma JoinLists(p: Parameters, s: State, e: Emission, kind: Kind)
    requires s.phase.Joining?
    ensures var s' := Next(p, s, e);
            && Listed(s'.roster, kind) ==
                 Listed(s.roster, kind) + Listed(s.deferred, kind)
                 + (if kind.Awakenings? then s.wakes else []) + Listed(e.roster, kind)
            && !Early(s'.phase) && ServedIn(s, kind) == [] && s'.wakes == e.wakes
            && (!s.phase.first ==> HandedIn(p, s, e, kind) == Listed(e.roster, kind))
  {
    assert [] + e.wakes == e.wakes;
  }

  /** What is served leaves the front of its list, and what is handed over comes after all else that is added. */
  ghost predicate GoesThrough(p: Parameters, s: State, e: Emission, kind: Kind, more: seq<Entity>) {
    ServedIn(s, kind) + Listed(Next(p, s, e).roster, kind) == Listed(s.roster, kind) + more + HandedIn(p, s, e, kind)
  }

  lemma ReceivingLists(p: Parameters, s: State, e: Emission, kind: Kind) returns (more: seq<Entity>)
    requires s.phase.Collecting? && !s.phase.first
    ensures GoesThrough(p, s, e, kind, more)
  {
    HandleLists(s, e, kind);
    more := [];
    if s.channel != [] {
      more := if kind.Executions? then WokenBy(s.channel[0]) else [];
      var s' := ReceivingHandles(p, s, e);
      HandleLists(s', e, kind);
    }
  }

  lemma DrainingLists(p: Parameters, s: State, e: Emission, kind: Kind) returns (more: seq<Entity>)
    requires s.phase.Draining? && !s.phase.first
    ensures GoesThrough(p, s, e, kind, more)
  {
    more := if kind.Executions? then s.roster.deferredQueue else [];
    HandleLists(s.(roster := s.roster.ProcessDeferrals()), e, kind);
  }

  lemma WithoutLists(r: Roster, served: Kind, kind: Kind)
    ensures Listed(Without(r, served), kind) == if kind == served then Tail(Listed(r, kind)) else Listed(r, kind)
  {
  }

  lemma FirstIsServed(s: State, rest: Roster, served: Kind, kind: Kind)
    requires ListServedIn(s.phase) == Some(served) && rest == Without(s.roster, served)
    ensures ServedIn(s, kind) + Listed(rest, kind) == Listed(s.roster, kind)
  {
    FirstAndTail(Listed(s.roster, kind), 0);
    WithoutLists(s.roster, served, kind);
  }

  lemma ServingLists(p: Parameters, s: State, e: Emission, kind: Kind)
    requires ListServedIn(s.phase).Some?
    ensures GoesThrough(p, s, e, kind, [])
  {
    var served := ListServedIn(s.phase).value;
    if Listed(s.roster, served) != [] {
      var s' := ServingHandles(p, s, e, served);
      FirstIsServed(s, s'.roster, served, kind);
      HandleLists(s', e, kind);
      OneThrough(s, Handle(s', e), s'.roster, kind, Listed(e.roster, kind));
    } else {
      var s' := ServedOut(p, s, e, served);
      FirstIsServed(s, s'.roster, served, kind);
      HandleLists(s', e, kind);
      OneThrough(s, Meanwhile(s', e), s'.roster, kind, []);
    }
  }

  lemma OneThrough(s: State, s': State, rest: Roster, kind: Kind, handed: seq<Entity>)
    requires ServedIn(s, kind) + Listed(rest, kind) == Listed(s.roster, kind)
    requires Listed(s'.roster, kind) == Listed(rest, kind) + handed
    ensures ServedIn(s, kind) + Listed(s'.roster, kind) == Listed(s.roster, kind) + [] + handed
  {
  }

  lemma LatePhases(p: Parameters, s: State, e: Emission)
    requires !Early(s.phase) && !s.phase.Looping? && !s.phase.Joining? && !s.phase.Releasing?
    ensures !Early(Next(p, s, e).phase) && Next(p, s, e).wakes == s.wakes + e.wakes
  {
  }

  lemma LateLists(p: Parameters, s: State, e: Emission, kind: Kind) returns (more: seq<Entity>)
    requires !Early(s.phase) && !s.phase.Looping? && !s.phase.Joining? && !s.phase.Releasing?
    ensures GoesThrough(p, s, e, kind, more)
  {
    if s.phase.Collecting? {
      more := ReceivingLists(p, s, e, kind);
    } else if s.phase.Draining? {
      more := DrainingLists(p, s, e, kind);
    } else {
      more := [];
      ServingLists(p, s, e, kind);
    }
  }

  lemma ReleaseLists(p: Parameters, s: State, e: Emission, kind: Kind)
    requires s.phase.Releasing?
    ensures var s' := Next(p, s, e);
            && Listed(s'.roster, kind) == Listed(s.roster, kind) + Listed(e.roster, kind) + LeftOver(s, e, kind)
            && !Early(s'.phase) && ServedIn(s, kind) == [] && s'.wakes == s.wakes + e.wakes
            && HandedIn(p, s, e, kind) == Listed(e.roster, kind)
  {
    HandleLists(s.(phase := Looping), e, kind);
    TakeOverLists(Handle(s.(phase := Looping), e), kind);
  }

  function LeftOver(s: State, e: Emission, kind: Kind): seq<Entity> {
    Listed(s.deferred, kind) + Listed(e.later, kind)
  }

  /** What is left of a list when all sessions to be despawned have been served. */
  function AfterDespawning(s: State, kind: Kind): (rest: seq<Entity>)
    ensures s.phase.Looping? ==> ServedIn(s, kind) + rest == Listed(s.roster, kind)
    ensures rest == Listed(s.roster.(sessionDespawn := []), kind)
  {
    if kind.Despawns? then [] else Listed(s.roster, kind)
  }

  /** At the top of the loop, a list either goes on, */
  lemma PassLists(p: Parameters, s: State, e: Emission, kind: Kind)
    requires s.phase.Looping? && s.roster != EMPTY_ROSTER && !Reached(p.flushLoopLimit, s.loopCount)
    ensures var s' := Next(p, s, e);
            && s'.phase == Unblocking && s'.wakes == s.wakes + e.wakes
            && Listed(s'.roster, kind) == AfterDespawning(s, kind) + HandedIn(p, s, e, kind)
  {
    HandleLists(s.(roster := s.roster.(sessionDespawn := [])), e, kind);
  }

  /** or is left for the next flush. */
  lemma EndLists(p: Parameters, s: State, e: Emission, kind: Kind)
    requires s.phase.Looping? && (s.roster == EMPTY_ROSTER || Reached(p.flushLoopLimit, s.loopCount))
    ensures var s' := Next(p, s, e);
            && s'.phase == Idle && s'.wakes == s.wakes + e.wakes
            && HandedIn(p, s, e, kind) == [] && Listed(s'.roster, kind) == []
            && Listed(s'.deferred, kind) == Listed(s.deferred, kind) + AfterDespawning(s, kind) + Listed(e.later, kind)
  {
    if s.roster == EMPTY_ROSTER {
      HandleLists(s, e, kind);
      NothingBehind(Listed(s.deferred, kind));
      assert AfterDespawning(s, kind) == [] && Meanwhile(s, e).deferred == Next(p, s, e).deferred;
    } else {
      var rest := s.roster.(sessionDespawn := []);
      var s' := s.(phase := Idle, deferred := s.deferred.Append(rest), roster := EMPTY_ROSTER);
      assert Next(p, s, e) == Meanwhile(s', e);
      HandleLists(s', e, kind);
      AppendLists(s.deferred, rest, kind);
    }
  }

  lemma AppendLists(a: Roster, b: Roster, kind: Kind)
    ensures Listed(a.Append(b), kind) == Listed(a, kind) + Listed(b, kind)
  {
  }

  // ---------- The lines go on ----------

  lemma EarlyGrows(served: seq<Entity>, r: seq<Entity>, d: seq<Entity>, more: seq<Entity>, later: seq<Entity>)
    ensures Subsequence(served + r + d, served + (r + more) + (d + later))
  {
    Padded(d, later);
    Padded(r, more);
    SubsequenceSelf(served);
    SubsequenceConcat(served, served, r, r + more);
    SubsequenceConcat(served + r, served + (r + more), d, d + later);
  }

  /** What comes behind both. */
  lemma BothGoOn(line: seq<Entity>, line': seq<Entity>, w: seq<Entity>, woken: seq<Entity>)
    requires Subsequence(line, line')
    ensures Subsequence(line + w + woken, line' + (w + woken))
  {
    SubsequenceSelf(w + woken);
    SubsequenceConcat(line, line', w + woken, w + woken);
    Regrouped(line, w, woken);
  }

  lemma EarlyGoesOn(p: Parameters, s: State, e: Emission, served: seq<Entity>, kind: Kind)
    requires IdleIsEmpty(s) && Early(s.phase) && !s.phase.Joining?
    ensures LineGoesOn(p, s, e, served, kind)
    ensures kind.Awakenings? ==> WakeLineGoesOn(p, s, e, served)
  {
    var more := EarlyLists(p, s, e, kind);
    var r, d, later := Listed(s.roster, kind), Listed(s.deferred, kind), Listed(e.later, kind);
    EarlyGrows(served, r, d, more, later);
    var line, line' := Line(s, served, kind), Line(Next(p, s, e), served + ServedIn(s, kind), kind);
    assert served + [] == served && line + [] == line;
    BothGoOn(line, line', s.wakes, e.wakes);
  }

  lemma Joined(served: seq<Entity>, r: seq<Entity>, d: seq<Entity>, w: seq<Entity>, handed: seq<Entity>)
    ensures served + r + d + w + handed == served + (r + d + w + handed)
    ensures served + r + (d + w) + handed == served + r + d + w + handed
  {
    Regrouped(served + r, d, w);
  }

  /** The line when the deferred roster is taken over for the first time in a flush, */
  lemma FirstJoinGrows(served: seq<Entity>, r: seq<Entity>, d: seq<Entity>, w: seq<Entity>, handed: seq<Entity>,
                       woken: seq<Entity>)
    ensures Subsequence(served + r + d, served + (r + d + w + handed))
    ensures Subsequence(served + r + d + w + woken, served + (r + d + w + handed) + woken)
  {
    Padded(served + r + d, w + handed);
    Regrouped(served + r + d, w, handed);
    Joined(served, r, d, w, handed);
    Inserted(served + r + d + w, handed, woken);
  }

  /** and when it is taken over again. */
  lemma JoinGrows(served: seq<Entity>, r: seq<Entity>, d: seq<Entity>, w: seq<Entity>, handed: seq<Entity>,
                  woken: seq<Entity>)
    ensures Subsequence(served + r + handed, served + (r + d + w + handed))
    ensures Subsequence(served + r + w + woken, served + (r + d + w + handed) + woken)
  {
    Inserted(served + r, d + w, handed);
    Joined(served, r, d, w, handed);
    InsertedTwice(served + r, d, w, handed, woken);
  }

  lemma JoinGoesOn(p: Parameters, s: State, e: Emission, served: seq<Entity>, kind: Kind)
    requires s.phase.Joining?
    ensures LineGoesOn(p, s, e, served, kind)
    ensures kind.Awakenings? ==> WakeLineGoesOn(p, s, e, served)
  {
    JoinLists(p, s, e, kind);
    var r, d, k := Listed(s.roster, kind), Listed(s.deferred, kind), if kind.Awakenings? then s.wakes else [];
    NothingBehind(Line(s, served, kind));
    NothingBehind(served);
    if s.phase.first {
      FirstJoinGrows(served, r, d, k, Listed(e.roster, kind), e.wakes);
    } else {
      JoinGrows(served, r, d, k, Listed(e.roster, kind), e.wakes);
    }
  }

  lemma LateGrows(line: seq<Entity>, more: seq<Entity>, handed: seq<Entity>, behind: seq<Entity>)
    ensures Subsequence(line + handed, line + more + handed + behind)
    ensures Subsequence(line, line + more + handed + behind)
  {
    Inserted(line, more, handed);
    SubsequencePadded(line + handed, line + more + handed, behind);
    Padded(line, more);
    SubsequencePadded(line, line + more, handed);
    SubsequencePadded(line, line + more + handed, behind);
  }

  /** The line with what is served and what is left of a list, given what has become of the list. */
  lemma LateLine(served: seq<Entity>, v: seq<Entity>, r: seq<Entity>, r': seq<Entity>,
                 more: seq<Entity>, handed: seq<Entity>, behind: seq<Entity>)
    requires v + r' == r + more + handed + behind
    ensures served + v + r' == served + r + more + handed + behind
  {
    Regrouped(served, v, r');
  }

  /** The lines after a step that leaves the deferred roster out of the line, before and after. */
  lemma LinesAfter(p: Parameters, s: State, e: Emission, served: seq<Entity>, kind: Kind, more: seq<Entity>,
                   behind: seq<Entity>)
    requires var s' := Next(p, s, e);
             && !Early(s.phase) && !Early(s'.phase) && s'.wakes == s.wakes + e.wakes
             && ServedIn(s, kind) + Listed(s'.roster, kind)
                  == Listed(s.roster, kind) + more + HandedIn(p, s, e, kind) + behind
    ensures LineGoesOn(p, s, e, served, kind)
    ensures kind.Awakenings? ==> WakeLineGoesOn(p, s, e, served)
  {
    var s' := Next(p, s, e);
    var line, line' := Line(s, served, kind), Line(s', served + ServedIn(s, kind), kind);
    LateLine(served, ServedIn(s, kind), Listed(s.roster, kind), Listed(s'.roster, kind), more,
             HandedIn(p, s, e, kind), behind);
    LateGrows(line, more, HandedIn(p, s, e, kind), behind);
    BothGoOn(line, line', s.wakes, e.wakes);
  }

  lemma LateGoesOn(p: Parameters, s: State, e: Emission, served: seq<Entity>, kind: Kind)
    requires !Early(s.phase) && !s.phase.Looping? && !s.phase.Joining? && !s.phase.Releasing?
    ensures LineGoesOn(p, s, e, served, kind)
    ensures kind.Awakenings? ==> WakeLineGoesOn(p, s, e, served)
  {
    LatePhases(p, s, e);
    var more := LateLists(p, s, e, kind);
    NothingBehind(Listed(s.roster, kind) + more + HandedIn(p, s, e, kind));
    LinesAfter(p, s, e, served, kind, more, []);
  }

  lemma ReleaseGoesOn(p: Parameters, s: State, e: Emission, served: seq<Entity>, kind: Kind)
    requires s.phase.Releasing?
    ensures LineGoesOn(p, s, e, served, kind)
    ensures kind.Awakenings? ==> WakeLineGoesOn(p, s, e, served)
  {
    ReleaseLists(p, s, e, kind);
    NothingBehind(Listed(s.roster, kind));
    NothingBehind(Listed(Next(p, s, e).roster, kind));
    LinesAfter(p, s, e, served, kind, [], LeftOver(s, e, kind));
  }

  lemma EndGrows(line: seq<Entity>, rest: seq<Entity>, d: seq<Entity>, later: seq<Entity>)
    ensures Subsequence(line + rest, line + [] + (d + rest + later))
  {
    Inserted(line, d, rest);
    SubsequencePadded(line + rest, line + d + rest, later);
    assert line + [] + (d + rest + later) == line + d + rest + later;
  }

  lemma LoopGoesOn(p: Parameters, s: State, e: Emission, served: seq<Entity>, kind: Kind)
    requires s.phase.Looping?
    ensures LineGoesOn(p, s, e, served, kind)
    ensures kind.Awakenings? ==> WakeLineGoesOn(p, s, e, served)
  {
    var v, rest := ServedIn(s, kind), AfterDespawning(s, kind);
    if s.roster == EMPTY_ROSTER || Reached(p.flushLoopLimit, s.loopCount) {
      EndLists(p, s, e, kind);
      EndGrows(served + v, rest, Listed(s.deferred, kind), Listed(e.later, kind));
      Regrouped(served, v, rest);
      var line, line' := Line(s, served, kind), Line(Next(p, s, e), served + v, kind);
      NothingBehind(line);
      BothGoOn(line, line', s.wakes, e.wakes);
    } else {
      PassLists(p, s, e, kind);
      var r, handed := Listed(s.roster, kind), HandedIn(p, s, e, kind);
      Regrouped(v, rest, handed);
      NothingBehind(r);
      NothingBehind(r + handed);
      LinesAfter(p, s, e, served, kind, [], []);
    }
  }

  lemma StepGoesOn(p: Parameters, s: State, e: Emission, served: seq<Entity>, kind: Kind)
    requires IdleIsEmpty(s)
    ensures LineGoesOn(p, s, e, served, kind)
    ensures kind.Awakenings? ==> WakeLineGoesOn(p, s, e, served)
  {
    if s.phase.Joining? {
      JoinGoesOn(p, s, e, served, kind);
    } else if Early(s.phase) {
      EarlyGoesOn(p, s, e, served, kind);
    } else if s.phase.Looping? {
      LoopGoesOn(p, s, e, served, kind);
    } else if s.phase.Releasing? {
      ReleaseGoesOn(p, s, e, served, kind);
    } else {
      LateGoesOn(p, s, e, served, kind);
    }
  }

  // ---------- Whole runs ----------

  /** All entries of a kind that have been handed to the flush's roster in the first k steps of a run, whenever
      it had taken over what was left before, in order, */
  ghost function Handed(p: Parameters, run: Run<State, Emission>, k: nat, kind: Kind): seq<Entity>
    requires run.Valid() && k <= |run.steps|
  {
    if k == 0 then []
    else Handed(p, run, k - 1, kind) + HandedIn(p, run.states[k - 1], run.steps[k - 1], kind)
  }

  /** and all tasks that have been woken. */
  ghost function Woken(run: Run<State, Emission>, k: nat): seq<Entity>
    requires run.Valid() && k <= |run.steps|
  {
    if k == 0 then [] else Woken(run, k - 1) + run.steps[k - 1].wakes
  }

  lemma JoinsLine(arrived: seq<Entity>, now: seq<Entity>, line: seq<Entity>, line': seq<Entity>)
    requires Subsequence(arrived, line) && Subsequence(line + now, line')
    ensures Subsequence(arrived + now, line')
  {
    SubsequenceSelf(now);
    SubsequenceConcat(arrived, line, now, now);
    SubsequenceTransitive(arrived + now, line + now, line');
  }

  lemma HandedJoin(p: Parameters, s: State, e: Emission, served: seq<Entity>, kind: Kind, before: seq<Entity>)
    requires IdleIsEmpty(s) && Subsequence(before, Line(s, served, kind))
    ensures Subsequence(before + HandedIn(p, s, e, kind), Line(Next(p, s, e), served + ServedIn(s, kind), kind))
  {
    StepGoesOn(p, s, e, served, kind);
    JoinsLine(before, HandedIn(p, s, e, kind), Line(s, served, kind),
              Line(Next(p, s, e), served + ServedIn(s, kind), kind));
  }

  lemma WokenJoin(p: Parameters, s: State, e: Emission, served: seq<Entity>, before: seq<Entity>)
    requires IdleIsEmpty(s) && Subsequence(before, WakeLine(s, served))
    ensures Subsequence(before + e.wakes, WakeLine(Next(p, s, e), served + ServedIn(s, Awakenings)))
  {
    StepGoesOn(p, s, e, served, Awakenings);
    JoinsLine(before, e.wakes, WakeLine(s, served), WakeLine(Next(p, s, e), served + ServedIn(s, Awakenings)));
  }

  ghost predicate HandedInLine(p: Parameters, run: Run<State, Emission>, k: nat, kind: Kind) {
    && run.Valid() && k <= |run.steps|
    && Subsequence(Handed(p, run, k, kind), Line(run.states[k], Served(run, k, kind), kind))
  }

  ghost predicate WokenInLine(run: Run<State, Emission>, k: nat) {
    && run.Valid() && k <= |run.steps|
    && Subsequence(Woken(run, k), WakeLine(run.states[k], Served(run, k, Awakenings)))
  }

  lemma HandedStep(p: Parameters, run: Run<State, Emission>, k: nat, kind: Kind)
    requires Follows(run, IsInitial, Flushes(p)) && 0 < k <= |run.steps| && HandedInLine(p, run, k - 1, kind)
    ensures HandedInLine(p, run, k, kind)
  {
    var s, e := run.states[k - 1], run.steps[k - 1];
    FlushConserves(p, run, k - 1, kind, 0);
    assert Flushes(p)(run.states[k - 1], run.steps[k - 1], run.states[k - 1 + 1]);
    HandedJoin(p, s, e, Served(run, k - 1, kind), kind, Handed(p, run, k - 1, kind));
  }

  lemma WokenStep(p: Parameters, run: Run<State, Emission>, k: nat)
    requires Follows(run, IsInitial, Flushes(p)) && 0 < k <= |run.steps| && WokenInLine(run, k - 1)
    ensures WokenInLine(run, k)
  {
    var s, e := run.states[k - 1], run.steps[k - 1];
    FlushConserves(p, run, k - 1, Awakenings, 0);
    assert Flushes(p)(run.states[k - 1], run.steps[k - 1], run.states[k - 1 + 1]);
    WokenJoin(p, s, e, Served(run, k - 1, Awakenings), Woken(run, k - 1));
  }

  lemma NoneInLine(p: Parameters, run: Run<State, Emission>, k: nat, kind: Kind)
    requires run.Valid() && k == 0
    ensures HandedInLine(p, run, k, kind) && WokenInLine(run, k)
  {
  }

  lemma {:induction false} HandedThroughout(p: Parameters, run: Run<State, Emission>, k: nat, kind: Kind)
    requires Follows(run, IsInitial, Flushes(p)) && 0 < k <= |run.steps|
    ensures HandedInLine(p, run, k, kind)
  {
    if k > 1 {
      HandedThroughout(p, run, k - 1, kind);
    } else {
      NoneInLine(p, run, k - 1, kind);
    }
    HandedStep(p, run, k, kind);
  }

  lemma {:induction false} WokenThroughout(p: Parameters, run: Run<State, Emission>, k: nat)
    requires Follows(run, IsInitial, Flushes(p)) && 0 < k <= |run.steps|
    ensures WokenInLine(run, k)
  {
    if k > 1 {
      WokenThroughout(p, run, k - 1);
    } else {
      NoneInLine(p, run, k - 1, Awakenings);
    }
    WokenStep(p, run, k);
  }

  /** Tasks are awakened in the order in which they have been woken, over any number of flushes: all tasks ever
      woken occur in that order among those awakened and, after them, those still in line. */
  lemma AwakenedInOrder(p: Parameters, run: Run<State, Emission>, k: nat)
    requires Follows(run, IsInitial, Flushes(p)) && k <= |run.steps|
    ensures var s := run.states[k];
            Subsequence(Woken(run, k), Served(run, k, Awakenings) + s.roster.awake + s.deferred.awake + s.wakes)
  {
    if k > 0 {
      WokenThroughout(p, run, k);
    }
    var s, served := run.states[k], Served(run, k, Awakenings);
    if !Early(s.phase) {
      Inserted(served + s.roster.awake, s.deferred.awake, s.wakes);
      SubsequenceTransitive(Woken(run, k), WakeLine(s, served),
                            served + s.roster.awake + s.deferred.awake + s.wakes);
    }
  }

  /** Each list is served in the order in which its entries have been handed to the flush's roster, once the
      flush has taken over what was left before: they occur in that order among those served and, after them,
      those still in line. */
  lemma ServedInOrder(p: Parameters, run: Run<State, Emission>, k: nat, kind: Kind)
    requires Follows(run, IsInitial, Flushes(p)) && k <= |run.steps|
    ensures var s := run.states[k];
            Subsequence(Handed(p, run, k, kind),
                        Served(run, k, kind) + Listed(s.roster, kind) + Listed(s.deferred, kind))
  {
    if k > 0 {
      HandedThroughout(p, run, k, kind);
    }
    var s, served := run.states[k], Served(run, k, kind);
    if !Early(s.phase) {
      SubsequencePadded(Handed(p, run, k, kind), Line(s, served, kind), Listed(s.deferred, kind));
    }
  }
}
