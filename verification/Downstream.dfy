/** The downstream search (src/operation.rs), where it falls short, and its agreement with the upstream
    search. */
module Downstream {
  import opened Common
  import opened Paths
  import opened Reachability

  // Where an operation sends its messages. A stream is told apart by its type or by a name, and the
  // targets of either kind are listed in the iteration order of the map that holds them.
  datatype Targets = Targets(
    single: Option<Entity>,
    fork: Option<seq<Entity>>,
    anonymous: seq<Entity>,
    named: seq<Entity>)

  type Wiring = map<Entity, Targets>

  /** The operations immediately downstream, as the search has it: the single target, or failing that
      the targets of a fork, and then the targets of anonymous streams. */
  function ImmediatelyDownstreamOf(w: Wiring, source: Entity): seq<Entity> {
    if source !in w then []
    else
      (match w[source].single
       case Some(target) => [target]
       case None =>
         match w[source].fork
         case Some(targets) => targets
         case None => [])
      + w[source].anonymous
  }

  /** An operation sends to its single target, or failing that to every target of its fork, and to the
      targets of its anonymous streams. */
  predicate Sends(w: Wiring, x: Entity, y: Entity) {
    && x in w
    && (|| w[x].single == Some(y)
        || (w[x].single.None? && w[x].fork.Some? && y in w[x].fork.value)
        || y in w[x].anonymous)
  }

  predicate SendsByName(w: Wiring, x: Entity, y: Entity) {
    x in w && y in w[x].named
  }

  /** The iteration yields exactly those targets. */
  lemma IterationYieldsTargets(w: Wiring, x: Entity, y: Entity)
    ensures y in ImmediatelyDownstreamOf(w, x) <==> Sends(w, x, y)
  {
  }

  /** What the search follows. */
  function Searched(w: Wiring): Edges {
    (x: Entity, y: Entity) => Sends(w, x, y)
  }

  /** Where messages go. */
  function Leads(w: Wiring): Edges {
    (x: Entity, y: Entity) => Sends(w, x, y) || SendsByName(w, x, y)
  }

  /** The target can be reached by following messages from the source, and is not the source. */
  ghost predicate IsDownstream(w: Wiring, source: Entity, target: Entity) {
    source != target && Connected(Leads(w), source, target)
  }

  /** The target can be reached without following a named stream. */
  ghost predicate IsFound(w: Wiring, source: Entity, target: Entity) {
    source != target && Connected(Searched(w), source, target)
  }

  function Everything(w: Wiring, source: Entity): set<Entity> {
    {source} + w.Keys + set x, y | x in w.Keys && y in ImmediatelyDownstreamOf(w, x) :: y
  }

  method IsDownstreamOf(source: Entity, target: Entity, w: Wiring) returns (r: bool)
    ensures r <==> IsFound(w, source, target)
  {
    if source == target {
      return false;
    }
    var queue: seq<Entity> := [source];
    var visited: set<Entity> := {};
    ghost var all := Everything(w, source);
    ConnectedSelf(Searched(w), source);
    while queue != []
      invariant forall x | x in queue :: x in all && Connected(Searched(w), source, x)
      invariant visited <= all && target !in visited
      invariant source in visited || source in queue
      invariant forall x, y | x in visited && Searched(w)(x, y) :: y in visited || y in queue
      decreases all - visited, |queue|
    {
      var top := queue[|queue| - 1];
      assert queue == queue[..|queue| - 1] + [top];
      queue := queue[..|queue| - 1];
      if top == target {
        return true;
      }
      if top !in visited {
        visited := visited + {top};
        var nexts := ImmediatelyDownstreamOf(w, top);
        forall y | y in nexts ensures y in all && Connected(Searched(w), source, y) {
          ConnectedByEdge(Searched(w), top, y);
          ConnectedJoin(Searched(w), source, top, y);
        }
        queue := queue + nexts;
      }
    }
    if Connected(Searched(w), source, target) {
      ConnectedStaysInside(Searched(w), (iset x | x in visited), source, target);
    }
    return false;
  }

  // ---------- When the search finds everything ----------

  /** Whatever a named stream leads to, from an operation that the search gets to, the search gets to
      as well. */
  ghost predicate NamedCovered(w: Wiring, source: Entity) {
    forall x, y | Connected(Searched(w), source, x) && SendsByName(w, x, y) ::
      Connected(Searched(w), source, y)
  }

  lemma FoundIsDownstream(w: Wiring, a: Entity, b: Entity)
    requires Connected(Searched(w), a, b)
    ensures Connected(Leads(w), a, b)
  {
    var p :| WalkBetween(Searched(w), p, a, b);
    forall i | 0 <= i < |p| - 1 ensures Leads(w)(p[i], p[i + 1]) {
      assert Searched(w)(p[i], p[i + 1]);
    }
    assert WalkBetween(Leads(w), p, a, b);
  }

  /** The search from a source meets its purpose, for every target, exactly if named streams lead it
      nowhere new. */
  lemma SearchCompleteIff(w: Wiring, source: Entity)
    ensures (forall target :: IsFound(w, source, target) <==> IsDownstream(w, source, target))
       <==> NamedCovered(w, source)
  {
    ConnectedSelf(Searched(w), source);
    if NamedCovered(w, source) {
      var inside := iset x | Connected(Searched(w), source, x);
      forall x, y | x in inside && Leads(w)(x, y) ensures y in inside {
        if Sends(w, x, y) {
          ConnectedByEdge(Searched(w), x, y);
          ConnectedJoin(Searched(w), source, x, y);
        }
      }
      forall target ensures IsFound(w, source, target) <==> IsDownstream(w, source, target) {
        if IsDownstream(w, source, target) {
          ConnectedStaysInside(Leads(w), inside, source, target);
        }
        if IsFound(w, source, target) {
          FoundIsDownstream(w, source, target);
        }
      }
    }
    if forall target :: IsFound(w, source, target) <==> IsDownstream(w, source, target) {
      forall x, y | Connected(Searched(w), source, x) && SendsByName(w, x, y)
        ensures Connected(Searched(w), source, y)
      {
        FoundIsDownstream(w, source, x);
        ConnectedByEdge(Leads(w), x, y);
        ConnectedJoin(Leads(w), source, x, y);
        assert source != y ==> IsDownstream(w, source, y);
      }
    }
  }

  /** It meets its purpose from everywhere exactly if every operation that a named stream leads to can
      also be reached from there without one. */
  lemma SearchCompleteEverywhereIff(w: Wiring)
    ensures (forall source :: NamedCovered(w, source))
       <==> forall x, y | SendsByName(w, x, y) :: Connected(Searched(w), x, y)
  {
    if forall source :: NamedCovered(w, source) {
      forall x, y | SendsByName(w, x, y) ensures Connected(Searched(w), x, y) {
        ConnectedSelf(Searched(w), x);
        assert NamedCovered(w, x);
      }
    }
    if forall x, y | SendsByName(w, x, y) :: Connected(Searched(w), x, y) {
      forall source, x, y | Connected(Searched(w), source, x) && SendsByName(w, x, y)
        ensures Connected(Searched(w), source, y)
      {
        ConnectedJoin(Searched(w), source, x, y);
      }
    }
  }

  /** For instance, a target that is fed through a named stream alone is not found downstream, although
      the upstream search finds the source. */
  lemma NamedStreamMissed()
    ensures var w: Wiring := map[0 := Targets(None, None, [], [1])];
            var g: Graph := map[0 := Node(true, []), 1 := Node(false, [0])];
            && SameConnections(g, w) && IsDownstream(w, 0, 1) && !IsFound(w, 0, 1)
            && SearchUpstream(g, map[], 1).result == Ok(true)
  {
    var w: Wiring := map[0 := Targets(None, None, [], [1])];
    var g: Graph := map[0 := Node(true, []), 1 := Node(false, [0])];
    ConnectedByEdge(Leads(w), 0, 1);
    var inside: iset<Entity> := iset{0};
    if Connected(Searched(w), 0, 1) {
      ConnectedStaysInside(Searched(w), inside, 0, 1);
    }
    CompleteNeverDangles(g, 1);
    SearchesAgree(g, w, 0, 1);
  }

  // ---------- Agreement ----------

  /** Input lists and target lists describe the same connections, named streams included. */
  ghost predicate SameConnections(g: Graph, w: Wiring) {
    forall x, y :: Feeds(g)(y, x) <==> Leads(w)(x, y)
  }

  /** No input list names an operation that is missing. */
  predicate Complete(g: Graph) {
    forall e | e in g :: forall x | x in g[e].inputs :: x in g
  }

  lemma CompleteNeverDangles(g: Graph, b: Entity)
    requires Complete(g) && b in g
    ensures !Dangling(g, b)
  {
    if Dangling(g, b) {
      var a :| a !in g && Connected(Feeds(g), b, a);
      ConnectedStaysInside(Feeds(g), (iset e | e in g), b, a);
    }
  }

  /** With only one operation active, searching upstream from another finds it exactly if messages lead
      from it to the other. */
  lemma SearchesAgree(g: Graph, w: Wiring, a: Entity, b: Entity)
    requires SameConnections(g, w)
    requires forall e | e in g :: g[e].active <==> e == a
    requires a in g && !Dangling(g, b)
    ensures var r := SearchUpstream(g, map[], b).result;
            r.Ok? && (r.value <==> a == b || IsDownstream(w, a, b))
  {
    FreshSearchIsExact(g, b);
    ConnectedSelf(Feeds(g), b);
    assert ActiveAt(g, a);
    if Reachable(g, b) {
      var x :| ActiveAt(g, x) && Connected(Feeds(g), b, x);
      assert x == a;
      ConnectedReversed(Feeds(g), Leads(w), b, a);
      assert a == b || IsDownstream(w, a, b);
    }
    if IsDownstream(w, a, b) {
      ConnectedReversed(Leads(w), Feeds(g), a, b);
      assert Reachable(g, b);
    }
  }

  /** The two searches agree on the operation b. */
  ghost predicate AgreeOn(g: Graph, w: Wiring, a: Entity, b: Entity) {
    SearchUpstream(g, map[], b).result == Ok(a == b || IsFound(w, a, b))
  }

  /** Whatever a named stream leads to from an operation that the search gets to, the search gets to as
      well, or something upstream of it is missing. */
  ghost predicate NamedCoveredOrDangling(g: Graph, w: Wiring, source: Entity) {
    forall x, y | Connected(Searched(w), source, x) && SendsByName(w, x, y) ::
      Connected(Searched(w), source, y) || Dangling(g, y)
  }

  /** Forward and backward search from and to the one active operation agree wherever nothing upstream
      is missing, exactly if named streams lead nowhere new from it. */
  lemma SearchesAgreeIff(g: Graph, w: Wiring, a: Entity)
    requires SameConnections(g, w)
    requires forall e | e in g :: g[e].active <==> e == a
    requires a in g
    ensures (forall b :: Dangling(g, b) || AgreeOn(g, w, a, b)) <==> NamedCoveredOrDangling(g, w, a)
  {
    forall b | !Dangling(g, b)
      ensures AgreeOn(g, w, a, b) <==> (IsFound(w, a, b) <==> IsDownstream(w, a, b))
    {
      SearchesAgree(g, w, a, b);
    }
    if NamedCoveredOrDangling(g, w, a) {
      forall b | !Dangling(g, b) ensures AgreeOn(g, w, a, b) {
        if Connected(Leads(w), a, b) {
          FoundUnlessDangling(g, w, a, b);
        }
        if IsFound(w, a, b) {
          FoundIsDownstream(w, a, b);
        }
      }
    }
    if forall b :: Dangling(g, b) || AgreeOn(g, w, a, b) {
      forall x, y | Connected(Searched(w), a, x) && SendsByName(w, x, y)
        ensures Connected(Searched(w), a, y) || Dangling(g, y)
      {
        FoundIsDownstream(w, a, x);
        ConnectedByEdge(Leads(w), x, y);
        ConnectedJoin(Leads(w), a, x, y);
        ConnectedSelf(Searched(w), a);
        assert Dangling(g, y) || AgreeOn(g, w, a, y);
      }
    }
  }

  lemma FoundUnlessDangling(g: Graph, w: Wiring, a: Entity, b: Entity)
    requires SameConnections(g, w) && NamedCoveredOrDangling(g, w, a)
    requires Connected(Leads(w), a, b)
    ensures Connected(Searched(w), a, b) || Dangling(g, b)
  {
    var inside := iset x | Connected(Searched(w), a, x) || Dangling(g, x);
    ConnectedSelf(Searched(w), a);
    forall x, y | x in inside && Leads(w)(x, y) ensures y in inside {
      assert Feeds(g)(y, x);
      FedReachable(g, y, x);
      if Connected(Searched(w), a, x) && Sends(w, x, y) {
        ConnectedByEdge(Searched(w), x, y);
        ConnectedJoin(Searched(w), a, x, y);
      }
    }
    ConnectedStaysInside(Leads(w), inside, a, b);
  }
}
