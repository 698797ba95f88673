/** The memoised upstream search (src/operation.rs): could anything still reach this operation? */
module Reachability {
  import opened Common
  import opened Paths

  // What the search sees of an operation: whether it is active for the session being asked about
  // (it has an input or a running task), and the operations that feed it.
  datatype Node = Node(active: bool, inputs: seq<Entity>)

  type Graph = map<Entity, Node>

  type Memo = map<Entity, bool>

  datatype SearchError = Broken

  // The answer of a search, and the memo it leaves behind.
  datatype Answer = Answer(result: Result<bool, SearchError>, memo: Memo)

  /** Search upstream of an operation. Whatever is already in the memo is taken at its word, and an
      operation under investigation counts as not reachable until proven otherwise. */
  function SearchUpstream(g: Graph, memo: Memo, source: Entity): (r: Answer)
    ensures memo.Keys <= r.memo.Keys
    decreases g.Keys - memo.Keys, 0, 0
  {
    if source in memo then Answer(Ok(memo[source]), memo)
    else
      var begun := memo[source := false];
      if source !in g then Answer(Err(Broken), begun)
      else
        assert source in g.Keys - memo.Keys && source !in g.Keys - begun.Keys;
        var r := if g[source].active then Answer(Ok(true), begun)
                 else SearchInputs(g, begun, g[source].inputs);
        if r.result == Ok(true) then r.(memo := r.memo[source := true]) else r
  }

  /** Check a list of inputs in order, stopping at the first that is reachable. */
  function SearchInputs(g: Graph, memo: Memo, inputs: seq<Entity>): (r: Answer)
    ensures memo.Keys <= r.memo.Keys
    decreases g.Keys - memo.Keys, 1, |inputs|
  {
    if inputs == [] then Answer(Ok(false), memo)
    else
      var first := SearchUpstream(g, memo, inputs[0]);
      if first.result != Ok(false) then first
      else
        assert g.Keys - first.memo.Keys == g.Keys - memo.Keys || g.Keys - first.memo.Keys < g.Keys - memo.Keys;
        SearchInputs(g, first.memo, inputs[1..])
  }

  /** The search as the code runs it, on one memo shared by the whole recursion. */
  class OperationReachability {
    const world: Graph
    var visited: Memo
    // How many operations have been investigated.
    ghost var expansions: nat

    constructor (world: Graph)
      ensures this.world == world && visited == map[] && expansions == 0
    {
      this.world, visited, expansions := world, map[], 0;
    }

    /** Every operation is investigated at most once, however often it is met. */
    method CheckUpstream(source: Entity) returns (r: Result<bool, SearchError>)
      modifies this
      ensures Answer(r, visited) == SearchUpstream(world, old(visited), source)
      ensures expansions - old(expansions) == |visited| - |old(visited)|
      decreases world.Keys - visited.Keys, 0
    {
      if source in visited {
        return Ok(visited[source]);
      }
      visited := visited[source := false];
      expansions := expansions + 1;
      if source !in world {
        return Err(Broken);
      }
      assert source in world.Keys - old(visited).Keys && source !in world.Keys - visited.Keys;
      r := IsReachable(source);
      if r == Ok(true) {
        visited := visited[source := true];
      }
    }

    /** An operation is reachable if it is active or any of its inputs is reachable. */
    method IsReachable(source: Entity) returns (r: Result<bool, SearchError>)
      requires source in world && source in visited
      modifies this
      ensures Answer(r, visited) == if world[source].active then Answer(Ok(true), old(visited))
                                    else SearchInputs(world, old(visited), world[source].inputs)
      ensures old(visited).Keys <= visited.Keys
      ensures expansions - old(expansions) == |visited| - |old(visited)|
      decreases world.Keys - visited.Keys, 1
    {
      if world[source].active {
        return Ok(true);
      }
      var inputs := world[source].inputs;
      var i := 0;
      while i < |inputs|
        invariant i <= |inputs| && old(visited).Keys <= visited.Keys
        invariant SearchInputs(world, visited, inputs[i..]) == SearchInputs(world, old(visited), inputs)
        invariant expansions - old(expansions) == |visited| - |old(visited)|
      {
        ghost var before := visited;
        assert inputs[i..][0] == inputs[i] && inputs[i..][1..] == inputs[i + 1..];
        assert world.Keys - visited.Keys == world.Keys - old(visited).Keys
            || world.Keys - visited.Keys < world.Keys - old(visited).Keys;
        r := CheckUpstream(inputs[i]);
        if r != Ok(false) {
          return;
        }
        i := i + 1;
      }
      return Ok(false);
    }
  }

  // ---------- What the search is asked ----------

  function Feeds(g: Graph): Edges {
    (x: Entity, y: Entity) => x in g && y in g[x].inputs
  }

  predicate ActiveAt(g: Graph, e: Entity) {
    e in g && g[e].active
  }

  /** Some active operation lies upstream, or is the operation itself. */
  ghost predicate Reachable(g: Graph, source: Entity) {
    exists a :: ActiveAt(g, a) && Connected(Feeds(g), source, a)
  }

  /** Some operation upstream does not exist. */
  ghost predicate Dangling(g: Graph, source: Entity) {
    exists a :: a !in g && Connected(Feeds(g), source, a)
  }

  /** Every `true` in the memo is right. Nothing is claimed about a `false`. */
  ghost predicate Genuine(g: Graph, memo: Memo) {
    forall e | e in memo && memo[e] :: Reachable(g, e)
  }

  lemma FedReachable(g: Graph, source: Entity, input: Entity)
    requires source in g && input in g[source].inputs
    ensures Reachable(g, input) ==> Reachable(g, source)
    ensures Dangling(g, input) ==> Dangling(g, source)
  {
    ConnectedByEdge(Feeds(g), source, input);
    if Reachable(g, input) {
      var a :| ActiveAt(g, a) && Connected(Feeds(g), input, a);
      ConnectedJoin(Feeds(g), source, input, a);
    }
    if Dangling(g, input) {
      var a :| a !in g && Connected(Feeds(g), input, a);
      ConnectedJoin(Feeds(g), source, input, a);
    }
  }

  /** A positive answer, and every positive memo entry, is genuine; an error has a cause. */
  lemma {:induction false} UpstreamIsGenuine(g: Graph, memo: Memo, source: Entity)
    requires Genuine(g, memo)
    ensures var r := SearchUpstream(g, memo, source);
            && Genuine(g, r.memo)
            && (r.result == Ok(true) ==> Reachable(g, source))
            && (r.result.Err? ==> Dangling(g, source))
    decreases g.Keys - memo.Keys, 0, 0
  {
    if source !in memo {
      var begun := memo[source := false];
      ConnectedSelf(Feeds(g), source);
      if source in g && !g[source].active {
        assert source in g.Keys - memo.Keys && source !in g.Keys - begun.Keys;
        InputsAreGenuine(g, begun, g[source].inputs, source);
      }
    }
  }

  lemma {:induction false} InputsAreGenuine(g: Graph, memo: Memo, inputs: seq<Entity>, source: Entity)
    requires Genuine(g, memo)
    requires source in g && forall x | x in inputs :: x in g[source].inputs
    ensures var r := SearchInputs(g, memo, inputs);
            && Genuine(g, r.memo)
            && (r.result == Ok(true) ==> Reachable(g, source))
            && (r.result.Err? ==> Dangling(g, source))
    decreases g.Keys - memo.Keys, 1, |inputs|
  {
    if inputs != [] {
      UpstreamIsGenuine(g, memo, inputs[0]);
      FedReachable(g, source, inputs[0]);
      var first := SearchUpstream(g, memo, inputs[0]);
      if first.result == Ok(false) {
        assert g.Keys - first.memo.Keys == g.Keys - memo.Keys || g.Keys - first.memo.Keys < g.Keys - memo.Keys;
        InputsAreGenuine(g, first.memo, inputs[1..], source);
      }
    }
  }

  /** The operation was investigated and found idle, and none of its inputs was found reachable. */
  ghost predicate Settled(g: Graph, memo: Memo, e: Entity) {
    && e in g && !g[e].active && e in memo && !memo[e]
    && forall x | x in g[e].inputs :: x in memo && !memo[x]
  }

  /** After a negative answer nothing that was known has changed and everything new is settled. */
  ghost predicate Exhausted(g: Graph, before: Memo, after: Memo) {
    && (forall e | e in before :: e in after && after[e] == before[e])
    && forall e | e in after && e !in before :: Settled(g, after, e)
  }

  lemma ExhaustedTrans(g: Graph, a: Memo, b: Memo, c: Memo)
    requires Exhausted(g, a, b) && Exhausted(g, b, c)
    ensures Exhausted(g, a, c)
  {
    forall e | e in c && e !in a ensures Settled(g, c, e) {
      assert e in b ==> Settled(g, b, e);
    }
  }

  lemma {:induction false} NegativeIsExhaustive(g: Graph, memo: Memo, source: Entity)
    ensures var r := SearchUpstream(g, memo, source);
            r.result == Ok(false) ==>
              Exhausted(g, memo, r.memo) && source in r.memo && !r.memo[source]
    decreases g.Keys - memo.Keys, 0, 0
  {
    if source !in memo && source in g && !g[source].active {
      var begun := memo[source := false];
      assert source in g.Keys - memo.Keys && source !in g.Keys - begun.Keys;
      InputsAreExhaustive(g, begun, g[source].inputs);
      var r := SearchUpstream(g, memo, source);
      if r.result == Ok(false) {
        assert Exhausted(g, begun, r.memo);
        assert Settled(g, r.memo, source);
        forall e | e in memo ensures e in r.memo && r.memo[e] == memo[e] {
          assert e in begun;
        }
      }
    }
  }

  lemma {:induction false} InputsAreExhaustive(g: Graph, memo: Memo, inputs: seq<Entity>)
    ensures var r := SearchInputs(g, memo, inputs);
            r.result == Ok(false) ==>
              Exhausted(g, memo, r.memo) && forall x | x in inputs :: x in r.memo && !r.memo[x]
    decreases g.Keys - memo.Keys, 1, |inputs|
  {
    if inputs != [] {
      NegativeIsExhaustive(g, memo, inputs[0]);
      var first := SearchUpstream(g, memo, inputs[0]);
      if first.result == Ok(false) {
        assert g.Keys - first.memo.Keys == g.Keys - memo.Keys || g.Keys - first.memo.Keys < g.Keys - memo.Keys;
        InputsAreExhaustive(g, first.memo, inputs[1..]);
        var r := SearchInputs(g, first.memo, inputs[1..]);
        if r.result == Ok(false) {
          ExhaustedTrans(g, memo, first.memo, r.memo);
          assert inputs == [inputs[0]] + inputs[1..];
        }
      }
    }
  }

  /** A positive answer is put into the memo, so that meeting the operation again gives the same answer. */
  lemma PositiveIsRecorded(g: Graph, memo: Memo, source: Entity)
    ensures var r := SearchUpstream(g, memo, source);
            r.result == Ok(true) ==>
              source in r.memo && r.memo[source] && SearchUpstream(g, r.memo, source) == Answer(Ok(true), r.memo)
  {
  }

  /** A search with a fresh memo is exact on every finite graph, cyclic or not. It says yes exactly
      if some active operation lies upstream, unless it stumbles over an operation that is missing. */
  lemma FreshSearchIsExact(g: Graph, source: Entity)
    ensures var r := SearchUpstream(g, map[], source);
            && (r.result.Ok? ==> (r.result.value <==> Reachable(g, source)))
            && (Dangling(g, source) ==> r.result.Err? || r.result.value)
            && (r.result.Err? ==> Dangling(g, source))
            && Genuine(g, r.memo)
  {
    UpstreamIsGenuine(g, map[], source);
    NegativeIsExhaustive(g, map[], source);
    var r := SearchUpstream(g, map[], source);
    if r.result.Ok? && !r.result.value {
      assert r.result == Ok(false);
      var inside := iset e | e in r.memo;
      forall x, y | x in inside && Feeds(g)(x, y) ensures y in inside {
        assert Settled(g, r.memo, x);
      }
      forall a | Connected(Feeds(g), source, a) ensures a in g && !g[a].active {
        ConnectedStaysInside(Feeds(g), inside, source, a);
        assert Settled(g, r.memo, a);
      }
    } else if r.result.Ok? {
      assert r.result == Ok(true);
    }
  }

  /** Only the operation a search was started from is answered exactly: a cycle can leave a `false`
      behind for an operation that is in fact reachable. */
  lemma MemoEntryMayBeStale()
    ensures var g: Graph := map[0 := Node(false, [1, 2]), 1 := Node(false, [0]), 2 := Node(true, [])];
            var r := SearchUpstream(g, map[], 0);
            r.result == Ok(true) && 1 in r.memo && !r.memo[1] && Reachable(g, 1)
  {
    var g: Graph := map[0 := Node(false, [1, 2]), 1 := Node(false, [0]), 2 := Node(true, [])];
    var m0: Memo := map[0 := false];
    var m1: Memo := m0[1 := false];
    assert SearchUpstream(g, m1, 0) == Answer(Ok(false), m1);
    assert [0][1..] == [];
    assert SearchInputs(g, m1, []) == Answer(Ok(false), m1);
    assert SearchInputs(g, m1, [0]) == Answer(Ok(false), m1);
    assert SearchUpstream(g, m0, 1) == Answer(Ok(false), m1);
    var m2 := m1[2 := true];
    assert SearchUpstream(g, m1, 2) == Answer(Ok(true), m1[2 := false][2 := true]);
    assert [1, 2][1..] == [2];
    assert SearchInputs(g, m1, [2]).result == Ok(true);
    assert SearchInputs(g, m0, [1, 2]) == SearchInputs(g, m1, [2]);
    assert SearchUpstream(g, map[], 0).memo == SearchInputs(g, m1, [2]).memo[0 := true];
    ConnectedByEdge(Feeds(g), 1, 0);
    ConnectedByEdge(Feeds(g), 0, 2);
    ConnectedJoin(Feeds(g), 1, 0, 2);
    assert ActiveAt(g, 2);
  }

  /** Search with a fresh memo. */
  method CheckReachability(world: Graph, source: Entity) returns (r: Result<bool, SearchError>)
    ensures r.Ok? ==> (r.value <==> Reachable(world, source))
    ensures r.Err? ==> Dangling(world, source)
  {
    var reachability := new OperationReachability(world);
    r := reachability.CheckUpstream(source);
    FreshSearchIsExact(world, source);
  }
}
