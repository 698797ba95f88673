/** The validation of the templates that a diagram uses (src/diagram.rs). Its worklist keeps no track
    of what it has seen either, and no check has been passed before it. */
module TemplateUsage {
  import opened Common
  import opened Nesting
  import opened NestingCheck
  import opened Paths

  /** Nothing nested in the map is nested in itself, and every template used in it exists. */
  ghost predicate Sound(d: Diagram, x: OpsId) {
    Everywhere(d, Root(x), Anything())
  }

  /** A map is sound exactly if it resolves and what it nests is sound. A map on a cycle is not, for
      the cycle can be reached from what it nests. */
  lemma SoundIffChildren(d: Diagram, x: OpsId)
    ensures Sound(d, x) <==> ResolvesAt(d, x) && forall c | Nests(d)(x, c) :: Sound(d, c)
  {
    EverywhereIsExact(d, x, Anything());
    ConnectedSelf(Nests(d), x);
    if Sound(d, x) {
      forall c | Nests(d)(x, c) ensures Sound(d, c) {
        forall y | Nested(d, c, y) ensures Nested(d, x, y) {
          ConnectedByEdge(Nests(d), x, c);
          ConnectedJoin(Nests(d), x, c, y);
        }
        EverywhereIsExact(d, c, Anything());
      }
    }
    if ResolvesAt(d, x) && forall c | Nests(d)(x, c) :: Sound(d, c) {
      forall y | Nested(d, x, y)
        ensures ResolvesAt(d, y)
        ensures forall z | Nests(d)(y, z) :: !Connected(Nests(d), z, y)
      {
        SoundBelow(d, x, y);
      }
    }
  }

  lemma SoundBelow(d: Diagram, x: OpsId, y: OpsId)
    requires ResolvesAt(d, x) && forall c | Nests(d)(x, c) :: Sound(d, c)
    requires Nested(d, x, y)
    ensures ResolvesAt(d, y)
    ensures forall z | Nests(d)(y, z) :: !Connected(Nests(d), z, y)
  {
    if x == y {
      forall z | Nests(d)(y, z) ensures !Connected(Nests(d), z, y) {
        EverywhereIsExact(d, z, Anything());
      }
    } else {
      var p :| WalkBetween(Nests(d), p, x, y);
      var c := p[1];
      assert Nests(d)(p[0], p[0 + 1]);
      EverywhereIsExact(d, c, Anything());
      WalkSlice(Nests(d), p, 1, |p|);
      assert WalkBetween(Nests(d), p[1..|p|], c, y);
      assert Nested(d, c, y);
    }
  }

  // ---------- Why the worklist gets empty ----------

  /** Scopes own their operations, so scopes within scopes come to an end: nesting can only go round
      in circles by way of a template. */
  ghost predicate ScopesEnd(d: Diagram, depth: OpsId -> nat) {
    forall x, e | e in Entries(d, x) && e.op.Scope? :: depth(e.op.ops) < depth(x)
  }

  /** What an error-free path costs, by the paths one level deeper. */
  lemma CostByChildren(d: Diagram, s: OperationStack)
    requires Everywhere(d, s, Anything())
    ensures Children(d, s).Ok?
    ensures var children := Children(d, s).value;
            && Cost(d, s) == 1 + TotalCost(d, children)
            && Nexts(children) == ChildIds(d, Entries(d, s.next))
            && forall c | c in children :: Rank(d, c) < Rank(d, s) && Everywhere(d, c, Anything())
  {
    var children := Children(d, s).value;
    forall c | c in children ensures Rank(d, c) < Rank(d, s) && Everywhere(d, c, Anything()) {
      ChildrenRankLower(d, s, c);
    }
    CostBelowIsTotal(d, children, Rank(d, s));
    ChildStacksNexts(d, s, Entries(d, s.next));
  }

  /** The cost of a sound map does not depend on the path on which it is met. */
  lemma {:induction false} SameCost(d: Diagram, s: OperationStack, t: OperationStack)
    requires s.next == t.next && Everywhere(d, s, Anything()) && Everywhere(d, t, Anything())
    ensures Cost(d, s) == Cost(d, t)
    decreases Rank(d, s), 1, 0
  {
    assert Cost(d, s) == 1 + TotalCost(d, Children(d, s).value) by {
      CostByChildren(d, s);
    }
    assert Cost(d, t) == 1 + TotalCost(d, Children(d, t).value) by {
      CostByChildren(d, t);
    }
    assert TotalCost(d, Children(d, s).value) == TotalCost(d, Children(d, t).value) by {
      CostByChildren(d, s);
      CostByChildren(d, t);
      SameTotalCost(d, Children(d, s).value, Children(d, t).value, Rank(d, s));
    }
  }

  lemma {:induction false} SameTotalCost(d: Diagram, a: seq<OperationStack>, b: seq<OperationStack>, bound: nat)
    requires Nexts(a) == Nexts(b)
    requires forall s | s in a :: Rank(d, s) < bound && Everywhere(d, s, Anything())
    requires forall s | s in b :: Everywhere(d, s, Anything())
    ensures TotalCost(d, a) == TotalCost(d, b)
    decreases bound, 0, |a|
  {
    if a != [] {
      var n := |a| - 1;
      assert Nexts(a)[..n] == Nexts(a[..n]) && Nexts(b)[..n] == Nexts(b[..n]);
      assert Nexts(a)[n] == a[n].next && Nexts(b)[n] == b[n].next;
      SameTotalCost(d, a[..n], b[..n], bound);
      SameCost(d, a[n], b[n]);
    } else {
      assert |Nexts(b)| == 0;
    }
  }

  /** How many maps the worklist will take up because of this one: one for each path, if the map is
      sound, and otherwise as far as the scopes go. */
  ghost function Work(d: Diagram, depth: OpsId -> nat, x: OpsId): nat
    decreases depth(x), 1, 0
  {
    if Sound(d, x) then Cost(d, Root(x)) else 1 + WorkBelow(d, depth, Entries(d, x), depth(x))
  }

  ghost function WorkBelow(d: Diagram, depth: OpsId -> nat, entries: seq<Entry>, bound: nat): nat
    decreases bound, 0, |entries|
  {
    if entries == [] then 0
    else
      (match entries[0].op
       case Plain => 0
       case Scope(ops) => if depth(ops) < bound then Work(d, depth, ops) else 0
       case Section(template) =>
         if template in d.templates then Cost(d, Root(d.templates[template])) else 0)
      + WorkBelow(d, depth, entries[1..], bound)
  }

  ghost function TotalWork(d: Diagram, depth: OpsId -> nat, ids: seq<OpsId>): nat {
    if ids == [] then 0 else Work(d, depth, ids[0]) + TotalWork(d, depth, ids[1..])
  }

  lemma {:induction false} TotalWorkConcat(d: Diagram, depth: OpsId -> nat, a: seq<OpsId>, b: seq<OpsId>)
    ensures TotalWork(d, depth, a + b) == TotalWork(d, depth, a) + TotalWork(d, depth, b)
  {
    if a == [] {
      assert a + b == b;
    } else {
      assert (a + b)[1..] == a[1..] + b;
      TotalWorkConcat(d, depth, a[1..], b);
    }
  }

  /** For a map that is not sound: its templates are by now known to be sound. */
  lemma {:induction false} WorkOfChildren(d: Diagram, depth: OpsId -> nat, entries: seq<Entry>, bound: nat)
    requires forall e | e in entries && e.op.Scope? :: depth(e.op.ops) < bound
    requires forall e | e in entries && e.op.Section? ::
               e.op.template in d.templates && Sound(d, d.templates[e.op.template])
    ensures TotalWork(d, depth, ChildIds(d, entries)) == WorkBelow(d, depth, entries, bound)
  {
    if entries != [] {
      assert entries[0] in entries && forall e | e in entries[1..] :: e in entries;
      WorkOfChildren(d, depth, entries[1..], bound);
      match entries[0].op {
        case Plain =>
        case Scope(ops) => assert ([ops] + ChildIds(d, entries[1..]))[1..] == ChildIds(d, entries[1..]);
        case Section(t) =>
          assert ([d.templates[t]] + ChildIds(d, entries[1..]))[1..] == ChildIds(d, entries[1..]);
      }
    }
  }

  lemma {:induction false} WorkOfSound(d: Diagram, depth: OpsId -> nat, stacks: seq<OperationStack>)
    requires forall s | s in stacks :: Everywhere(d, s, Anything()) && Sound(d, s.next)
    ensures TotalWork(d, depth, Nexts(stacks)) == TotalCost(d, stacks)
  {
    if stacks != [] {
      var n := |stacks| - 1;
      WorkOfSound(d, depth, stacks[..n]);
      TotalWorkConcat(d, depth, Nexts(stacks[..n]), [stacks[n].next]);
      assert stacks[n] in stacks;
      SameCost(d, stacks[n], Root(stacks[n].next));
      assert [stacks[n].next][1..] == [];
    }
  }

  lemma ChildrenAreSound(d: Diagram, x: OpsId)
    requires Sound(d, x)
    ensures Children(d, Root(x)).Ok?
    ensures forall s | s in Children(d, Root(x)).value :: Sound(d, s.next)
  {
    SoundIffChildren(d, x);
    forall s | s in Children(d, Root(x)).value ensures Sound(d, s.next) {
      ChildStacksAre(d, Root(x), Entries(d, x));
      var e :| e in Entries(d, x) && ChildOperations(d, e.op) == Ok(Some(s.next))
               && Root(x).Child(e.name, s.next) == Ok(s);
      assert NestsAs(d, x, e.name, s.next);
    }
  }

  /** Replacing a map by what it nests leaves less work. */
  lemma ExpandingIsLessWork(d: Diagram, depth: OpsId -> nat, x: OpsId)
    requires ScopesEnd(d, depth)
    requires forall e | e in Entries(d, x) && e.op.Section? ::
               e.op.template in d.templates && Sound(d, d.templates[e.op.template])
    ensures TotalWork(d, depth, ChildIds(d, Entries(d, x))) < Work(d, depth, x)
  {
    if Sound(d, x) {
      CostByChildren(d, Root(x));
      ChildrenAreSound(d, x);
      WorkOfSound(d, depth, Children(d, Root(x)).value);
    } else {
      WorkOfChildren(d, depth, Entries(d, x), depth(x));
    }
  }

  // ---------- The validation ----------

  /** The entry resolves and, if it is built from a template, the template is sound. */
  ghost predicate UsesSoundly(d: Diagram, e: Entry) {
    && ChildOperations(d, e.op).Ok?
    && (e.op.Section? ==> Sound(d, d.templates[e.op.template]))
  }

  method ValidateTemplate(d: Diagram, template: Name) returns (r: Result<(), DiagramError>)
    ensures r.Ok? <==> template in d.templates && Sound(d, d.templates[template])
    ensures r.Err? ==> if template in d.templates then Justified(d, d.templates[template], r.error)
                       else r.error == TemplateNotFound(template)
  {
    if template !in d.templates {
      return Err(TemplateNotFound(template));
    }
    EverywhereIsExact(d, d.templates[template], Anything());
    r := CheckCircularOperationDependency(d, d.templates[template]);
  }

  /** Something nested in the diagram is the reason for the error. */
  ghost predicate JustifiedSomewhere(d: Diagram, error: DiagramError) {
    exists x :: Nested(d, d.ops, x) && Justified(d, x, error)
  }

  lemma MissingIsJustified(d: Diagram, x: OpsId, e: Entry)
    requires Nested(d, d.ops, x) && e in Entries(d, x) && ChildOperations(d, e.op).Err?
    ensures JustifiedSomewhere(d, ChildOperations(d, e.op).error) && !Sound(d, x)
  {
    SoundIffChildren(d, x);
    ConnectedSelf(Nests(d), x);
    assert !ResolvesAt(d, x);
    assert IsEntry(d, x, e) && e.op == Section(ChildOperations(d, e.op).error.template);
    assert Justified(d, x, ChildOperations(d, e.op).error);
  }

  lemma TemplateIsNested(d: Diagram, x: OpsId, e: Entry)
    requires Nested(d, d.ops, x) && e in Entries(d, x) && ChildOperations(d, e.op).Ok?
    ensures ChildOperations(d, e.op).value.Some? ==>
              Nests(d)(x, ChildOperations(d, e.op).value.value)
              && Nested(d, d.ops, ChildOperations(d, e.op).value.value)
  {
    if ChildOperations(d, e.op).value.Some? {
      var child := ChildOperations(d, e.op).value.value;
      assert NestsAs(d, x, e.name, child);
      ConnectedByEdge(Nests(d), x, child);
      ConnectedJoin(Nests(d), d.ops, x, child);
    }
  }

  /** Look at every operation of one map: collect what it nests and validate the templates it uses. */
  method VisitUsage(d: Diagram, ops: OpsId) returns (r: Result<seq<OpsId>, DiagramError>)
    requires Nested(d, d.ops, ops)
    ensures r.Ok? ==> r.value == ChildIds(d, Entries(d, ops))
                      && forall e | e in Entries(d, ops) :: UsesSoundly(d, e)
    ensures r.Err? ==> !Sound(d, ops) && JustifiedSomewhere(d, r.error)
  {
    var entries := Entries(d, ops);
    var children: seq<OpsId> := [];
    var i := 0;
    assert entries[0..] == entries;
    while i < |entries|
      invariant i <= |entries|
      invariant ChildIds(d, entries) == children + ChildIds(d, entries[i..])
      invariant forall j | 0 <= j < i :: UsesSoundly(d, entries[j])
    {
      assert entries[i..][0] == entries[i] && entries[i..][1..] == entries[i + 1..];
      var childOps := ChildOperations(d, entries[i].op);
      if childOps.Err? {
        MissingIsJustified(d, ops, entries[i]);
        return Err(childOps.error);
      }
      TemplateIsNested(d, ops, entries[i]);
      if childOps.value.Some? {
        children := children + [childOps.value.value];
      }
      if entries[i].op.Section? {
        var valid := ValidateTemplate(d, entries[i].op.template);
        if valid.Err? {
          SoundIffChildren(d, ops);
          return Err(valid.error);
        }
      }
      i := i + 1;
    }
    assert ChildIds(d, entries) == children;
    return Ok(children);
  }

  lemma {:induction false} ChildIdsAre(d: Diagram, entries: seq<Entry>)
    ensures forall c :: c in ChildIds(d, entries) <==>
                          exists e :: e in entries && ChildOperations(d, e.op) == Ok(Some(c))
  {
    if entries != [] {
      ChildIdsAre(d, entries[1..]);
      assert entries == [entries[0]] + entries[1..];
    }
  }

  /** What was visited without error is sound exactly if all it nests is. */
  lemma ChildrenDecide(d: Diagram, x: OpsId)
    requires Nested(d, d.ops, x) && forall e | e in Entries(d, x) :: UsesSoundly(d, e)
    ensures Sound(d, x) <==> forall c | c in ChildIds(d, Entries(d, x)) :: Sound(d, c)
    ensures forall c | c in ChildIds(d, Entries(d, x)) :: Nested(d, d.ops, c)
  {
    SoundIffChildren(d, x);
    ChildIdsAre(d, Entries(d, x));
    forall c | c in ChildIds(d, Entries(d, x)) ensures Nests(d)(x, c) && Nested(d, d.ops, c) {
      var e :| e in Entries(d, x) && ChildOperations(d, e.op) == Ok(Some(c));
      TemplateIsNested(d, x, e);
    }
    forall c | Nests(d)(x, c) ensures c in ChildIds(d, Entries(d, x)) {
      var name :| NestsAs(d, x, name, c);
    }
  }

  ghost predicate AllNested(d: Diagram, ids: seq<OpsId>) {
    forall x | x in ids :: Nested(d, d.ops, x)
  }

  ghost predicate AllSound(d: Diagram, ids: seq<OpsId>) {
    forall x | x in ids :: Sound(d, x)
  }

  /** One turn of the worklist: nothing that has still to be decided is lost, and less work is left. */
  lemma TakeTurn(d: Diagram, depth: OpsId -> nat, rest: seq<OpsId>, x: OpsId)
    requires ScopesEnd(d, depth) && AllNested(d, rest + [x])
    requires forall e | e in Entries(d, x) :: UsesSoundly(d, e)
    ensures var next := rest + ChildIds(d, Entries(d, x));
            && AllNested(d, next) && (AllSound(d, rest + [x]) <==> AllSound(d, next))
            && TotalWork(d, depth, next) < TotalWork(d, depth, rest + [x])
  {
    assert x in rest + [x] && forall y | y in rest :: y in rest + [x];
    ChildrenDecide(d, x);
    WorkShrinks(d, depth, rest, x);
    var children := ChildIds(d, Entries(d, x));
    assert AllSound(d, rest + [x]) <==> AllSound(d, rest) && Sound(d, x);
    assert AllSound(d, rest + children) <==> AllSound(d, rest) && AllSound(d, children) by {
      assert forall y | y in children :: y in rest + children;
      assert forall y | y in rest :: y in rest + children;
    }
  }

  lemma WorkShrinks(d: Diagram, depth: OpsId -> nat, rest: seq<OpsId>, x: OpsId)
    requires ScopesEnd(d, depth) && forall e | e in Entries(d, x) :: UsesSoundly(d, e)
    ensures TotalWork(d, depth, rest + ChildIds(d, Entries(d, x))) < TotalWork(d, depth, rest + [x])
  {
    ExpandingIsLessWork(d, depth, x);
    TotalWorkConcat(d, depth, rest, ChildIds(d, Entries(d, x)));
    TotalWorkConcat(d, depth, rest, [x]);
    assert [x][1..] == [];
  }

  /** The validation accepts exactly what the nesting check accepts: no map is nested inside itself
      and every template that is used, however deep, exists. */
  method ValidateTemplateUsage(d: Diagram, ghost depth: OpsId -> nat) returns (r: Result<(), DiagramError>)
    requires ScopesEnd(d, depth)
    ensures r.Ok? <==> Acyclic(d, d.ops) && Resolves(d, d.ops)
    ensures r.Err? ==> JustifiedSomewhere(d, r.error)
  {
    EverywhereIsExact(d, d.ops, Anything());
    ConnectedSelf(Nests(d), d.ops);
    var allOps := [d.ops];
    while allOps != []
      invariant AllNested(d, allOps)
      invariant Sound(d, d.ops) <==> AllSound(d, allOps)
      decreases TotalWork(d, depth, allOps)
    {
      var ops := allOps[|allOps| - 1];
      SplitLast(allOps);
      var children := VisitUsage(d, ops);
      if children.Err? {
        return Err(children.error);
      }
      TakeTurn(d, depth, allOps[..|allOps| - 1], ops);
      allOps := allOps[..|allOps| - 1] + children.value;
    }
    return Ok(());
  }
}
