/** The nesting check and the validation of operation names (src/diagram.rs): what they accept,
    what their errors mean, and that they terminate. */
module NestingCheck {
  import opened Common
  import opened Nesting
  import opened Paths

  // ---------- What is being checked ----------

  predicate IsEntry(d: Diagram, x: OpsId, e: Entry) {
    x in d.arena && e in d.arena[x]
  }

  /** A scope nests its own operations, and a section those of the template that it is built from. */
  predicate OperationNests(d: Diagram, op: Operation, y: OpsId) {
    match op
    case Plain => false
    case Scope(ops) => ops == y
    case Section(template) => template in d.templates && d.templates[template] == y
  }

  predicate TemplateMissing(d: Diagram, op: Operation) {
    op.Section? && op.template !in d.templates
  }

  /** What the lookup of child operations comes to. */
  lemma ChildOperationsAre(d: Diagram, op: Operation)
    ensures forall y: OpsId :: ChildOperations(d, op) == Ok(Some(y)) <==> OperationNests(d, op, y)
    ensures ChildOperations(d, op).Err? <==> TemplateMissing(d, op)
    ensures ChildOperations(d, op).Err? ==> ChildOperations(d, op).error == TemplateNotFound(op.template)
  {
  }

  /** An operation called `name` in the map x nests the map y. */
  ghost predicate NestsAs(d: Diagram, x: OpsId, name: Name, y: OpsId) {
    exists e :: IsEntry(d, x, e) && e.name == name && OperationNests(d, e.op, y)
  }

  ghost predicate NestedIn(d: Diagram, x: OpsId, y: OpsId) {
    exists name :: NestsAs(d, x, name, y)
  }

  ghost function Nests(d: Diagram): Edges {
    (x: OpsId, y: OpsId) => NestedIn(d, x, y)
  }

  ghost predicate Nested(d: Diagram, start: OpsId, x: OpsId) {
    Connected(Nests(d), start, x)
  }

  /** No operation map nested in `start` is nested inside itself. */
  ghost predicate Acyclic(d: Diagram, start: OpsId) {
    forall x: OpsId, y: OpsId | Nested(d, start, x) && Nests(d)(x, y) :: !Connected(Nests(d), y, x)
  }

  ghost predicate ResolvesAt(d: Diagram, x: OpsId) {
    forall e | IsEntry(d, x, e) :: !TemplateMissing(d, e.op)
  }

  /** Every template used by anything nested in `start` exists. */
  ghost predicate Resolves(d: Diagram, start: OpsId) {
    forall x | Nested(d, start, x) :: ResolvesAt(d, x)
  }

  ghost predicate OkThroughout(d: Diagram, start: OpsId, ok: OpsId -> bool) {
    forall x | Nested(d, start, x) :: ok(x)
  }

  ghost function Anything(): OpsId -> bool {
    (x: OpsId) => true
  }

  // ---------- Paths and the stacks that represent them ----------

  /** `names` leads from map to map along `ids`. */
  ghost predicate NamedPath(d: Diagram, names: seq<Name>, ids: seq<OpsId>) {
    && |ids| == |names| + 1
    && forall i | 0 <= i < |names| :: NestsAs(d, ids[i], names[i], ids[i + 1])
  }

  /** The stack has followed its names along `ids` and remembers all of them but the last. */
  ghost predicate Traces(d: Diagram, start: OpsId, s: OperationStack, ids: seq<OpsId>) {
    && NamedPath(d, s.names, ids) && ids[0] == start && ids[|ids| - 1] == s.next
    && s.used == [start] + ids[..|ids| - 1]
  }

  ghost predicate Traced(d: Diagram, start: OpsId, s: OperationStack) {
    exists ids :: Traces(d, start, s, ids)
  }

  lemma RootTraced(d: Diagram, start: OpsId)
    ensures Traced(d, start, Root(start))
  {
    assert Traces(d, start, Root(start), [start]);
  }

  lemma NamedPathExtends(d: Diagram, names: seq<Name>, ids: seq<OpsId>, name: Name, child: OpsId)
    requires NamedPath(d, names, ids) && NestsAs(d, ids[|ids| - 1], name, child)
    ensures NamedPath(d, names + [name], ids + [child])
  {
    var names', ids' := names + [name], ids + [child];
    forall i | 0 <= i < |names'| ensures NestsAs(d, ids'[i], names'[i], ids'[i + 1]) {
      if i < |names| {
        assert NestsAs(d, ids[i], names[i], ids[i + 1]);
      }
    }
  }

  lemma NamedPathIsWalk(d: Diagram, names: seq<Name>, ids: seq<OpsId>)
    requires NamedPath(d, names, ids)
    ensures Walk(Nests(d), ids)
  {
    forall i | 0 <= i < |ids| - 1 ensures Nests(d)(ids[i], ids[i + 1]) {
      assert NestsAs(d, ids[i], names[i], ids[i + 1]);
    }
  }

  lemma TraceExtends(d: Diagram, start: OpsId, s: OperationStack, ids: seq<OpsId>, name: Name, child: OpsId)
    requires Traces(d, start, s, ids) && NestsAs(d, s.next, name, child)
    ensures NamedPath(d, s.names + [name], ids + [child])
    ensures s.Child(name, child).Ok? ==> Traces(d, start, s.Child(name, child).value, ids + [child])
    ensures child in s.used ==> child in ids
  {
    NamedPathExtends(d, s.names, ids, name, child);
    var ids' := ids + [child];
    assert ids'[..|ids'| - 1] == ids && ids[..|ids| - 1] + [s.next] == ids;
  }

  lemma ChildTraced(d: Diagram, start: OpsId, s: OperationStack, c: OperationStack)
    requires Traced(d, start, s) && Children(d, s).Ok? && c in Children(d, s).value
    ensures Traced(d, start, c)
  {
    ChildStacksAre(d, s, Entries(d, s.next));
    var e :| e in Entries(d, s.next) && ChildOperations(d, e.op) == Ok(Some(c.next))
             && s.Child(e.name, c.next) == Ok(c);
    assert NestsAs(d, s.next, e.name, c.next);
    var ids :| Traces(d, start, s, ids);
    TraceExtends(d, start, s, ids, e.name, c.next);
  }

  lemma TracedIsNested(d: Diagram, start: OpsId, s: OperationStack)
    requires Traced(d, start, s)
    ensures Nested(d, start, s.next)
  {
    var ids :| Traces(d, start, s, ids);
    NamedPathIsWalk(d, s.names, ids);
    assert WalkBetween(Nests(d), ids, start, s.next);
  }

  // ---------- What an error means ----------

  /** The names are those of a real nesting path from `start` whose last map was already on it. */
  ghost predicate ClosesCycle(d: Diagram, start: OpsId, names: seq<Name>) {
    exists ids :: NamedPath(d, names, ids) && ids[0] == start && ids[|ids| - 1] in ids[..|ids| - 1]
  }

  /** Something nested in `start` is built from the template. */
  ghost predicate UsesTemplate(d: Diagram, start: OpsId, template: Name) {
    exists x, e :: Nested(d, start, x) && IsEntry(d, x, e) && e.op == Section(template)
  }

  ghost predicate Justified(d: Diagram, start: OpsId, error: DiagramError) {
    match error
    case CircularOperationDependency(names) => ClosesCycle(d, start, names)
    case TemplateNotFound(template) => template !in d.templates && UsesTemplate(d, start, template)
    case InvalidUseOfReservedName(_) => false
  }

  lemma CycleJustified(d: Diagram, start: OpsId, s: OperationStack, e: Entry, child: OpsId)
    requires Traced(d, start, s) && e in Entries(d, s.next) && ChildOperations(d, e.op) == Ok(Some(child))
    requires child in s.used
    ensures ClosesCycle(d, start, s.names + [e.name])
  {
    assert NestsAs(d, s.next, e.name, child);
    var ids :| Traces(d, start, s, ids);
    TraceExtends(d, start, s, ids, e.name, child);
    var ids' := ids + [child];
    assert ids'[..|ids'| - 1] == ids && ids'[0] == start;
  }

  lemma {:induction false} ChildErrorJustified(d: Diagram, start: OpsId, s: OperationStack, entries: seq<Entry>)
    requires Traced(d, start, s) && ChildStacks(d, s, entries).Err?
    requires forall e | e in entries :: e in Entries(d, s.next)
    ensures Justified(d, start, ChildStacks(d, s, entries).error)
  {
    var e := entries[0];
    var ops := ChildOperations(d, e.op);
    assert e in Entries(d, s.next);
    if ops.Err? {
      TracedIsNested(d, start, s);
      assert e.op == Section(ops.error.template);
    } else if ops.value.Some? && ops.value.value in s.used {
      CycleJustified(d, start, s, e, ops.value.value);
    } else {
      ChildErrorJustified(d, start, s, entries[1..]);
    }
  }

  // ---------- Exactness ----------

  /** A path that does not run into a cycle is investigated without error, at any depth. */
  lemma {:induction false} FineEverywhere(d: Diagram, start: OpsId, s: OperationStack, ok: OpsId -> bool)
    requires Traced(d, start, s) && Acyclic(d, start) && Resolves(d, start) && OkThroughout(d, start, ok)
    ensures Everywhere(d, s, ok)
    decreases Rank(d, s)
  {
    TracedIsNested(d, start, s);
    assert ResolvesAt(d, s.next);
    forall e | e in Entries(d, s.next)
      ensures ChildOperations(d, e.op).value.Some? ==> ChildOperations(d, e.op).value.value !in s.used
    {
      if ChildOperations(d, e.op).value.Some? {
        var child := ChildOperations(d, e.op).value.value;
        assert NestsAs(d, s.next, e.name, child);
        UsedMapsLeadHere(d, start, s, child);
      }
    }
    ChildStacksOk(d, s, Entries(d, s.next));
    forall c | c in Children(d, s).value ensures Rank(d, c) < Rank(d, s) && Everywhere(d, c, ok) {
      ChildrenRankLower(d, s, c);
      ChildTraced(d, start, s, c);
      FineEverywhere(d, start, c, ok);
    }
  }

  lemma UsedMapsLeadHere(d: Diagram, start: OpsId, s: OperationStack, x: OpsId)
    requires Traced(d, start, s)
    ensures x in s.used ==> Connected(Nests(d), x, s.next)
  {
    var ids :| Traces(d, start, s, ids);
    NamedPathIsWalk(d, s.names, ids);
    if x in s.used {
      assert x in ids;
      var j :| 0 <= j < |ids| && ids[j] == x;
      var q := ids[j..];
      WalkSlice(Nests(d), ids, j, |ids|);
      assert q == ids[j..|ids|];
      assert WalkBetween(Nests(d), q, x, s.next);
    }
  }

  lemma StackBelow(d: Diagram, above: OperationStack, ok: OpsId -> bool, child: OpsId)
    returns (s: OperationStack)
    requires Everywhere(d, above, ok) && Nests(d)(above.next, child)
    ensures Everywhere(d, s, ok) && s.next == child && Rank(d, s) < Rank(d, above)
  {
    var name :| NestsAs(d, above.next, name, child);
    var e :| e in Entries(d, above.next) && e.name == name && ChildOperations(d, e.op) == Ok(Some(child));
    ChildStacksAre(d, above, Entries(d, above.next));
    s := above.Child(e.name, child).value;
    ChildrenRankLower(d, above, s);
  }

  /** Along every nesting path lies a stack that was investigated without error, ranking lower with
      every step. */
  lemma {:induction false} StackAlong(d: Diagram, root: OperationStack, ok: OpsId -> bool, p: seq<OpsId>)
    returns (s: OperationStack)
    requires Everywhere(d, root, ok) && Walk(Nests(d), p) && p[0] == root.next
    ensures Everywhere(d, s, ok) && s.next == p[|p| - 1] && Rank(d, s) + |p| <= Rank(d, root) + 1
    decreases |p|
  {
    if |p| == 1 {
      s := root;
    } else {
      var n := |p| - 1;
      WalkSlice(Nests(d), p, 0, n);
      assert p[0..n] == p[..n];
      var above := StackAlong(d, root, ok, p[..n]);
      assert Nests(d)(p[n - 1], p[n - 1 + 1]);
      s := StackBelow(d, above, ok, p[n]);
    }
  }

  /** Going around a cycle makes a path as long as one likes. */
  lemma {:induction false} PathsAroundCycle(edge: Edges, start: OpsId, x: OpsId, loop: seq<OpsId>, n: nat)
    returns (p: seq<OpsId>)
    requires Connected(edge, start, x) && WalkBetween(edge, loop, x, x) && |loop| > 1
    ensures WalkBetween(edge, p, start, x) && |p| > n
  {
    if n == 0 {
      p :| WalkBetween(edge, p, start, x);
    } else {
      var q := PathsAroundCycle(edge, start, x, loop, n - 1);
      WalkJoin(edge, q, loop, start, x, x);
      p := q + loop[1..];
    }
  }

  lemma NoErrorMeansAcyclic(d: Diagram, start: OpsId, ok: OpsId -> bool)
    requires Everywhere(d, Root(start), ok)
    ensures Acyclic(d, start)
  {
    forall x: OpsId, y: OpsId | Nested(d, start, x) && Nests(d)(x, y) ensures !Connected(Nests(d), y, x) {
      if Connected(Nests(d), y, x) {
        var q :| WalkBetween(Nests(d), q, y, x);
        assert WalkBetween(Nests(d), [x, y], x, y);
        WalkJoin(Nests(d), [x, y], q, x, y, x);
        var loop := [x, y] + q[1..];
        var p := PathsAroundCycle(Nests(d), start, x, loop, Rank(d, Root(start)) + 1);
        var s := StackAlong(d, Root(start), ok, p);
        assert false;
      }
    }
  }

  /** The investigation from `start` is free of errors exactly if nesting is acyclic, every template
      resolves, and everything nested is `ok`. */
  lemma EverywhereIsExact(d: Diagram, start: OpsId, ok: OpsId -> bool)
    ensures Everywhere(d, Root(start), ok) <==>
              Acyclic(d, start) && Resolves(d, start) && OkThroughout(d, start, ok)
  {
    if Everywhere(d, Root(start), ok) {
      NoErrorMeansAcyclic(d, start, ok);
      forall x | Nested(d, start, x) ensures ResolvesAt(d, x) && ok(x) {
        var p :| WalkBetween(Nests(d), p, start, x);
        var s := StackAlong(d, Root(start), ok, p);
        ChildStacksAre(d, s, Entries(d, x));
      }
    }
    if Acyclic(d, start) && Resolves(d, start) && OkThroughout(d, start, ok) {
      RootTraced(d, start);
      FineEverywhere(d, start, Root(start), ok);
    }
  }

  // ---------- The checks themselves ----------

  function Prepend(stacks: seq<OperationStack>, r: Result<seq<OperationStack>, DiagramError>)
    : Result<seq<OperationStack>, DiagramError>
  {
    match r
    case Ok(rest) => Ok(stacks + rest)
    case Err(e) => Err(e)
  }

  lemma PrependOne(stacks: seq<OperationStack>, s: OperationStack, r: Result<seq<OperationStack>, DiagramError>)
    ensures Prepend(stacks, Prepend([s], r)) == Prepend(stacks + [s], r)
  {
    if r.Ok? {
      assert stacks + ([s] + r.value) == stacks + [s] + r.value;
    }
  }

  /** The stacks one level below this one, collected operation by operation. */
  method CollectChildren(d: Diagram, s: OperationStack) returns (r: Result<seq<OperationStack>, DiagramError>)
    ensures r == Children(d, s)
  {
    var entries := Entries(d, s.next);
    var children: seq<OperationStack> := [];
    var i := 0;
    assert entries[0..] == entries;
    assert Children(d, s) == Prepend([], Children(d, s)) by {
      if Children(d, s).Ok? {
        assert [] + Children(d, s).value == Children(d, s).value;
      }
    }
    while i < |entries|
      invariant i <= |entries|
      invariant Children(d, s) == Prepend(children, ChildStacks(d, s, entries[i..]))
    {
      assert entries[i..][0] == entries[i] && entries[i..][1..] == entries[i + 1..];
      var childOps := ChildOperations(d, entries[i].op);
      if childOps.Err? {
        return Err(childOps.error);
      }
      if childOps.value.Some? {
        var child := s.Child(entries[i].name, childOps.value.value);
        if child.Err? {
          return Err(child.error);
        }
        PrependOne(children, child.value, ChildStacks(d, s, entries[i + 1..]));
        children := children + [child.value];
      }
      i := i + 1;
    }
    assert children + [] == children;
    return Ok(children);
  }

  ghost predicate AllTraced(d: Diagram, start: OpsId, stacks: seq<OperationStack>) {
    forall s | s in stacks :: Traced(d, start, s)
  }

  ghost predicate AllEverywhere(d: Diagram, stacks: seq<OperationStack>, ok: OpsId -> bool) {
    stacks == [] ||
    (AllEverywhere(d, stacks[..|stacks| - 1], ok) && Everywhere(d, stacks[|stacks| - 1], ok))
  }

  lemma {:induction false} AllEverywhereMeans(d: Diagram, stacks: seq<OperationStack>, ok: OpsId -> bool)
    ensures AllEverywhere(d, stacks, ok) <==> forall s | s in stacks :: Everywhere(d, s, ok)
  {
    if stacks != [] {
      var n := |stacks| - 1;
      AllEverywhereMeans(d, stacks[..n], ok);
      assert stacks[n] in stacks && forall s | s in stacks[..n] :: s in stacks;
      if AllEverywhere(d, stacks, ok) {
        forall s | s in stacks ensures Everywhere(d, s, ok) {
          assert s in stacks[..n] || s == stacks[n];
        }
      }
    }
  }

  lemma {:induction false} AllEverywhereConcat(d: Diagram, a: seq<OperationStack>, b: seq<OperationStack>,
                                               ok: OpsId -> bool)
    ensures AllEverywhere(d, a + b, ok) <==> AllEverywhere(d, a, ok) && AllEverywhere(d, b, ok)
  {
    if b == [] {
      assert a + b == a;
    } else {
      var n := |b| - 1;
      assert (a + b)[..|a + b| - 1] == a + b[..n];
      AllEverywhereConcat(d, a, b[..n], ok);
    }
  }

  lemma ExpandTraced(d: Diagram, start: OpsId, rest: seq<OperationStack>, top: OperationStack)
    requires AllTraced(d, start, rest + [top]) && Children(d, top).Ok?
    ensures AllTraced(d, start, rest + Children(d, top).value)
  {
    assert top in rest + [top];
    forall s | s in rest + Children(d, top).value ensures Traced(d, start, s) {
      if s in rest {
        assert s in rest + [top];
      } else {
        ChildTraced(d, start, top, s);
      }
    }
  }

  /** Replacing a stack by its children loses nothing that has still to be checked. */
  lemma ExpandEverywhere(d: Diagram, rest: seq<OperationStack>, top: OperationStack, ok: OpsId -> bool)
    requires Children(d, top).Ok?
    ensures AllEverywhere(d, rest + [top], ok) <==>
              ok(top.next) && AllEverywhere(d, rest + Children(d, top).value, ok)
  {
    AllEverywhereConcat(d, rest, Children(d, top).value, ok);
    AllEverywhereMeans(d, Children(d, top).value, ok);
    assert (rest + [top])[..|rest|] == rest;
  }

  method CheckCircularOperationDependency(d: Diagram, startFrom: OpsId) returns (r: Result<(), DiagramError>)
    ensures r.Ok? <==> Acyclic(d, startFrom) && Resolves(d, startFrom)
    ensures r.Err? ==> Justified(d, startFrom, r.error)
  {
    RootTraced(d, startFrom);
    EverywhereIsExact(d, startFrom, Anything());
    var queue := [Root(startFrom)];
    while queue != []
      invariant AllTraced(d, startFrom, queue)
      invariant Everywhere(d, Root(startFrom), Anything()) <==> AllEverywhere(d, queue, Anything())
      decreases TotalCost(d, queue)
    {
      var top := queue[|queue| - 1];
      assert queue == queue[..|queue| - 1] + [top];
      queue := queue[..|queue| - 1];
      var children := CollectChildren(d, top);
      if children.Err? {
        assert (queue + [top])[..|queue|] == queue && !Everywhere(d, top, Anything());
        ChildErrorJustified(d, startFrom, top, Entries(d, top.next));
        return Err(children.error);
      }
      ExpandingIsCheaper(d, queue, top);
      ExpandTraced(d, startFrom, queue, top);
      ExpandEverywhere(d, queue, top, Anything());
      queue := queue + children.value;
    }
    return Ok(());
  }

  const RESERVED_OPERATION_NAMES: seq<Name> := ["", "builtin"]

  /** The names that operations and templates must not have. */
  predicate IsReserved(name: Name) {
    name == "" || name == "builtin"
  }

  lemma ReservedNames(name: Name)
    ensures name in RESERVED_OPERATION_NAMES <==> IsReserved(name)
  {
    assert RESERVED_OPERATION_NAMES[0] == "" && RESERVED_OPERATION_NAMES[1] == "builtin";
  }

  predicate NamesOkIn(entries: seq<Entry>) {
    forall e | e in entries :: !IsReserved(e.name)
  }

  function NamesOk(d: Diagram): OpsId -> bool {
    (x: OpsId) => x in d.arena ==> NamesOkIn(d.arena[x])
  }

  method ValidateOperationName(name: Name) returns (r: Result<(), DiagramError>)
    ensures r == if IsReserved(name) then Err(InvalidUseOfReservedName(name)) else Ok(())
  {
    var i := 0;
    while i < |RESERVED_OPERATION_NAMES|
      invariant i <= |RESERVED_OPERATION_NAMES|
      invariant name !in RESERVED_OPERATION_NAMES[..i]
    {
      if name == RESERVED_OPERATION_NAMES[i] {
        ReservedNames(name);
        return Err(InvalidUseOfReservedName(RESERVED_OPERATION_NAMES[i]));
      }
      i := i + 1;
    }
    ReservedNames(name);
    return Ok(());
  }

  method ValidateNamesIn(entries: seq<Entry>) returns (r: Result<(), DiagramError>)
    ensures r.Ok? <==> NamesOkIn(entries)
  {
    var i := 0;
    while i < |entries|
      invariant i <= |entries|
      invariant NamesOkIn(entries[..i])
    {
      r := ValidateOperationName(entries[i].name);
      if r.Err? {
        assert entries[i] in entries;
        return;
      }
      i := i + 1;
    }
    assert entries[..i] == entries;
    return Ok(());
  }

  /** No reserved name is used for a template or directly inside one. */
  ghost predicate TemplateNamesOk(d: Diagram) {
    forall t | t in d.templates :: !IsReserved(t) && NamesOk(d)(d.templates[t])
  }

  method ValidateTemplateNames(d: Diagram) returns (r: Result<(), DiagramError>)
    ensures r.Ok? <==> TemplateNamesOk(d)
  {
    var remaining := d.templates.Keys;
    while remaining != {}
      invariant remaining <= d.templates.Keys
      invariant forall t | t in d.templates.Keys - remaining ::
                  !IsReserved(t) && NamesOk(d)(d.templates[t])
      decreases |remaining|
    {
      var t :| t in remaining;
      r := ValidateOperationName(t);
      if r.Err? {
        return;
      }
      r := ValidateNamesIn(Entries(d, d.templates[t]));
      if r.Err? {
        return;
      }
      remaining := remaining - {t};
    }
    return Ok(());
  }

  function Nexts(stacks: seq<OperationStack>): (r: seq<OpsId>)
    ensures |r| == |stacks|
  {
    if stacks == [] then [] else Nexts(stacks[..|stacks| - 1]) + [stacks[|stacks| - 1].next]
  }

  lemma {:induction false} NextsConcat(a: seq<OperationStack>, b: seq<OperationStack>)
    ensures Nexts(a + b) == Nexts(a) + Nexts(b)
  {
    if b == [] {
      assert a + b == a;
    } else {
      var n := |b| - 1;
      assert (a + b)[..|a + b| - 1] == a + b[..n];
      NextsConcat(a, b[..n]);
    }
  }

  function ChildIds(d: Diagram, entries: seq<Entry>): seq<OpsId> {
    if entries == [] then []
    else
      match ChildOperations(d, entries[0].op)
      case Ok(Some(ops)) => [ops] + ChildIds(d, entries[1..])
      case _ => ChildIds(d, entries[1..])
  }

  lemma {:induction false} ChildStacksNexts(d: Diagram, s: OperationStack, entries: seq<Entry>)
    requires ChildStacks(d, s, entries).Ok?
    ensures Nexts(ChildStacks(d, s, entries).value) == ChildIds(d, entries)
    ensures forall e | e in entries :: ChildOperations(d, e.op).Ok?
  {
    if entries != [] {
      ChildStacksNexts(d, s, entries[1..]);
      if ChildOperations(d, entries[0].op).value.Some? {
        var c := s.Child(entries[0].name, ChildOperations(d, entries[0].op).value.value).value;
        NextsConcat([c], ChildStacks(d, s, entries[1..]).value);
        assert [c][..0] == [];
      }
      assert entries == [entries[0]] + entries[1..];
    }
  }

  /** The maps nested directly in a map, in iteration order. */
  method CollectChildOperations(d: Diagram, ops: OpsId) returns (r: Result<seq<OpsId>, DiagramError>)
    ensures ResolvesAt(d, ops) ==> r == Ok(ChildIds(d, Entries(d, ops)))
  {
    var entries := Entries(d, ops);
    var children: seq<OpsId> := [];
    var i := 0;
    assert entries[0..] == entries;
    while i < |entries|
      invariant i <= |entries|
      invariant ChildIds(d, entries) == children + ChildIds(d, entries[i..])
    {
      assert entries[i..][0] == entries[i] && entries[i..][1..] == entries[i + 1..];
      var childOps := ChildOperations(d, entries[i].op);
      if childOps.Err? {
        assert entries[i] in entries;
        return Err(childOps.error);
      }
      if childOps.value.Some? {
        children := children + [childOps.value.value];
      }
      i := i + 1;
    }
    assert ChildIds(d, entries) == children;
    return Ok(children);
  }

  /** One turn of the worklist, seen on the stacks behind the maps it holds. */
  lemma ExpandNames(d: Diagram, rest: seq<OperationStack>, top: OperationStack)
    requires AllEverywhere(d, rest + [top], Anything())
    ensures Children(d, top).Ok? && ResolvesAt(d, top.next)
    ensures var next := rest + Children(d, top).value;
            && AllEverywhere(d, next, Anything())
            && TotalCost(d, next) < TotalCost(d, rest + [top])
            && Nexts(next) == Nexts(rest) + ChildIds(d, Entries(d, top.next))
  {
    assert Everywhere(d, top, Anything());
    ChildStacksNexts(d, top, Entries(d, top.next));
    NextsConcat(rest, Children(d, top).value);
    ExpandingIsCheaper(d, rest, top);
    ExpandEverywhere(d, rest, top, Anything());
  }

  /** The worklist after its last stack has made way for what that nests. */
  ghost function Expanded(d: Diagram, stacks: seq<OperationStack>): seq<OperationStack>
    requires stacks != [] && Children(d, stacks[|stacks| - 1]).Ok?
  {
    stacks[..|stacks| - 1] + Children(d, stacks[|stacks| - 1]).value
  }

  /** One turn of the loop over the worklist. */
  lemma NamesTurn(d: Diagram, stacks: seq<OperationStack>)
    requires stacks != [] && AllEverywhere(d, stacks, Anything())
    ensures var top := stacks[|stacks| - 1];
            && Children(d, top).Ok? && ResolvesAt(d, top.next)
            && AllEverywhere(d, Expanded(d, stacks), Anything())
            && TotalCost(d, Expanded(d, stacks)) < TotalCost(d, stacks)
            && Nexts(Expanded(d, stacks)) == Nexts(stacks)[..|stacks| - 1] + ChildIds(d, Entries(d, top.next))
            && (AllEverywhere(d, stacks, NamesOk(d)) <==>
                  NamesOk(d)(top.next) && AllEverywhere(d, Expanded(d, stacks), NamesOk(d)))
  {
    var top, rest := stacks[|stacks| - 1], stacks[..|stacks| - 1];
    SplitLast(stacks);
    ExpandNames(d, rest, top);
    ExpandEverywhere(d, rest, top, NamesOk(d));
    assert Nexts(rest) == Nexts(stacks)[..|stacks| - 1];
  }

  /** Look at one operation map: what it nests, and whether its names are valid. */
  method VisitNested(d: Diagram, ops: OpsId) returns (r: Result<seq<OpsId>, DiagramError>)
    requires ResolvesAt(d, ops)
    ensures r.Ok? <==> NamesOk(d)(ops)
    ensures r.Ok? ==> r.value == ChildIds(d, Entries(d, ops))
  {
    r := CollectChildOperations(d, ops);
    var valid := ValidateNamesIn(Entries(d, ops));
    if valid.Err? {
      r := Err(valid.error);
    }
  }

  /** The worklist of the name validation keeps no track of what it has seen. It terminates because
      nesting is known to be acyclic by then. */
  method ValidateNestedNames(d: Diagram) returns (r: Result<(), DiagramError>)
    requires Everywhere(d, Root(d.ops), Anything())
    ensures r.Ok? <==> Everywhere(d, Root(d.ops), NamesOk(d))
  {
    var allOps := [d.ops];
    ghost var stacks := [Root(d.ops)];
    while allOps != []
      invariant Nexts(stacks) == allOps && AllEverywhere(d, stacks, Anything())
      invariant Everywhere(d, Root(d.ops), NamesOk(d)) <==> AllEverywhere(d, stacks, NamesOk(d))
      decreases TotalCost(d, stacks)
    {
      NamesTurn(d, stacks);
      stacks := Expanded(d, stacks);
      var children := VisitNested(d, allOps[|allOps| - 1]);
      if children.Err? {
        return Err(children.error);
      }
      allOps := allOps[..|allOps| - 1] + children.value;
    }
    return Ok(());
  }

  method ValidateOperationNames(d: Diagram) returns (r: Result<(), DiagramError>)
    ensures r.Ok? <==>
              && Acyclic(d, d.ops) && Resolves(d, d.ops)
              && OkThroughout(d, d.ops, NamesOk(d))
              && TemplateNamesOk(d)
  {
    r := CheckCircularOperationDependency(d, d.ops);
    if r.Err? {
      return;
    }
    EverywhereIsExact(d, d.ops, Anything());
    EverywhereIsExact(d, d.ops, NamesOk(d));
    r := ValidateNestedNames(d);
    if r.Err? {
      return;
    }
    r := ValidateTemplateNames(d);
  }
}
