/** The check that operations are not nested inside themselves (src/diagram.rs). */
module Nesting {
  import opened Common

  type Name = string

  // A map of operations is identified by the place in memory it is shared at.
  type OpsId = Entity

  // What matters about an operation is what it nests: a scope has its own operations and a section
  // may be built from a template.
  datatype Operation = Plain | Scope(ops: OpsId) | Section(template: Name)

  datatype Entry = Entry(name: Name, op: Operation)

  // All operation maps there are, each in its iteration order, and where a diagram starts.
  datatype Diagram = Diagram(
    arena: map<OpsId, seq<Entry>>,
    templates: map<Name, OpsId>,
    ops: OpsId)

  datatype DiagramError =
    | CircularOperationDependency(names: seq<Name>)
    | TemplateNotFound(template: Name)
    | InvalidUseOfReservedName(name: Name)

  function Entries(d: Diagram, id: OpsId): seq<Entry> {
    if id in d.arena then d.arena[id] else []
  }

  function ChildOperations(d: Diagram, op: Operation): Result<Option<OpsId>, DiagramError> {
    match op
    case Plain => Ok(None)
    case Scope(ops) => Ok(Some(ops))
    case Section(template) =>
      if template in d.templates then Ok(Some(d.templates[template])) else Err(TemplateNotFound(template))
  }

  // A nesting path under investigation: the maps it went through, the names of the operations it
  // followed, and the map to look into next.
  datatype OperationStack = OperationStack(used: seq<OpsId>, names: seq<Name>, next: OpsId) {
    /** One level deeper. Note that the map being looked into is not yet among the used ones. */
    function Child(name: Name, child: OpsId): Result<OperationStack, DiagramError> {
      if child in used then Err(CircularOperationDependency(names + [name]))
      else Ok(OperationStack(used + [next], names + [name], child))
    }
  }

  function Root(ops: OpsId): OperationStack {
    OperationStack([ops], [], ops)
  }

  /** The start nesting itself is noticed at once. A map further down nesting itself gets past the
      comparison once and is noticed one level later. */
  lemma SelfNestingFoundLate(s: OperationStack, name: Name, ops: OpsId)
    requires s.next !in s.used
    ensures Root(ops).Child(name, ops) == Err(CircularOperationDependency([name]))
    ensures s.Child(name, s.next).Ok?
    ensures s.Child(name, s.next).value.Child(name, s.next)
         == Err(CircularOperationDependency(s.names + [name] + [name]))
  {
    assert [] + [name] == [name];
  }

  /** How much deeper a path can still get. It counts the maps not yet used, and half a level for a
      map that has been met twice without this having been noticed. */
  ghost function Rank(d: Diagram, s: OperationStack): nat {
    2 * |d.arena.Keys - Elements(s.used)| + if s.next in s.used then 1 else 0
  }

  lemma ChildRanksLower(d: Diagram, s: OperationStack, name: Name, child: OpsId)
    requires s.next in d.arena && s.Child(name, child).Ok?
    ensures Rank(d, s.Child(name, child).value) < Rank(d, s)
  {
    var c := s.Child(name, child).value;
    assert Elements(c.used) == Elements(s.used) + {s.next};
    if s.next in s.used {
      assert Elements(c.used) == Elements(s.used);
    } else {
      assert d.arena.Keys - Elements(s.used) == (d.arena.Keys - Elements(c.used)) + {s.next};
    }
  }

  /** The paths one level deeper, in iteration order, or the first error. */
  function ChildStacks(d: Diagram, s: OperationStack, entries: seq<Entry>)
    : (r: Result<seq<OperationStack>, DiagramError>)
  {
    if entries == [] then Ok([])
    else
      match ChildOperations(d, entries[0].op)
      case Err(e) => Err(e)
      case Ok(None) => ChildStacks(d, s, entries[1..])
      case Ok(Some(ops)) =>
        match s.Child(entries[0].name, ops)
        case Err(e) => Err(e)
        case Ok(child) =>
          match ChildStacks(d, s, entries[1..])
          case Err(e) => Err(e)
          case Ok(rest) => Ok([child] + rest)
  }

  function Children(d: Diagram, s: OperationStack): Result<seq<OperationStack>, DiagramError> {
    ChildStacks(d, s, Entries(d, s.next))
  }

  /** There is a child for every entry that nests something, and no other. */
  lemma {:induction false} ChildStacksAre(d: Diagram, s: OperationStack, entries: seq<Entry>)
    requires ChildStacks(d, s, entries).Ok?
    ensures forall e | e in entries ::
              var ops := ChildOperations(d, e.op);
              ops.Ok? && (ops.value.Some? ==>
                s.Child(e.name, ops.value.value).Ok?
                && s.Child(e.name, ops.value.value).value in ChildStacks(d, s, entries).value)
    ensures forall c | c in ChildStacks(d, s, entries).value ::
              exists e :: e in entries && ChildOperations(d, e.op) == Ok(Some(c.next))
                && s.Child(e.name, c.next) == Ok(c)
  {
    if entries != [] {
      ChildStacksAre(d, s, entries[1..]);
      assert entries == [entries[0]] + entries[1..];
    }
  }

  /** If every entry resolves and none leads back to a used map, there is no error. */
  lemma {:induction false} ChildStacksOk(d: Diagram, s: OperationStack, entries: seq<Entry>)
    requires forall e | e in entries ::
               var ops := ChildOperations(d, e.op);
               ops.Ok? && (ops.value.Some? ==> ops.value.value !in s.used)
    ensures ChildStacks(d, s, entries).Ok?
  {
    if entries != [] {
      assert entries[0] in entries;
      ChildStacksOk(d, s, entries[1..]);
    }
  }

  lemma ChildrenRankLower(d: Diagram, s: OperationStack, c: OperationStack)
    requires Children(d, s).Ok? && c in Children(d, s).value
    ensures Rank(d, c) < Rank(d, s)
  {
    ChildStacksAre(d, s, Entries(d, s.next));
    var e :| e in Entries(d, s.next) && ChildOperations(d, e.op) == Ok(Some(c.next))
             && s.Child(e.name, c.next) == Ok(c);
    ChildRanksLower(d, s, e.name, c.next);
  }

  /** Investigating the path, however deep, meets no error, and every map it meets is `ok`. */
  ghost predicate Everywhere(d: Diagram, s: OperationStack, ok: OpsId -> bool)
    decreases Rank(d, s)
  {
    && ok(s.next)
    && Children(d, s).Ok?
    && forall c | c in Children(d, s).value ::
         (ChildrenRankLower(d, s, c); Everywhere(d, c, ok))
  }

  // ---------- Why the worklist gets empty ----------

  /** The number of paths that investigating this one leads to. */
  ghost function Cost(d: Diagram, s: OperationStack): nat
    decreases Rank(d, s), 1, 0
  {
    match Children(d, s)
    case Err(_) => 1
    case Ok(children) =>
      (forall c | c in children ensures Rank(d, c) < Rank(d, s) { ChildrenRankLower(d, s, c); }
       1 + CostBelow(d, children, Rank(d, s)))
  }

  ghost function CostBelow(d: Diagram, stacks: seq<OperationStack>, bound: nat): nat
    requires forall s | s in stacks :: Rank(d, s) < bound
    decreases bound, 0, |stacks|
  {
    if stacks == [] then 0
    else CostBelow(d, stacks[..|stacks| - 1], bound) + Cost(d, stacks[|stacks| - 1])
  }

  ghost function TotalCost(d: Diagram, stacks: seq<OperationStack>): nat {
    if stacks == [] then 0
    else TotalCost(d, stacks[..|stacks| - 1]) + Cost(d, stacks[|stacks| - 1])
  }

  lemma {:induction false} CostBelowIsTotal(d: Diagram, stacks: seq<OperationStack>, bound: nat)
    requires forall s | s in stacks :: Rank(d, s) < bound
    ensures CostBelow(d, stacks, bound) == TotalCost(d, stacks)
  {
    if stacks != [] {
      CostBelowIsTotal(d, stacks[..|stacks| - 1], bound);
    }
  }

  lemma {:induction false} TotalCostConcat(d: Diagram, a: seq<OperationStack>, b: seq<OperationStack>)
    ensures TotalCost(d, a + b) == TotalCost(d, a) + TotalCost(d, b)
  {
    if b == [] {
      assert a + b == a;
    } else {
      var n := |b| - 1;
      assert (a + b)[..|a + b| - 1] == a + b[..n];
      TotalCostConcat(d, a, b[..n]);
    }
  }

  /** Replacing a path by its children makes the worklist cheaper. */
  lemma ExpandingIsCheaper(d: Diagram, queue: seq<OperationStack>, top: OperationStack)
    requires Children(d, top).Ok?
    ensures TotalCost(d, queue + Children(d, top).value) < TotalCost(d, queue + [top])
  {
    var children := Children(d, top).value;
    forall c | c in children ensures Rank(d, c) < Rank(d, top) {
      ChildrenRankLower(d, top, c);
    }
    CostBelowIsTotal(d, children, Rank(d, top));
    TotalCostConcat(d, queue, children);
    TotalCostConcat(d, queue, [top]);
    assert [top][..0] == [];
  }
}
