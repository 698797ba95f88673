/** The session hierarchy (src/session.rs, src/trace.rs): each session may have one parent. */
module Sessions {
  import opened Common

  // The parent of every session that has one.
  type Hierarchy = map<Entity, Entity>

  /** The n-th ancestor of a session, itself at n == 0. */
  function Ancestor(h: Hierarchy, session: Entity, n: nat): Option<Entity>
    decreases n
  {
    if n == 0 then Some(session)
    else if session in h then Ancestor(h, h[session], n - 1)
    else None
  }

  /** `session` lives anywhere inside `parent`, itself included. */
  ghost predicate IsDescendent(h: Hierarchy, parent: Entity, session: Entity) {
    exists n: nat :: Ancestor(h, session, n) == Some(parent)
  }

  /** No session is its own proper ancestor. */
  ghost predicate Acyclic(h: Hierarchy) {
    forall s: Entity, n: nat :: n > 0 ==> Ancestor(h, s, n) != Some(s)
  }

  lemma {:induction false} AncestorAdd(h: Hierarchy, session: Entity, m: nat, n: nat)
    requires Ancestor(h, session, m).Some?
    ensures Ancestor(h, session, m + n) == Ancestor(h, Ancestor(h, session, m).value, n)
    decreases m
  {
    if m > 0 {
      AncestorAdd(h, h[session], m - 1, n);
    }
  }

  /** One more step up the hierarchy. */
  lemma AncestorNext(h: Hierarchy, session: Entity, n: nat)
    requires Ancestor(h, session, n).Some?
    ensures var a := Ancestor(h, session, n).value;
            Ancestor(h, session, n + 1) == if a in h then Some(h[a]) else None
  {
    AncestorAdd(h, session, n, 1);
    var a := Ancestor(h, session, n).value;
    assert a in h ==> Ancestor(h, a, 1) == Ancestor(h, h[a], 0);
  }

  /** The climb from a session never meets the same session twice. */
  lemma ClimbIsFresh(h: Hierarchy, session: Entity, m: nat, n: nat)
    requires Acyclic(h) && m < n
    requires Ancestor(h, session, n).Some? && Ancestor(h, session, m).Some?
    ensures Ancestor(h, session, m) != Ancestor(h, session, n)
  {
    AncestorAdd(h, session, m, n - m);
  }

  /** Beyond the last ancestor there is nothing. */
  lemma {:induction false} NothingAboveRoot(h: Hierarchy, session: Entity, m: nat, n: nat)
    requires m <= n && Ancestor(h, session, m).None?
    ensures Ancestor(h, session, n).None?
    decreases m
  {
    if m > 0 && session in h {
      NothingAboveRoot(h, h[session], m - 1, n - 1);
    }
  }

  method IsDescendentSession(h: Hierarchy, parentSession: Entity, descendentSession: Entity)
    returns (r: bool)
    requires Acyclic(h)
    ensures r <==> IsDescendent(h, parentSession, descendentSession)
  {
    if parentSession == descendentSession {
      assert Ancestor(h, descendentSession, 0) == Some(parentSession);
      return true;
    }
    var current := descendentSession;
    ghost var n: nat := 0;
    ghost var seen: set<Entity> := {};
    while current in h
      invariant Ancestor(h, descendentSession, n) == Some(current)
      invariant forall m: nat | m <= n :: Ancestor(h, descendentSession, m) != Some(parentSession)
      invariant seen <= h.Keys
      invariant forall s | s in seen :: exists m: nat :: m < n && Ancestor(h, descendentSession, m) == Some(s)
      decreases h.Keys - seen
    {
      AncestorNext(h, descendentSession, n);
      if h[current] == parentSession {
        return true;
      }
      if current in seen {
        var m: nat :| m < n && Ancestor(h, descendentSession, m) == Some(current);
        ClimbIsFresh(h, descendentSession, m, n);
      }
      seen := seen + {current};
      current := h[current];
      n := n + 1;
    }
    AncestorNext(h, descendentSession, n);
    forall k: nat ensures Ancestor(h, descendentSession, k) != Some(parentSession) {
      if k > n {
        NothingAboveRoot(h, descendentSession, n + 1, k);
      }
    }
    return false;
  }

  /** `stack` lists a session's ancestors, outermost first, ending with the session. */
  ghost predicate IsSessionStack(h: Hierarchy, session: Entity, stack: seq<Entity>) {
    && stack != []
    && stack[|stack| - 1] == session
    && (forall i | 0 < i < |stack| :: stack[i] in h && h[stack[i]] == stack[i - 1])
    && stack[0] !in h
  }

  method GetSessionStack(h: Hierarchy, session: Entity) returns (stack: seq<Entity>)
    requires Acyclic(h)
    ensures IsSessionStack(h, session, stack)
  {
    var current := session;
    stack := [session];
    ghost var seen: set<Entity> := {};
    while current in h
      invariant stack != [] && stack[0] == session && stack[|stack| - 1] == current
      invariant forall i | 0 <= i < |stack| - 1 :: stack[i] in h && h[stack[i]] == stack[i + 1]
      invariant Ancestor(h, session, |stack| - 1) == Some(current)
      invariant seen <= h.Keys
      invariant forall s | s in seen :: exists m: nat :: m < |stack| - 1 && Ancestor(h, session, m) == Some(s)
      decreases h.Keys - seen
    {
      AncestorNext(h, session, |stack| - 1);
      if current in seen {
        var m: nat :| m < |stack| - 1 && Ancestor(h, session, m) == Some(current);
        ClimbIsFresh(h, session, m, |stack| - 1);
      }
      seen := seen + {current};
      current := h[current];
      stack := stack + [current];
    }
    ghost var climb := stack;
    stack := Reverse(stack);
    forall i | 0 < i < |stack| ensures stack[i] in h && h[stack[i]] == stack[i - 1] {
      var j := |climb| - 1 - i;
      assert climb[j] in h && h[climb[j]] == climb[j + 1];
    }
  }

  /** Element i of a session stack is the ancestor that many steps up from the end. */
  lemma {:induction false} StackIsAncestry(h: Hierarchy, session: Entity, stack: seq<Entity>, n: nat)
    requires IsSessionStack(h, session, stack)
    ensures Ancestor(h, session, n) == if n < |stack| then Some(stack[|stack| - 1 - n]) else None
  {
    if n > 0 {
      StackIsAncestry(h, session, stack, n - 1);
      if n <= |stack| {
        AncestorNext(h, session, n - 1);
      } else {
        NothingAboveRoot(h, session, n - 1, n);
      }
    }
  }

  /** The two climbs agree: containment is membership in the session stack. */
  lemma DescendentIffInStack(h: Hierarchy, parent: Entity, session: Entity, stack: seq<Entity>)
    requires IsSessionStack(h, session, stack)
    ensures IsDescendent(h, parent, session) <==> parent in stack
  {
    if IsDescendent(h, parent, session) {
      var n: nat :| Ancestor(h, session, n) == Some(parent);
      StackIsAncestry(h, session, stack, n);
    }
    if parent in stack {
      var i :| 0 <= i < |stack| && stack[i] == parent;
      StackIsAncestry(h, session, stack, |stack| - 1 - i);
    }
  }

  /** Containment is reflexive and transitive, and antisymmetric when the hierarchy is acyclic. */
  lemma ContainmentIsPartialOrder(h: Hierarchy, a: Entity, b: Entity, c: Entity)
    ensures IsDescendent(h, a, a)
    ensures IsDescendent(h, a, b) && IsDescendent(h, b, c) ==> IsDescendent(h, a, c)
    ensures Acyclic(h) && IsDescendent(h, a, b) && IsDescendent(h, b, a) ==> a == b
  {
    assert Ancestor(h, a, 0) == Some(a);
    if IsDescendent(h, a, b) && IsDescendent(h, b, c) {
      var m: nat :| Ancestor(h, b, m) == Some(a);
      var n: nat :| Ancestor(h, c, n) == Some(b);
      AncestorAdd(h, c, n, m);
      assert Ancestor(h, c, n + m) == Some(a);
    }
    if Acyclic(h) && IsDescendent(h, a, b) && IsDescendent(h, b, a) {
      var m: nat :| Ancestor(h, b, m) == Some(a);
      var n: nat :| Ancestor(h, a, n) == Some(b);
      AncestorAdd(h, a, n, m);
    }
  }
}
