/** Walks along the edges of a graph. */
module Paths {
  import opened Common

  type Edges = (Entity, Entity) -> bool

  ghost predicate Walk(edge: Edges, p: seq<Entity>) {
    p != [] && forall i | 0 <= i < |p| - 1 :: edge(p[i], p[i + 1])
  }

  ghost predicate WalkBetween(edge: Edges, p: seq<Entity>, a: Entity, b: Entity) {
    Walk(edge, p) && p[0] == a && p[|p| - 1] == b
  }

  ghost predicate Connected(edge: Edges, a: Entity, b: Entity) {
    exists p :: WalkBetween(edge, p, a, b)
  }

  lemma ConnectedSelf(edge: Edges, a: Entity)
    ensures Connected(edge, a, a)
  {
    assert WalkBetween(edge, [a], a, a);
  }

  lemma WalkJoin(edge: Edges, p: seq<Entity>, q: seq<Entity>, a: Entity, b: Entity, c: Entity)
    requires WalkBetween(edge, p, a, b) && WalkBetween(edge, q, b, c)
    ensures WalkBetween(edge, p + q[1..], a, c)
  {
    var r := p + q[1..];
    forall i | 0 <= i < |r| - 1 ensures edge(r[i], r[i + 1]) {
      if i >= |p| - 1 {
        assert r[i] == q[i - |p| + 1] && r[i + 1] == q[i - |p| + 1 + 1];
      }
    }
  }

  lemma WalkSlice(edge: Edges, p: seq<Entity>, i: nat, j: nat)
    requires Walk(edge, p) && i < j <= |p|
    ensures Walk(edge, p[i..j])
  {
    forall k | 0 <= k < j - i - 1 ensures edge(p[i..j][k], p[i..j][k + 1]) {
      assert edge(p[i + k], p[i + k + 1]);
    }
  }

  lemma ConnectedJoin(edge: Edges, a: Entity, b: Entity, c: Entity)
    requires Connected(edge, a, b) && Connected(edge, b, c)
    ensures Connected(edge, a, c)
  {
    var p :| WalkBetween(edge, p, a, b);
    var q :| WalkBetween(edge, q, b, c);
    WalkJoin(edge, p, q, a, b, c);
  }

  lemma ConnectedByEdge(edge: Edges, a: Entity, b: Entity)
    requires edge(a, b)
    ensures Connected(edge, a, b)
  {
    assert WalkBetween(edge, [a, b], a, b);
  }

  /** A walk never leaves a set that is closed under the edges. */
  lemma {:induction false} WalkStaysInside(edge: Edges, inside: iset<Entity>, p: seq<Entity>, i: nat)
    requires Walk(edge, p) && p[0] in inside && i < |p|
    requires forall x, y | x in inside && edge(x, y) :: y in inside
    ensures p[i] in inside
  {
    if i > 0 {
      WalkStaysInside(edge, inside, p, i - 1);
      assert edge(p[i - 1], p[i - 1 + 1]);
    }
  }

  lemma ConnectedStaysInside(edge: Edges, inside: iset<Entity>, a: Entity, b: Entity)
    requires a in inside && Connected(edge, a, b)
    requires forall x, y | x in inside && edge(x, y) :: y in inside
    ensures b in inside
  {
    var p :| WalkBetween(edge, p, a, b);
    WalkStaysInside(edge, inside, p, |p| - 1);
  }

  /** Walking the other way along reversed edges. */
  lemma ConnectedReversed(edge: Edges, back: Edges, a: Entity, b: Entity)
    requires forall x, y :: edge(x, y) ==> back(y, x)
    requires Connected(edge, a, b)
    ensures Connected(back, b, a)
  {
    var p :| WalkBetween(edge, p, a, b);
    var q := Reverse(p);
    forall i | 0 <= i < |q| - 1 ensures back(q[i], q[i + 1]) {
      var j := |p| - 2 - i;
      assert edge(p[j], p[j + 1]);
    }
    assert WalkBetween(back, q, b, a);
  }
}
