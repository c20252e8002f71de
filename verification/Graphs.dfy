/** Finite directed graphs over memory ids: paths, reachability and cycles.
    The relation table, the claim-edge graph and the lineage graph are all read
    through this module. */
module Graphs {

  /** A memory id is "mem_" and 40 hex digits.  Such strings all have one length,
      so their text order is the order of the 160-bit number they spell. */
  type Node = nat

  type Graph = map<Node, set<Node>>

  function Succ(g: Graph, n: Node): set<Node> {
    if n in g then g[n] else {}
  }

  ghost predicate IsPath(g: Graph, p: seq<Node>) {
    |p| > 0 && forall i :: 0 <= i < |p| - 1 ==> p[i + 1] in Succ(g, p[i])
  }

  ghost predicate Reach(g: Graph, a: Node, b: Node) {
    exists p :: IsPath(g, p) && p[0] == a && p[|p| - 1] == b
  }

  /** A path that comes back to where it started after at least one edge. */
  ghost predicate IsCycle(g: Graph, p: seq<Node>) {
    IsPath(g, p) && |p| >= 2 && p[0] == p[|p| - 1]
  }

  /** Everything reachable from the set of roots stays inside s. */
  ghost predicate ClosedUnder(g: Graph, s: set<Node>) {
    forall n, m :: n in s && m in Succ(g, n) ==> m in s
  }

  lemma ReachSelf(g: Graph, a: Node)
    ensures Reach(g, a, a)
  {
    assert IsPath(g, [a]);
  }

  lemma ReachEdge(g: Graph, a: Node, b: Node)
    requires b in Succ(g, a)
    ensures Reach(g, a, b)
  {
    var p := [a, b];
    assert IsPath(g, p) && p[0] == a && p[|p| - 1] == b;
  }

  lemma PathConcat(g: Graph, p: seq<Node>, q: seq<Node>)
    requires IsPath(g, p) && IsPath(g, q) && p[|p| - 1] == q[0]
    ensures IsPath(g, p + q[1..])
    ensures (p + q[1..])[0] == p[0]
    ensures (p + q[1..])[|p + q[1..]| - 1] == q[|q| - 1]
  {
    var r := p + q[1..];
    forall i | 0 <= i < |r| - 1
      ensures r[i + 1] in Succ(g, r[i])
    {
      if i >= |p| - 1 {
        assert r[i] == q[i - (|p| - 1)];
        assert r[i + 1] == q[i + 1 - (|p| - 1)];
      }
    }
  }

  lemma ReachTrans(g: Graph, a: Node, b: Node, c: Node)
    requires Reach(g, a, b) && Reach(g, b, c)
    ensures Reach(g, a, c)
  {
    var p :| IsPath(g, p) && p[0] == a && p[|p| - 1] == b;
    var q :| IsPath(g, q) && q[0] == b && q[|q| - 1] == c;
    PathConcat(g, p, q);
  }

  /** A path that starts in a closed set never leaves it. */
  lemma {:induction false} PathStays(g: Graph, s: set<Node>, p: seq<Node>, i: nat)
    requires ClosedUnder(g, s) && IsPath(g, p) && p[0] in s && i < |p|
    ensures p[i] in s
  {
    if i > 0 {
      PathStays(g, s, p, i - 1);
      assert p[i - 1 + 1] in Succ(g, p[i - 1]);
    }
  }

  lemma ReachStays(g: Graph, s: set<Node>, a: Node, b: Node)
    requires ClosedUnder(g, s) && a in s && Reach(g, a, b)
    ensures b in s
  {
    var p :| IsPath(g, p) && p[0] == a && p[|p| - 1] == b;
    PathStays(g, s, p, |p| - 1);
  }

  /** Reaching b from a different a means leaving a over some edge first. */
  lemma ReachFirstStep(g: Graph, a: Node, b: Node)
    requires Reach(g, a, b) && a != b
    ensures exists m :: m in Succ(g, a) && Reach(g, m, b)
  {
    var p :| IsPath(g, p) && p[0] == a && p[|p| - 1] == b;
    var q := p[1..];
    assert IsPath(g, q) by {
      forall i | 0 <= i < |q| - 1
        ensures q[i + 1] in Succ(g, q[i])
      {
        assert p[i + 1 + 1] in Succ(g, p[i + 1]);
      }
    }
    assert p[0 + 1] in Succ(g, p[0]);
    assert q[0] == p[1] && q[|q| - 1] == b;
    assert Reach(g, p[1], b);
  }

  /** Two graphs that agree on a set closed under both have the same paths out
      of it: growth elsewhere changes no closure. */
  lemma {:induction false} ReachAgrees(g: Graph, h: Graph, s: set<Node>, a: Node, b: Node)
    requires ClosedUnder(g, s) && a in s
    requires forall n :: n in s ==> Succ(g, n) == Succ(h, n)
    ensures Reach(g, a, b) <==> Reach(h, a, b)
  {
    assert ClosedUnder(h, s);
    if Reach(g, a, b) {
      var p :| IsPath(g, p) && p[0] == a && p[|p| - 1] == b;
      forall i | 0 <= i < |p| ensures p[i] in s { PathStays(g, s, p, i); }
      assert IsPath(h, p);
    }
    if Reach(h, a, b) {
      var p :| IsPath(h, p) && p[0] == a && p[|p| - 1] == b;
      forall i | 0 <= i < |p| ensures p[i] in s { PathStays(h, s, p, i); }
      assert IsPath(g, p);
    }
  }

  /** The nodes of a finite universe that a reaches. */
  ghost function ReachSet(g: Graph, a: Node, universe: set<Node>): (r: set<Node>)
    ensures forall b :: b in r <==> b in universe && Reach(g, a, b)
  {
    set b | b in universe && Reach(g, a, b)
  }
}
