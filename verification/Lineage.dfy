/** The lineage summary of an experience view: the component of the root in the
    declared evidence graph, and Kahn's loop over its lineage edges. */
module Lineage {
  import Sorting
  import opened Graphs

  datatype ClaimType = HeardFrom | DerivedFrom | Summarizes | Confirms | Contradicts

  /** One typed evidence edge a record declares. */
  datatype Claim = Claim(source: Node, kind: ClaimType, target: Node)

  predicate IsLineage(kind: ClaimType) {
    kind == HeardFrom || kind == DerivedFrom || kind == Summarizes
  }

  /** Neighbours in either direction, among the records at hand. */
  function Adjacent(records: set<Node>, claims: set<Claim>): (g: Graph)
    ensures g.Keys == records
  {
    map n | n in records ::
      (set c | c in claims && c.source == n && c.target in records :: c.target)
      + (set c | c in claims && c.target == n && c.source in records :: c.source)
  }

  /** The lineage targets each node of the component declares. */
  function Parents(nodes: set<Node>, claims: set<Claim>): (g: Graph)
    ensures g.Keys == nodes
  {
    map n | n in nodes :: set c | c in claims && c.source == n && IsLineage(c.kind) :: c.target
  }

  /** Lineage restricted to the nodes considered. */
  function Restrict(parents: Graph, nodes: set<Node>): (g: Graph)
    ensures g.Keys == nodes
  {
    map n | n in nodes :: Succ(parents, n) * nodes
  }

  ghost predicate Cyclic(g: Graph) {
    exists p :: IsCycle(g, p)
  }

  // ----- the component -----

  /** All that is found or queued is connected to the root, and every neighbour
      of a found node is found or queued. */
  ghost predicate Exploring(g: Graph, root: Node, rest: seq<Node>, found: set<Node>) {
    && found <= g.Keys
    && (forall n, m :: n in found && m in Succ(g, n) ==> m in found || m in rest)
    && (forall n :: n in found || n in rest ==> Reach(g, root, n))
    && (root in found || root in rest || root !in g)
  }

  ghost function Unseen(g: Graph, found: set<Node>): nat {
    |g.Keys - found|
  }

  lemma ExploreSkip(g: Graph, root: Node, rest: seq<Node>, node: Node, found: set<Node>)
    requires Exploring(g, root, rest + [node], found)
    requires node in found || node !in g
    requires forall n :: n in g ==> g[n] <= g.Keys
    ensures Exploring(g, root, rest, found)
  {
    assert forall m :: m in rest + [node] <==> m in rest || m == node;
    if node !in g && node != root {
      assert ClosedUnder(g, g.Keys);
      if root in g {
        ReachStays(g, g.Keys, root, node);
      }
    }
  }

  lemma ExploreTake(g: Graph, root: Node, rest: seq<Node>, node: Node, more: seq<Node>, found: set<Node>)
    requires Exploring(g, root, rest + [node], found) && node in g && node !in found
    requires forall m :: m in more <==> m in g[node] - found
    ensures Exploring(g, root, rest + more, found + {node})
    ensures Unseen(g, found + {node}) < Unseen(g, found)
  {
    assert forall m :: m in rest + [node] <==> m in rest || m == node;
    assert forall m :: m in rest + more <==> m in rest || m in more;
    forall m | m in more
      ensures Reach(g, root, m)
    {
      ReachEdge(g, node, m);
      ReachTrans(g, root, node, m);
    }
    assert g.Keys - (found + {node}) == (g.Keys - found) - {node};
  }

  lemma Explored(g: Graph, root: Node, found: set<Node>)
    requires Exploring(g, root, [], found)
    requires forall n :: n in g ==> g[n] <= g.Keys
    ensures forall n :: n in found <==> root in g && Reach(g, root, n)
  {
    forall n | root in g && Reach(g, root, n)
      ensures n in found
    {
      ReachStays(g, found, root, n);
    }
    if n :| n in found && root !in g {
      ReachFirstStep(g, root, n);
    }
  }

  /** The worklist that collects everything connected to the root. */
  method Component(records: set<Node>, claims: set<Claim>, root: Node) returns (connected: set<Node>)
    ensures forall n :: n in connected <==> root in records && Reach(Adjacent(records, claims), root, n)
  {
    hide Exploring, Reach, Succ, Unseen;
    var g := Adjacent(records, claims);
    assert forall n :: n in g ==> g[n] <= g.Keys;
    connected := {};
    var pending := [root];
    assert Exploring(g, root, pending, connected) by {
      ExploreStart(g, root);
    }
    while pending != []
      invariant Exploring(g, root, pending, connected)
      decreases Unseen(g, connected), |pending|
    {
      var node := pending[|pending| - 1];
      var rest := pending[..|pending| - 1];
      assert pending == rest + [node];
      if node in connected || node !in records {
        ExploreSkip(g, root, rest, node, connected);
        pending := rest;
      } else {
        var more := SeqOf(g[node] - connected);
        ExploreTake(g, root, rest, node, more, connected);
        connected := connected + {node};
        pending := rest + more;
      }
    }
    Explored(g, root, connected);
  }

  lemma ExploreStart(g: Graph, root: Node)
    ensures Exploring(g, root, [root], {})
  {
    ReachSelf(g, root);
  }

  function SeqOf(s: set<Node>): (r: seq<Node>)
    ensures forall n :: n in r <==> n in s
  {
    Sorting.SetToSorted(s)
  }

  // ----- Kahn's loop -----

  /** A walk against the arrows that stays inside rest. */
  lemma {:induction false} Walk(g: Graph, rest: set<Node>, start: Node, steps: nat) returns (p: seq<Node>)
    requires start in rest
    requires forall n :: n in rest ==> Succ(g, n) * rest != {}
    ensures |p| == steps + 1 && IsPath(g, p) && p[0] == start
    ensures forall i :: 0 <= i < |p| ==> p[i] in rest
    decreases steps
  {
    if steps == 0 {
      p := [start];
    } else {
      var next :| next in Succ(g, start) * rest;
      var tail := Walk(g, rest, next, steps - 1);
      p := [start] + tail;
    }
  }

  lemma {:induction false} Pigeonhole(p: seq<Node>, s: set<Node>)
    requires |p| > |s| && forall i :: 0 <= i < |p| ==> p[i] in s
    ensures exists i, j :: 0 <= i < j < |p| && p[i] == p[j]
    decreases |p|
  {
    var last := p[|p| - 1];
    if i :| 0 <= i < |p| - 1 && p[i] == last {
    } else {
      Pigeonhole(p[..|p| - 1], s - {last});
      var i, j :| 0 <= i < j < |p| - 1 && p[..|p| - 1][i] == p[..|p| - 1][j];
      assert p[i] == p[j];
    }
  }

  /** Where every node has a parent among those left, there is a cycle. */
  lemma NoSourceMeansCycle(g: Graph, rest: set<Node>)
    requires rest != {}
    requires forall n :: n in rest ==> Succ(g, n) * rest != {}
    ensures Cyclic(g)
  {
    var start :| start in rest;
    var p := Walk(g, rest, start, |rest|);
    Pigeonhole(p, rest);
    var i, j :| 0 <= i < j < |p| && p[i] == p[j];
    var c := p[i..j + 1];
    forall k | 0 <= k < |c| - 1
      ensures c[k + 1] in Succ(g, c[k])
    {
      assert p[i + k + 1] in Succ(g, p[i + k]);
    }
    assert IsCycle(g, c);
  }

  /** Nodes taken in an order where parents come first leave no cycle behind. */
  ghost predicate ParentsFirst(g: Graph, order: seq<Node>) {
    forall i, m :: 0 <= i < |order| && m in Succ(g, order[i]) ==> m in order[..i]
  }

  lemma {:induction false} PathFallsBack(g: Graph, order: seq<Node>, p: seq<Node>, at: nat, i: nat)
    requires ParentsFirst(g, order) && IsPath(g, p) && at < |order| && order[at] == p[0]
    requires 0 < i < |p|
    ensures exists j :: 0 <= j < at && order[j] == p[i]
    decreases i
  {
    assert p[i - 1 + 1] in Succ(g, p[i - 1]);
    var from := at;
    if i > 1 {
      PathFallsBack(g, order, p, at, i - 1);
      var j :| 0 <= j < at && order[j] == p[i - 1];
      from := j;
    }
    assert p[i] in order[..from];
    var j :| 0 <= j < from && order[..from][j] == p[i];
    assert order[j] == p[i];
  }

  lemma ParentsFirstAcyclic(g: Graph, order: seq<Node>)
    requires ParentsFirst(g, order)
    requires forall n :: n in g.Keys ==> n in order
    requires forall i, j :: 0 <= i < j < |order| ==> order[i] != order[j]
    ensures !Cyclic(g)
  {
    if p :| IsCycle(g, p) {
      assert p[0 + 1] in Succ(g, p[0]);
      var at :| 0 <= at < |order| && order[at] == p[0];
      PathFallsBack(g, order, p, at, |p| - 1);
      assert false;
    }
  }

  function Children(g: Graph): (c: Graph)
    ensures c.Keys == g.Keys
    ensures forall p, n :: p in c && n in g ==> (n in c[p] <==> p in g[n])
  {
    map p | p in g.Keys :: set n | n in g.Keys && p in g[n]
  }

  ghost function AsSet(s: seq<Node>): (r: set<Node>)
    ensures forall n :: n in r <==> n in s
  {
    set n | n in s
  }

  ghost predicate Counts(g: Graph, degrees: map<Node, int>, taken: set<Node>) {
    degrees.Keys == g.Keys && forall n :: n in g ==> degrees[n] == |g[n] - taken|
  }

  ghost predicate Distinct(s: seq<Node>) {
    forall i, j :: 0 <= i < j < |s| ==> s[i] != s[j]
  }

  /** The queue holds just the nodes not yet taken whose parents have all been taken. */
  ghost predicate QueueIsReady(g: Graph, degrees: map<Node, int>, order: seq<Node>, queue: seq<Node>) {
    && degrees.Keys == g.Keys && Distinct(queue) && Distinct(order)
    && (forall n :: n in queue ==> n in g && n !in order)
    && (forall n :: n in order ==> n in g)
    && (forall n :: n in g ==> (degrees[n] == 0 <==> n in queue || n in order))
  }

  lemma TakeOne(parents: set<Node>, taken: set<Node>, node: Node)
    ensures |parents - (taken + {node})| ==
            |parents - taken| - (if node in parents && node !in taken then 1 else 0)
  {
    if node in parents && node !in taken {
      assert parents - (taken + {node}) == (parents - taken) - {node};
    } else {
      assert parents - (taken + {node}) == parents - taken;
    }
  }

  ghost predicate ClosedGraph(g: Graph) {
    forall n :: n in g ==> g[n] <= g.Keys
  }

  /** Part way through the children: the ones not left have lost one parent more. */
  ghost predicate Releasing(g: Graph, degrees: map<Node, int>, order: seq<Node>, queue: seq<Node>,
                            node: Node, left: set<Node>)
  {
    && node in g && node !in order && node !in g[node] && ClosedGraph(g)
    && left <= Succ(Children(g), node) && degrees.Keys == g.Keys
    && (forall n :: n in g && n in left ==> degrees[n] == |g[n] - AsSet(order)|)
    && (forall n :: n in g && n !in left ==> degrees[n] == |g[n] - AsSet(order + [node])|)
    && QueueIsReady(g, degrees, order + [node], queue)
  }

  lemma ReleaseStart(g: Graph, degrees: map<Node, int>, order: seq<Node>, queue: seq<Node>, node: Node)
    requires node in g && node !in order && node !in g[node] && ClosedGraph(g)
    requires Counts(g, degrees, AsSet(order)) && QueueIsReady(g, degrees, order + [node], queue)
    ensures Releasing(g, degrees, order, queue, node, Children(g)[node])
  {
    assert AsSet(order + [node]) == AsSet(order) + {node};
    forall n | n in g && n !in Children(g)[node]
      ensures degrees[n] == |g[n] - AsSet(order + [node])|
    {
      TakeOne(g[n], AsSet(order), node);
    }
  }

  lemma ReleaseStep(g: Graph, degrees: map<Node, int>, order: seq<Node>, queue: seq<Node>,
                    node: Node, left: set<Node>, child: Node)
    requires Releasing(g, degrees, order, queue, node, left) && child in left
    ensures child in degrees && child in g
    ensures var d := degrees[child := degrees[child] - 1];
            Releasing(g, d, order, if d[child] == 0 then queue + [child] else queue, node, left - {child})
  {
    hide QueueIsReady, AsSet, ClosedGraph;
    assert child in Children(g)[node] && node in g[child];
    ReleaseCount(g[child], order, node);
    ReadyStep(g, degrees, order + [node], queue, child);
  }

  lemma ReleaseCount(parents: set<Node>, order: seq<Node>, node: Node)
    requires node in parents && node !in order
    ensures |parents - AsSet(order + [node])| == |parents - AsSet(order)| - 1
    ensures |parents - AsSet(order)| >= 1
  {
    assert AsSet(order + [node]) == AsSet(order) + {node};
    TakeOne(parents, AsSet(order), node);
    assert node in parents - AsSet(order);
  }

  lemma ReadyStep(g: Graph, degrees: map<Node, int>, order: seq<Node>, queue: seq<Node>, child: Node)
    requires QueueIsReady(g, degrees, order, queue) && child in g && degrees[child] >= 1
    ensures var d := degrees[child := degrees[child] - 1];
            QueueIsReady(g, d, order, if d[child] == 0 then queue + [child] else queue)
  {
    assert forall n :: n in queue + [child] <==> n in queue || n == child;
  }

  lemma ReleaseEnd(g: Graph, degrees: map<Node, int>, order: seq<Node>, queue: seq<Node>, node: Node)
    requires Releasing(g, degrees, order, queue, node, {}) && ParentsFirst(g, order + [node])
    ensures Sorted(g, degrees, order + [node], queue)
  {
  }

  /** The loop over the children of the node just taken. */
  method Release(g: Graph, degrees0: map<Node, int>, queue0: seq<Node>, node: Node, ghost order: seq<Node>)
    returns (degrees: map<Node, int>, queue: seq<Node>)
    requires node in g && Releasing(g, degrees0, order, queue0, node, Children(g)[node])
    ensures Releasing(g, degrees, order, queue, node, {})
  {
    hide Releasing, QueueIsReady;
    degrees, queue := degrees0, queue0;
    var left := Children(g)[node];
    while left != {}
      invariant Releasing(g, degrees, order, queue, node, left)
      decreases |left|
    {
      var child := Sorting.MinOf(left);
      ReleaseStep(g, degrees, order, queue, node, left, child);
      left := left - {child};
      degrees := degrees[child := degrees[child] - 1];
      if degrees[child] == 0 {
        queue := queue + [child];
      }
    }
  }

  ghost predicate Sorted(g: Graph, degrees: map<Node, int>, order: seq<Node>, queue: seq<Node>) {
    Counts(g, degrees, AsSet(order)) && QueueIsReady(g, degrees, order, queue) && ParentsFirst(g, order)
  }

  lemma SortStart(g: Graph, degrees: map<Node, int>, queue: seq<Node>)
    requires degrees == map n | n in g :: |g[n]|
    requires Distinct(queue) && forall n :: n in queue <==> n in g && degrees[n] == 0
    ensures Sorted(g, degrees, [], queue)
  {
    forall n | n in g
      ensures degrees[n] == |g[n] - AsSet([])|
    {
      assert g[n] - AsSet([]) == g[n];
    }
  }

  lemma SortTake(g: Graph, degrees: map<Node, int>, order: seq<Node>, rest: seq<Node>, node: Node)
    requires Sorted(g, degrees, order, rest + [node]) && ClosedGraph(g)
    ensures node in g && Releasing(g, degrees, order, rest, node, Children(g)[node])
    ensures ParentsFirst(g, order + [node])
    ensures |order| < |g.Keys|
  {
    hide Distinct, ParentsFirst;
    assert forall n :: n in rest + [node] <==> n in rest || n == node;
    DistinctSplit(rest, node);
    NoneLeft(g[node], order);
    TakenFirst(g, order, node);
    DistinctJoin(order, node);
    ReleaseReady(g, degrees, order, rest, node);
    ReleaseStart(g, degrees, order, rest, node);
    DistinctBound(order + [node], g.Keys);
  }

  lemma ReleaseReady(g: Graph, degrees: map<Node, int>, order: seq<Node>, rest: seq<Node>, node: Node)
    requires QueueIsReady(g, degrees, order, rest + [node])
    requires node !in rest && Distinct(rest) && Distinct(order + [node])
    ensures QueueIsReady(g, degrees, order + [node], rest)
  {
    assert forall n :: n in rest + [node] <==> n in rest || n == node;
    assert forall n :: n in order + [node] <==> n in order || n == node;
  }

  lemma NoneLeft(parents: set<Node>, order: seq<Node>)
    requires |parents - AsSet(order)| == 0
    ensures forall m :: m in parents ==> m in order
  {
    assert parents - AsSet(order) == {};
    forall m | m in parents
      ensures m in order
    {
      assert m !in parents - AsSet(order);
    }
  }

  lemma DistinctSplit(rest: seq<Node>, node: Node)
    requires Distinct(rest + [node])
    ensures Distinct(rest) && node !in rest
  {
    var queue := rest + [node];
    forall i, j | 0 <= i < j < |rest|
      ensures rest[i] != rest[j]
    {
      assert queue[i] != queue[j];
    }
    forall i | 0 <= i < |rest|
      ensures rest[i] != node
    {
      assert queue[i] != queue[|rest|];
    }
  }

  lemma DistinctJoin(order: seq<Node>, node: Node)
    requires Distinct(order) && node !in order
    ensures Distinct(order + [node])
  {
  }

  lemma TakenFirst(g: Graph, order: seq<Node>, node: Node)
    requires ParentsFirst(g, order)
    requires forall m :: m in Succ(g, node) ==> m in order
    ensures ParentsFirst(g, order + [node])
  {
    var next := order + [node];
    forall i, m | 0 <= i < |next| && m in Succ(g, next[i])
      ensures m in next[..i]
    {
      if i < |order| {
        assert next[..i] == order[..i] && next[i] == order[i];
      } else {
        assert next[..i] == order;
      }
    }
  }

  lemma SplitLast(queue: seq<Node>)
    requires queue != []
    ensures queue == queue[..|queue| - 1] + [queue[|queue| - 1]]
  {
  }

  /** Kahn's loop: it takes every node exactly when the graph has no cycle. */
  method KahnCycle(g: Graph) returns (cyclic: bool)
    requires ClosedGraph(g)
    ensures cyclic <==> Cyclic(g)
  {
    hide Sorted, Releasing, Cyclic, ClosedGraph, ParentsFirst, Succ, Children;
    var degrees: map<Node, int> := map n | n in g :: |g[n]|;
    var sources := set n | n in g && degrees[n] == 0;
    var queue := SeqOf(sources);
    Sorting.SetToSortedStrict(sources);
    var processed := 0;
    ghost var order: seq<Node> := [];
    SortStart(g, degrees, queue);
    while queue != []
      invariant Sorted(g, degrees, order, queue)
      invariant processed == |order| <= |g.Keys|
      decreases |g.Keys| - processed
    {
      var node := queue[|queue| - 1];
      var rest := queue[..|queue| - 1];
      SplitLast(queue);
      SortTake(g, degrees, order, rest, node);
      degrees, queue := Release(g, degrees, rest, node, order);
      ReleaseEnd(g, degrees, order, queue, node);
      order := order + [node];
      processed := processed + 1;
    }
    cyclic := processed != |g|;
    Settle(g, degrees, order);
  }

  lemma {:induction false} DistinctBound(s: seq<Node>, u: set<Node>)
    requires Distinct(s) && forall n :: n in s ==> n in u
    ensures |s| <= |u|
  {
    if |s| > |u| {
      Pigeonhole(s, u);
    }
  }

  lemma {:induction false} DistinctCount(s: seq<Node>)
    requires Distinct(s)
    ensures |AsSet(s)| == |s|
  {
    if s != [] {
      var init, last := s[..|s| - 1], s[|s| - 1];
      DistinctCount(init);
      assert s == init + [last];
      assert AsSet(s) == AsSet(init) + {last};
    }
  }

  lemma Settle(g: Graph, degrees: map<Node, int>, order: seq<Node>)
    requires ClosedGraph(g) && Sorted(g, degrees, order, [])
    ensures |order| != |g| <==> Cyclic(g)
  {
    DistinctCount(order);
    assert AsSet(order) <= g.Keys;
    var rest := g.Keys - AsSet(order);
    assert |rest| == |g.Keys| - |AsSet(order)|;
    if rest == {} {
      ParentsFirstAcyclic(g, order);
    } else {
      forall n | n in rest
        ensures Succ(g, n) * rest != {}
      {
        assert degrees[n] != 0;
        assert g[n] - AsSet(order) != {};
        var m :| m in g[n] - AsSet(order);
        assert m in Succ(g, n) * rest;
      }
      NoSourceMeansCycle(g, rest);
    }
  }

  /** What a summary reports about shape. */
  datatype Summary = Summary(considered: set<Node>, roots: set<Node>, missing: set<Node>, cycle: bool)

  /** summarize, up to the evidence counts: the component, its roots, the references it
      lacks and whether its lineage has a cycle. */
  method Summarize(records: set<Node>, claims: set<Claim>, root: Node) returns (r: Summary)
    ensures forall n :: n in r.considered <==> root in records && Reach(Adjacent(records, claims), root, n)
    ensures forall n :: n in r.roots <==>
              n in r.considered && forall c :: c in claims && c.source == n ==> !IsLineage(c.kind)
    ensures forall t :: t in r.missing <==>
              t !in records && exists c :: c in claims && c.source in r.considered && c.target == t
    ensures r.cycle <==> Cyclic(Restrict(Parents(r.considered, claims), r.considered))
  {
    var connected := Component(records, claims, root);
    var parents := Parents(connected, claims);
    var roots := set n | n in connected && parents[n] == {};
    forall n | n in connected
      ensures parents[n] == {} <==> forall c :: c in claims && c.source == n ==> !IsLineage(c.kind)
    {
      forall c | c in claims && c.source == n && IsLineage(c.kind)
        ensures c.target in parents[n]
      {
      }
    }
    var missing := set c | c in claims && c.source in connected && c.target !in records :: c.target;
    var cycle := KahnCycle(Restrict(parents, connected));
    r := Summary(connected, roots, missing, cycle);
  }
}
