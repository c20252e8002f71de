/** Cycle detection: the three-colour search behind graph views and Kahn's loop
    behind experience summaries. */
module Cycles {
  import opened Graphs
  import opened Sorting

  datatype Edge = Edge(source: Node, target: Node)

  datatype Colour = Grey | Black

  /** One stack entry: a node to open, or an opened node to close. */
  datatype Frame = Frame(node: Node, closing: bool)

  /** Targets of n in edge order, repeats included. */
  function Adjacent(edges: seq<Edge>, n: Node): (r: seq<Node>)
    ensures forall m :: m in r <==> Edge(n, m) in edges
  {
    if edges == [] then []
    else
      var e := edges[0];
      var rest := Adjacent(edges[1..], n);
      assert edges == [e] + edges[1..];
      if e.source == n then [e.target] + rest else rest
  }

  function Sources(edges: seq<Edge>): (r: set<Node>)
    ensures forall n :: n in r <==> exists e :: e in edges && e.source == n
  {
    set e | e in edges :: e.source
  }

  ghost function EdgeGraph(edges: seq<Edge>): Graph {
    map n | n in Sources(edges) :: (set m | m in Adjacent(edges, n))
  }

  lemma EdgeGraphSucc(edges: seq<Edge>, n: Node)
    ensures forall m :: m in Succ(EdgeGraph(edges), n) <==> m in Adjacent(edges, n)
  {
    forall m | m in Adjacent(edges, n)
      ensures m in Succ(EdgeGraph(edges), n)
    {
      assert Edge(n, m) in edges && Edge(n, m).source == n;
      assert n in Sources(edges);
    }
  }

  // ----- what the search keeps -----

  ghost predicate GreyIsOpen(colours: map<Node, Colour>, stack: seq<Frame>) {
    && (forall i :: 0 <= i < |stack| && stack[i].closing ==>
          stack[i].node in colours && colours[stack[i].node] == Grey)
    && (forall n :: n in colours && colours[n] == Grey ==>
          exists i :: 0 <= i < |stack| && stack[i] == Frame(n, true))
    && (forall i, j :: 0 <= i < j < |stack| && stack[i].closing && stack[j].closing ==>
          stack[i].node != stack[j].node)
  }

  /** An unopened entry of an open node can only lie below the entry that opened it. */
  ghost predicate UnopenedBelow(stack: seq<Frame>) {
    forall i, j :: (0 <= i < |stack| && 0 <= j < |stack| && !stack[i].closing && stack[j].closing
                    && stack[i].node == stack[j].node) ==> i < j
  }

  ghost predicate OpenReaches(g: Graph, stack: seq<Frame>) {
    forall i, j :: 0 <= i < j < |stack| && stack[i].closing ==> Reach(g, stack[i].node, stack[j].node)
  }

  /** Each child of the open node at i is finished or still above i on the stack. */
  ghost predicate ChildrenPending(g: Graph, colours: map<Node, Colour>, stack: seq<Frame>, i: nat)
    requires i < |stack|
  {
    forall c :: c in Succ(g, stack[i].node) ==>
      (c in colours && colours[c] == Black) || exists j :: i < j < |stack| && stack[j].node == c
  }

  ghost predicate AllChildrenPending(g: Graph, colours: map<Node, Colour>, stack: seq<Frame>) {
    forall i :: 0 <= i < |stack| && stack[i].closing ==> ChildrenPending(g, colours, stack, i)
  }

  ghost predicate PendingBelow(g: Graph, colours: map<Node, Colour>, stack: seq<Frame>, base: nat)
    requires base <= |stack|
  {
    forall i :: 0 <= i < base && stack[i].closing ==> ChildrenPending(g, colours, stack, i)
  }

  /** Finished nodes only point to nodes that finished earlier. */
  ghost predicate Finished(g: Graph, colours: map<Node, Colour>, order: map<Node, nat>, clock: nat) {
    && (forall n :: n in colours && colours[n] == Black ==> n in order && order[n] < clock)
    && (forall n, c :: n in colours && colours[n] == Black && c in Succ(g, n) ==>
          c in colours && colours[c] == Black && c in order && n in order && order[c] < order[n])
  }

  ghost predicate FromRoot(g: Graph, root: Node, stack: seq<Frame>) {
    forall i :: 0 <= i < |stack| ==> Reach(g, root, stack[i].node)
  }

  /** Along a path of finished nodes the finishing order falls strictly. */
  lemma {:induction false} OrderFalls(g: Graph, colours: map<Node, Colour>, order: map<Node, nat>, clock: nat,
                                      p: seq<Node>, i: nat)
    requires Finished(g, colours, order, clock) && IsPath(g, p)
    requires p[0] in colours && colours[p[0]] == Black && i < |p|
    ensures p[i] in colours && colours[p[i]] == Black && p[i] in order && p[0] in order
    ensures order[p[i]] + i <= order[p[0]]
  {
    if i > 0 {
      OrderFalls(g, colours, order, clock, p, i - 1);
      assert p[i - 1 + 1] in Succ(g, p[i - 1]);
    }
  }

  lemma FinishedAcyclic(g: Graph, colours: map<Node, Colour>, order: map<Node, nat>, clock: nat,
                        root: Node, p: seq<Node>)
    requires Finished(g, colours, order, clock)
    requires root in colours && colours[root] == Black
    requires IsPath(g, p) && |p| >= 2 && Reach(g, root, p[0])
    ensures p[0] != p[|p| - 1]
  {
    var q :| IsPath(g, q) && q[0] == root && q[|q| - 1] == p[0];
    OrderFalls(g, colours, order, clock, q, |q| - 1);
    OrderFalls(g, colours, order, clock, p, |p| - 1);
  }

  ghost predicate ReachesCycle(g: Graph, root: Node) {
    exists p :: IsCycle(g, p) && Reach(g, root, p[0])
  }

  lemma BackEdge(g: Graph, root: Node, u: Node, child: Node)
    requires Reach(g, root, child) && Reach(g, child, u) && child in Succ(g, u)
    ensures ReachesCycle(g, root)
  {
    var p :| IsPath(g, p) && p[0] == child && p[|p| - 1] == u;
    PathConcat(g, p, [u, child]);
    assert IsCycle(g, p + [u, child][1..]);
  }

  ghost predicate CycleFrom(g: Graph, roots: set<Node>) {
    exists r :: r in roots && ReachesCycle(g, r)
  }

  ghost predicate Searching(g: Graph, root: Node, colours: map<Node, Colour>, stack: seq<Frame>,
                            order: map<Node, nat>, clock: nat)
  {
    && GreyIsOpen(colours, stack) && UnopenedBelow(stack) && OpenReaches(g, stack)
    && AllChildrenPending(g, colours, stack) && Finished(g, colours, order, clock)
    && FromRoot(g, root, stack)
  }

  /** Grey nodes keep an open entry when an entry above them goes. */
  lemma PopGrey(colours: map<Node, Colour>, after: map<Node, Colour>, stack: seq<Frame>)
    requires GreyIsOpen(colours, stack) && |stack| > 0
    requires var top := stack[|stack| - 1];
             after == if top.closing then colours[top.node := Black] else colours
    ensures GreyIsOpen(after, stack[..|stack| - 1])
  {
    var rest := stack[..|stack| - 1];
    forall n | n in after && after[n] == Grey
      ensures exists i :: 0 <= i < |rest| && rest[i] == Frame(n, true)
    {
      var i :| 0 <= i < |stack| && stack[i] == Frame(n, true);
      assert rest[i] == Frame(n, true);
    }
  }

  /** Dropping a finished top entry leaves every open node's children accounted for. */
  lemma PopChildren(g: Graph, colours: map<Node, Colour>, after: map<Node, Colour>, stack: seq<Frame>)
    requires AllChildrenPending(g, colours, stack) && |stack| > 0
    requires forall n :: n in colours && colours[n] == Black ==> n in after && after[n] == Black
    requires stack[|stack| - 1].node in after && after[stack[|stack| - 1].node] == Black
    ensures AllChildrenPending(g, after, stack[..|stack| - 1])
  {
    var rest := stack[..|stack| - 1];
    forall i | 0 <= i < |rest| && rest[i].closing
      ensures ChildrenPending(g, after, rest, i)
    {
      assert ChildrenPending(g, colours, stack, i);
      forall c | c in Succ(g, rest[i].node) && !(c in after && after[c] == Black)
        ensures exists j :: i < j < |rest| && rest[j].node == c
      {
        var j :| i < j < |stack| && stack[j].node == c;
        assert rest[j].node == c;
      }
    }
  }

  lemma FinishNode(g: Graph, colours: map<Node, Colour>, order: map<Node, nat>, clock: nat, u: Node)
    requires Finished(g, colours, order, clock)
    requires u in colours && colours[u] == Grey
    requires forall c :: c in Succ(g, u) ==> c in colours && colours[c] == Black
    ensures Finished(g, colours[u := Black], order[u := clock], clock + 1)
  {
  }

  /** Popping a closing entry finishes its node. */
  lemma CloseStep(g: Graph, root: Node, colours: map<Node, Colour>, stack: seq<Frame>,
                  order: map<Node, nat>, clock: nat)
    requires Searching(g, root, colours, stack, order, clock)
    requires |stack| > 0 && stack[|stack| - 1].closing
    ensures var u := stack[|stack| - 1].node;
            u in colours && Searching(g, root, colours[u := Black], stack[..|stack| - 1], order[u := clock], clock + 1)
  {
    var u := stack[|stack| - 1].node;
    assert ChildrenPending(g, colours, stack, |stack| - 1);
    FinishNode(g, colours, order, clock, u);
    PopGrey(colours, colours[u := Black], stack);
    PopChildren(g, colours, colours[u := Black], stack);
  }

  /** Popping an entry whose node has finished meanwhile loses nothing. */
  lemma SkipStep(g: Graph, root: Node, colours: map<Node, Colour>, stack: seq<Frame>,
                 order: map<Node, nat>, clock: nat)
    requires Searching(g, root, colours, stack, order, clock)
    requires |stack| > 0 && !stack[|stack| - 1].closing
    requires stack[|stack| - 1].node in colours && colours[stack[|stack| - 1].node] == Black
    ensures Searching(g, root, colours, stack[..|stack| - 1], order, clock)
  {
    PopGrey(colours, colours, stack);
    PopChildren(g, colours, colours, stack);
  }

  /** An unopened entry on top never belongs to an open node. */
  lemma TopIsNotGrey(g: Graph, root: Node, colours: map<Node, Colour>, stack: seq<Frame>,
                     order: map<Node, nat>, clock: nat)
    requires Searching(g, root, colours, stack, order, clock)
    requires |stack| > 0 && !stack[|stack| - 1].closing
    ensures stack[|stack| - 1].node in colours ==> colours[stack[|stack| - 1].node] == Black
  {
    var n := stack[|stack| - 1].node;
    assert forall i :: 0 <= i < |stack| ==> stack[i] != Frame(n, true);
  }

  /** What holds while the children of the node just opened at base are pushed. */
  ghost predicate Opening(g: Graph, root: Node, colours: map<Node, Colour>, stack: seq<Frame>,
                          order: map<Node, nat>, clock: nat, base: nat)
  {
    && base < |stack| && stack[base].closing
    && (forall j :: base < j < |stack| ==> !stack[j].closing)
    && GreyIsOpen(colours, stack) && UnopenedBelow(stack) && OpenReaches(g, stack)
    && PendingBelow(g, colours, stack, base)
    && Finished(g, colours, order, clock) && FromRoot(g, root, stack)
  }

  lemma OpenGrey(colours: map<Node, Colour>, stack: seq<Frame>, u: Node)
    requires GreyIsOpen(colours, stack) && |stack| > 0
    requires stack[|stack| - 1] == Frame(u, false) && u !in colours
    ensures GreyIsOpen(colours[u := Grey], stack[..|stack| - 1] + [Frame(u, true)])
  {
    var top := |stack| - 1;
    var s', c' := stack[..top] + [Frame(u, true)], colours[u := Grey];
    forall n | n in c' && c'[n] == Grey
      ensures exists i :: 0 <= i < |s'| && s'[i] == Frame(n, true)
    {
      if n == u {
        assert s'[top] == Frame(u, true);
      } else {
        var i :| 0 <= i < |stack| && stack[i] == Frame(n, true);
        assert s'[i] == Frame(n, true);
      }
    }
  }

  /** Children stay accounted for when entries are only added or reopened in place. */
  lemma GrowChildren(g: Graph, colours: map<Node, Colour>, after: map<Node, Colour>,
                     stack: seq<Frame>, grown: seq<Frame>, i: nat)
    requires i < |stack| <= |grown| && ChildrenPending(g, colours, stack, i)
    requires forall j :: 0 <= j < |stack| ==> grown[j].node == stack[j].node
    requires forall n :: n in colours && colours[n] == Black ==> n in after && after[n] == Black
    ensures ChildrenPending(g, after, grown, i)
  {
    forall c | c in Succ(g, grown[i].node) && !(c in after && after[c] == Black)
      ensures exists j :: i < j < |grown| && grown[j].node == c
    {
      var j :| i < j < |stack| && stack[j].node == c;
      assert grown[j].node == c;
    }
  }

  lemma OpenChildren(g: Graph, colours: map<Node, Colour>, stack: seq<Frame>, u: Node)
    requires AllChildrenPending(g, colours, stack) && |stack| > 0
    requires stack[|stack| - 1] == Frame(u, false) && u !in colours
    ensures PendingBelow(g, colours[u := Grey], stack[..|stack| - 1] + [Frame(u, true)], |stack| - 1)
  {
    var top := |stack| - 1;
    var s' := stack[..top] + [Frame(u, true)];
    forall i | 0 <= i < top && s'[i].closing
      ensures ChildrenPending(g, colours[u := Grey], s', i)
    {
      GrowChildren(g, colours, colours[u := Grey], stack, s', i);
    }
  }

  lemma OpenUnopened(stack: seq<Frame>, u: Node)
    requires UnopenedBelow(stack) && |stack| > 0 && stack[|stack| - 1] == Frame(u, false)
    ensures UnopenedBelow(stack[..|stack| - 1] + [Frame(u, true)])
  {
    var top := |stack| - 1;
    var s' := stack[..top] + [Frame(u, true)];
    forall i, j | 0 <= i < |s'| && 0 <= j < |s'| && !s'[i].closing && s'[j].closing && s'[i].node == s'[j].node
      ensures i < j
    {
      if j != top {
        assert s'[i] == stack[i] && s'[j] == stack[j];
      }
    }
  }

  lemma OpenStep(g: Graph, root: Node, colours: map<Node, Colour>, stack: seq<Frame>,
                 order: map<Node, nat>, clock: nat, u: Node)
    requires Searching(g, root, colours, stack, order, clock)
    requires |stack| > 0 && stack[|stack| - 1] == Frame(u, false) && u !in colours
    ensures Opening(g, root, colours[u := Grey], stack[..|stack| - 1] + [Frame(u, true)], order, clock, |stack| - 1)
  {
    hide GreyIsOpen, UnopenedBelow, OpenReaches, AllChildrenPending, PendingBelow, Finished, FromRoot;
    OpenGrey(colours, stack, u);
    OpenChildren(g, colours, stack, u);
    OpenUnopened(stack, u);
    OpenPaths(g, root, stack, u);
    OpenFinished(g, colours, order, clock, u);
  }

  lemma OpenPaths(g: Graph, root: Node, stack: seq<Frame>, u: Node)
    requires OpenReaches(g, stack) && FromRoot(g, root, stack) && |stack| > 0 && stack[|stack| - 1] == Frame(u, false)
    ensures OpenReaches(g, stack[..|stack| - 1] + [Frame(u, true)])
    ensures FromRoot(g, root, stack[..|stack| - 1] + [Frame(u, true)])
  {
    hide Reach;
  }

  lemma OpenFinished(g: Graph, colours: map<Node, Colour>, order: map<Node, nat>, clock: nat, u: Node)
    requires Finished(g, colours, order, clock) && u !in colours
    ensures Finished(g, colours[u := Grey], order, clock)
  {
  }

  lemma PushGrey(colours: map<Node, Colour>, stack: seq<Frame>, child: Node)
    requires GreyIsOpen(colours, stack)
    ensures GreyIsOpen(colours, stack + [Frame(child, false)])
  {
    var s' := stack + [Frame(child, false)];
    forall n | n in colours && colours[n] == Grey
      ensures exists i :: 0 <= i < |s'| && s'[i] == Frame(n, true)
    {
      var i :| 0 <= i < |stack| && stack[i] == Frame(n, true);
      assert s'[i] == Frame(n, true);
    }
  }

  lemma PushReaches(g: Graph, stack: seq<Frame>, base: nat, child: Node)
    requires OpenReaches(g, stack) && base < |stack| && stack[base].closing
    requires forall j :: base < j < |stack| ==> !stack[j].closing
    requires child in Succ(g, stack[base].node)
    ensures OpenReaches(g, stack + [Frame(child, false)])
  {
    var s' := stack + [Frame(child, false)];
    ReachEdge(g, stack[base].node, child);
    forall i | 0 <= i < |stack| && stack[i].closing
      ensures Reach(g, stack[i].node, child)
    {
      if i < base {
        ReachTrans(g, stack[i].node, stack[base].node, child);
      }
    }
  }

  lemma PushChildren(g: Graph, colours: map<Node, Colour>, stack: seq<Frame>, base: nat, child: Node)
    requires base <= |stack| && PendingBelow(g, colours, stack, base)
    ensures PendingBelow(g, colours, stack + [Frame(child, false)], base)
  {
    var s' := stack + [Frame(child, false)];
    forall i | 0 <= i < base && s'[i].closing
      ensures ChildrenPending(g, colours, s', i)
    {
      GrowChildren(g, colours, colours, stack, s', i);
    }
  }

  lemma PushFromRoot(g: Graph, root: Node, stack: seq<Frame>, base: nat, child: Node)
    requires FromRoot(g, root, stack) && base < |stack| && child in Succ(g, stack[base].node)
    ensures FromRoot(g, root, stack + [Frame(child, false)])
  {
    ReachEdge(g, stack[base].node, child);
    ReachTrans(g, root, stack[base].node, child);
  }

  lemma PushUnopened(colours: map<Node, Colour>, stack: seq<Frame>, child: Node)
    requires UnopenedBelow(stack) && GreyIsOpen(colours, stack) && child !in colours
    ensures UnopenedBelow(stack + [Frame(child, false)])
  {
  }

  lemma PushStep(g: Graph, root: Node, colours: map<Node, Colour>, stack: seq<Frame>,
                 order: map<Node, nat>, clock: nat, base: nat, child: Node)
    requires Opening(g, root, colours, stack, order, clock, base)
    requires child in Succ(g, stack[base].node) && child !in colours
    ensures Opening(g, root, colours, stack + [Frame(child, false)], order, clock, base)
  {
    PushFromRoot(g, root, stack, base, child);
    PushUnopened(colours, stack, child);
    PushGrey(colours, stack, child);
    PushReaches(g, stack, base, child);
    PushChildren(g, colours, stack, base, child);
  }

  /** A child that is open closes a cycle through the node being opened. */
  lemma GreyChild(g: Graph, root: Node, colours: map<Node, Colour>, stack: seq<Frame>,
                  order: map<Node, nat>, clock: nat, base: nat, child: Node)
    requires Opening(g, root, colours, stack, order, clock, base)
    requires child in Succ(g, stack[base].node) && child in colours && colours[child] == Grey
    ensures ReachesCycle(g, root)
  {
    var i :| 0 <= i < |stack| && stack[i] == Frame(child, true);
    var u := stack[base].node;
    if i == base {
      ReachSelf(g, u);
    }
    assert Reach(g, stack[i].node, u);
    BackEdge(g, root, u, child);
  }

  ghost predicate Accounted(colours: map<Node, Colour>, stack: seq<Frame>, base: nat, m: Node) {
    (m in colours && colours[m] == Black) || exists j :: base < j < |stack| && stack[j].node == m
  }

  ghost predicate InUniverse(stack: seq<Frame>, universe: set<Node>) {
    forall i :: 0 <= i < |stack| ==> stack[i].node in universe
  }

  lemma StillAccounted(colours: map<Node, Colour>, stack: seq<Frame>, frame: Frame, base: nat, m: Node)
    requires Accounted(colours, stack, base, m)
    ensures Accounted(colours, stack + [frame], base, m)
  {
    if !(m in colours && colours[m] == Black) {
      var j :| base < j < |stack| && stack[j].node == m;
      assert (stack + [frame])[j].node == m;
    }
  }

  lemma ChildrenPushed(g: Graph, root: Node, colours: map<Node, Colour>, stack: seq<Frame>,
                       order: map<Node, nat>, clock: nat, base: nat)
    requires Opening(g, root, colours, stack, order, clock, base)
    requires forall m :: m in Succ(g, stack[base].node) ==> Accounted(colours, stack, base, m)
    ensures Searching(g, root, colours, stack, order, clock)
  {
    assert ChildrenPending(g, colours, stack, base);
  }

  /** The loop that pushes the children of the node just opened, largest first;
      it stops with true at a child that is still open. */
  method PushAll(colours: map<Node, Colour>, bottom: seq<Frame>, children: seq<Node>,
                 ghost g: Graph, ghost root: Node, ghost order: map<Node, nat>, ghost clock: nat)
    returns (cyclic: bool, stack: seq<Frame>)
    requires |bottom| > 0 && Opening(g, root, colours, bottom, order, clock, |bottom| - 1)
    requires forall m :: m in children <==> m in Succ(g, bottom[|bottom| - 1].node)
    ensures cyclic ==> ReachesCycle(g, root)
    ensures !cyclic ==> Searching(g, root, colours, stack, order, clock) && |stack| >= |bottom|
    ensures !cyclic ==> stack[..|bottom|] == bottom
    ensures !cyclic ==> forall j :: |bottom| <= j < |stack| ==> stack[j].node in children
  {
    hide Opening, Searching, ReachesCycle, Finished, GreyIsOpen, Succ;
    ghost var base := |bottom| - 1;
    stack := bottom;
    var c := |children|;
    while c > 0
      invariant 0 <= c <= |children|
      invariant Opening(g, root, colours, stack, order, clock, base)
      invariant |stack| >= |bottom| && stack[..|bottom|] == bottom
      invariant forall j :: |bottom| <= j < |stack| ==> stack[j].node in children
      invariant forall j :: c <= j < |children| ==> Accounted(colours, stack, base, children[j])
    {
      c := c - 1;
      var child := children[c];
      assert child in children && stack[base] == bottom[base];
      if child in colours && colours[child] == Grey {
        GreyChild(g, root, colours, stack, order, clock, base, child);
        return true, stack;
      }
      if child !in colours {
        PushStep(g, root, colours, stack, order, clock, base, child);
        var frame := Frame(child, false);
        forall j | c < j < |children|
          ensures Accounted(colours, stack + [frame], base, children[j])
        {
          StillAccounted(colours, stack, frame, base, children[j]);
        }
        assert (stack + [frame])[|stack|].node == child;
        stack := stack + [frame];
      }
    }
    assert stack[base] == bottom[base];
    forall m | m in Succ(g, stack[base].node)
      ensures Accounted(colours, stack, base, m)
    {
      assert m in children;
    }
    ChildrenPushed(g, root, colours, stack, order, clock, base);
    cyclic := false;
  }

  lemma StartSearch(g: Graph, root: Node, colours: map<Node, Colour>, universe: set<Node>,
                    order: map<Node, nat>, clock: nat)
    requires GreyIsOpen(colours, []) && Finished(g, colours, order, clock) && root !in colours && root in universe
    ensures Searching(g, root, colours, [Frame(root, false)], order, clock)
    ensures InUniverse([Frame(root, false)], universe)
  {
    ReachSelf(g, root);
    assert [Frame(root, false)] == [] + [Frame(root, false)];
  }

  ghost function Left(universe: set<Node>, colours: map<Node, Colour>): nat {
    |universe - colours.Keys|
  }

  lemma OpenUniverse(colours: map<Node, Colour>, stack: seq<Frame>, universe: set<Node>, node: Node)
    requires InUniverse(stack, universe) && |stack| > 0 && stack[|stack| - 1].node == node
    requires node !in colours && colours.Keys <= universe
    ensures InUniverse(stack[..|stack| - 1] + [Frame(node, true)], universe)
    ensures colours[node := Grey].Keys <= universe && colours.Keys <= colours[node := Grey].Keys
    ensures Left(universe, colours[node := Grey]) < Left(universe, colours)
  {
    assert node in universe;
    assert universe - colours[node := Grey].Keys == (universe - colours.Keys) - {node};
  }

  lemma CloseUniverse(colours: map<Node, Colour>, stack: seq<Frame>, universe: set<Node>, node: Node)
    requires InUniverse(stack, universe) && |stack| > 0 && node in colours
    ensures InUniverse(stack[..|stack| - 1], universe)
    ensures colours[node := Black].Keys == colours.Keys
    ensures Left(universe, colours[node := Black]) == Left(universe, colours)
  {
    assert colours[node := Black].Keys == colours.Keys;
  }

  lemma PushedInUniverse(edges: seq<Edge>, node: Node, bottom: seq<Frame>, stack: seq<Frame>,
                         children: seq<Node>, universe: set<Node>)
    requires InUniverse(bottom, universe) && |stack| >= |bottom| && stack[..|bottom|] == bottom
    requires forall j :: |bottom| <= j < |stack| ==> stack[j].node in children
    requires forall m :: m in children ==> Edge(node, m) in edges
    requires forall e :: e in edges ==> e.target in universe
    ensures InUniverse(stack, universe)
    ensures |bottom| > 0 ==> stack[0] == bottom[0]
  {
    forall i | 0 <= i < |stack| ensures stack[i].node in universe {
      if i < |bottom| {
        assert stack[i] == bottom[i];
      } else {
        assert Edge(node, stack[i].node) in edges;
      }
    }
  }

  lemma EndSearch(g: Graph, root: Node, colours: map<Node, Colour>, stack: seq<Frame>,
                  order: map<Node, nat>, clock: nat)
    requires Searching(g, root, colours, stack, order, clock) && stack == []
    ensures GreyIsOpen(colours, []) && Finished(g, colours, order, clock)
  {
  }

  /** The search from one root. */
  method SearchFrom(root: Node, edges: seq<Edge>, colours0: map<Node, Colour>,
                    ghost universe: set<Node>, ghost order0: map<Node, nat>, ghost clock0: nat)
    returns (cyclic: bool, colours: map<Node, Colour>, ghost order: map<Node, nat>, ghost clock: nat)
    requires root !in colours0 && root in universe && colours0.Keys <= universe
    requires forall e :: e in edges ==> e.target in universe
    requires GreyIsOpen(colours0, []) && Finished(EdgeGraph(edges), colours0, order0, clock0)
    ensures cyclic ==> ReachesCycle(EdgeGraph(edges), root)
    ensures !cyclic ==> GreyIsOpen(colours, []) && Finished(EdgeGraph(edges), colours, order, clock)
    ensures !cyclic ==> colours0.Keys <= colours.Keys <= universe && root in colours
  {
    hide Opening, Searching, Finished, FromRoot, GreyIsOpen, EdgeGraph, Succ, Reach, Adjacent, Sort, InUniverse,
      ReachesCycle, Left;
    ghost var g := EdgeGraph(edges);
    colours, order, clock := colours0, order0, clock0;
    var stack := [Frame(root, false)];
    StartSearch(g, root, colours, universe, order, clock);
    while |stack| > 0
      invariant Searching(g, root, colours, stack, order, clock)
      invariant |stack| > 0 ==> stack[0].node == root
      invariant |stack| == 0 ==> root in colours
      invariant InUniverse(stack, universe)
      invariant colours0.Keys <= colours.Keys <= universe
      decreases Left(universe, colours), |stack|
    {
      var frame := stack[|stack| - 1];
      var node := frame.node;
      if frame.closing {
        CloseStep(g, root, colours, stack, order, clock);
        order, clock := order[node := clock], clock + 1;
        CloseUniverse(colours, stack, universe, node);
        colours, stack := colours[node := Black], stack[..|stack| - 1];
        continue;
      }
      // An open node on top would close a cycle as well, but none is ever there.
      TopIsNotGrey(g, root, colours, stack, order, clock);
      if node in colours {
        SkipStep(g, root, colours, stack, order, clock);
        CloseUniverse(colours, stack, universe, node);
        stack := stack[..|stack| - 1];
        continue;
      }
      OpenStep(g, root, colours, stack, order, clock, node);
      OpenUniverse(colours, stack, universe, node);
      colours, stack := colours[node := Grey], stack[..|stack| - 1] + [Frame(node, true)];
      EdgeGraphSucc(edges, node);
      var children := Sort(Adjacent(edges, node));
      ghost var bottom := stack;
      cyclic, stack := PushAll(colours, stack, children, g, root, order, clock);
      if cyclic {
        return;
      }
      PushedInUniverse(edges, node, bottom, stack, children, universe);
    }
    EndSearch(g, root, colours, stack, order, clock);
    cyclic := false;
  }

  lemma FinishedRoot(g: Graph, colours: map<Node, Colour>, order: map<Node, nat>, clock: nat, root: Node)
    requires GreyIsOpen(colours, []) && Finished(g, colours, order, clock) && root in colours
    ensures !ReachesCycle(g, root)
  {
    assert colours[root] == Black;
    forall p | IsPath(g, p) && |p| >= 2 && Reach(g, root, p[0])
      ensures p[0] != p[|p| - 1]
    {
      FinishedAcyclic(g, colours, order, clock, root, p);
    }
  }

  lemma NothingFinished(g: Graph)
    ensures GreyIsOpen(map[], []) && Finished(g, map[], map[], 0)
  {
  }

  /** _directed_cycle: true exactly when some cycle can be reached from the given nodes. */
  method DirectedCycle(nodes: set<Node>, edges: seq<Edge>) returns (cyclic: bool)
    ensures cyclic <==> CycleFrom(EdgeGraph(edges), nodes)
  {
    hide GreyIsOpen, Finished, EdgeGraph, ReachesCycle;
    ghost var g := EdgeGraph(edges);
    ghost var universe := nodes + (set e | e in edges :: e.target);
    assert GreyIsOpen(map[], []) && Finished(g, map[], map[], 0) by { NothingFinished(g); }
    var colours: map<Node, Colour> := map[];
    ghost var order: map<Node, nat>, clock: nat := map[], 0;
    var roots := SetToSorted(nodes);
    for k := 0 to |roots|
      invariant GreyIsOpen(colours, []) && Finished(g, colours, order, clock)
      invariant forall j :: 0 <= j < k ==> roots[j] in colours
      invariant colours.Keys <= universe
    {
      assert roots[k] in roots;
      if roots[k] !in colours {
        cyclic, colours, order, clock := SearchFrom(roots[k], edges, colours, universe, order, clock);
        if cyclic {
          return;
        }
      }
    }
    forall r | r in nodes
      ensures !ReachesCycle(g, r)
    {
      assert r in roots;
      FinishedRoot(g, colours, order, clock, r);
    }
    cyclic := false;
  }
}
