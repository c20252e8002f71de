/** Bounded graph reads: the component view of _graph_rows and the replacement walk of
    _current_state_witness_ids.  Each is exact whenever it reports no truncation. */
module BoundedGraphs {
  import opened Wrappers
  import opened Graphs
  import opened Sorting
  import opened VaultStore
  import opened StateAuthority
  import Cycles

  const MAX_TREE_DEPTH: nat := 12
  const MAX_RERANK_BYTES: nat := 8 * 1024 * 1024

  // ----- component view -----

  datatype EdgeKey = EdgeKey(source: Id, kind: RelationKind, target: Id)

  datatype Limit = EdgeLimit | DepthLimit | NodeLimit | RecordByteLimit

  datatype View = View(records: set<Id>, edges: set<EdgeKey>, reasons: set<Limit>, frontier: set<Id>,
                       depthReached: nat, bytes: nat, cycle: bool)

  /** Stored within the snapshot and readable now. */
  predicate Visible(s: Store, trusted: Trust, through: nat, id: Id) {
    id in s.records && id in s.ingest && s.ingest[id] <= through && RankOf(s, trusted, id) > 0
  }

  predicate IsClaim(kind: RelationKind) {
    kind == Supersedes || kind == ConflictsWith || kind == Resolves
  }

  /** A claim edge counts only when it is as strong as its target and, to change state,
      shares its author. */
  predicate Effective(s: Store, trusted: Trust, e: EdgeKey) {
    RankOf(s, trusted, e.source) >= RankOf(s, trusted, e.target)
    && (e.kind == Supersedes || e.kind == Resolves ==> AuthorMatch(s, e.source, e.target))
  }

  predicate IsRow(s: Store, trusted: Trust, through: nat, claimsOnly: bool, e: EdgeKey) {
    && Visible(s, trusted, through, e.source) && Visible(s, trusted, through, e.target)
    && Relation(e.kind, e.target) in s.records[e.source].relations
    && (claimsOnly ==> IsClaim(e.kind))
  }

  predicate IsEdge(s: Store, trusted: Trust, through: nat, claimsOnly: bool, e: EdgeKey) {
    IsRow(s, trusted, through, claimsOnly, e) && (claimsOnly ==> Effective(s, trusted, e))
  }

  /** The query's rows at one node, before the effectiveness test. */
  function RowsAt(s: Store, trusted: Trust, through: nat, claimsOnly: bool, id: Id): (r: set<EdgeKey>)
    ensures forall e :: e in r <==> IsRow(s, trusted, through, claimsOnly, e) && (e.source == id || e.target == id)
  {
    set n, rel | n in s.records && rel in s.records[n].relations && (n == id || rel.target == id)
                 && IsRow(s, trusted, through, claimsOnly, EdgeKey(n, rel.kind, rel.target))
      :: EdgeKey(n, rel.kind, rel.target)
  }

  function Neighbour(e: EdgeKey, current: Id): Id {
    if e.source == current then e.target else e.source
  }

  /** The undirected graph the edges span. */
  ghost function Links(s: Store, trusted: Trust, through: nat, claimsOnly: bool): (g: Graph)
    ensures forall n, m :: m in Succ(g, n) <==>
              n in s.records && exists e :: Joins(s, trusted, through, claimsOnly, e, n, m)
  {
    map n | n in s.records :: set m | m in s.records && exists e :: Joins(s, trusted, through, claimsOnly, e, n, m)
  }

  ghost predicate Joins(s: Store, trusted: Trust, through: nat, claimsOnly: bool, e: EdgeKey, n: Id, m: Id) {
    IsEdge(s, trusted, through, claimsOnly, e) && ((e.source == n && e.target == m) || (e.source == m && e.target == n))
  }

  datatype Query = Query(root: Id, through: nat, maximumNodes: nat, maximumEdges: nat, maximumDepth: nat,
                         claimsOnly: bool)

  datatype Progress = Progress(records: set<Id>, edges: set<EdgeKey>, reasons: set<Limit>, frontier: set<Id>,
                               queue: seq<(Id, nat)>, bytes: nat)

  ghost predicate Queued(queue: seq<(Id, nat)>, id: Id) {
    exists i :: 0 <= i < |queue| && queue[i].0 == id
  }

  /** Bounds and soundness, kept whether or not anything was cut off. */
  ghost predicate Sound(s: Store, trusted: Trust, q: Query, p: Progress) {
    var g := Links(s, trusted, q.through, q.claimsOnly);
    && q.root in p.records && |p.edges| <= q.maximumEdges && |p.records| <= Max(1, q.maximumNodes)
    && (forall id :: id in p.records ==> Visible(s, trusted, q.through, id) && Reach(g, q.root, id))
    && (forall e :: e in p.edges ==> IsEdge(s, trusted, q.through, q.claimsOnly, e)
                                     && e.source in p.records && e.target in p.records)
    && (forall i :: 0 <= i < |p.queue| ==> p.queue[i].0 in p.records && p.queue[i].1 <= q.maximumDepth)
  }

  /** Every edge at a node already expanded has been taken. */
  ghost predicate Expanded(s: Store, trusted: Trust, q: Query, p: Progress, id: Id) {
    forall e :: IsEdge(s, trusted, q.through, q.claimsOnly, e) && (e.source == id || e.target == id) ==> e in p.edges
  }

  /** So far nothing was cut off, apart from the edges at one node still in hand. */
  ghost predicate Complete(s: Store, trusted: Trust, q: Query, p: Progress) {
    p.reasons == {} ==> forall id :: id in p.records ==> Queued(p.queue, id) || Expanded(s, trusted, q, p, id)
  }

  /** Connected to the root and readable, but not among the records. */
  ghost predicate LeftOut(s: Store, trusted: Trust, q: Query, records: set<Id>, id: Id) {
    id in s.records && id !in records && Reach(Links(s, trusted, q.through, q.claimsOnly), q.root, id)
  }

  /** The edges have reached their limit, or some record alone has more rows than that. */
  ghost predicate TooManyEdges(s: Store, trusted: Trust, q: Query, records: set<Id>, edges: set<EdgeKey>) {
    |edges| >= q.maximumEdges
    || exists id :: id in records && |RowsAt(s, trusted, q.through, q.claimsOnly, id)| > q.maximumEdges
  }

  ghost predicate TooManyNodes(s: Store, trusted: Trust, q: Query, records: set<Id>) {
    |records| >= q.maximumNodes && exists id :: LeftOut(s, trusted, q, records, id)
  }

  ghost predicate TooManyBytes(s: Store, trusted: Trust, q: Query, records: set<Id>, bytes: nat) {
    exists id :: LeftOut(s, trusted, q, records, id) && bytes + s.records[id].bytes > MAX_RERANK_BYTES
  }

  /** Each reason for cutting off is true of what is shown, and the bytes are those of the records. */
  ghost predicate Justified(s: Store, trusted: Trust, q: Query, records: set<Id>, edges: set<EdgeKey>,
                            reasons: set<Limit>, bytes: nat, depth: nat)
  {
    && (EdgeLimit in reasons ==> TooManyEdges(s, trusted, q, records, edges))
    && (DepthLimit in reasons ==> depth >= q.maximumDepth)
    && (NodeLimit in reasons ==> TooManyNodes(s, trusted, q, records))
    && (RecordByteLimit in reasons ==> TooManyBytes(s, trusted, q, records, bytes))
    && records <= s.records.Keys && bytes == SizeOf(s.records, records)
  }

  ghost predicate IsJustified(s: Store, trusted: Trust, q: Query, p: Progress, depth: nat) {
    Justified(s, trusted, q, p.records, p.edges, p.reasons, p.bytes, depth)
  }

  lemma RowIsJustified(s: Store, trusted: Trust, q: Query, p: Progress, current: Id, depth: nat, e: EdgeKey,
                       reached: nat)
    requires Sound(s, trusted, q, p) && current in p.records && depth <= reached
    requires IsRow(s, trusted, q.through, q.claimsOnly, e) && (e.source == current || e.target == current)
    requires IsJustified(s, trusted, q, p, reached)
    ensures IsJustified(s, trusted, q, Apply(s, p, current, depth, e, Decide(s, trusted, q, p, current, depth, e)),
                        reached)
  {
    var effect := Decide(s, trusted, q, p, current, depth, e);
    if !effect.Keep? {
      assert IsEdge(s, trusted, q.through, q.claimsOnly, e);
      SoundReaches(s, trusted, q, p, current);
      NeighbourReached(s, trusted, q, current, e);
      var n := Neighbour(e, current);
      assert n in s.records by { VisibleStored(s, trusted, q.through, n); }
      hide Sound, Visible, IsEdge, Links, Reach, Effective, IsRow, TooManyEdges, TooManyBytes, TooManyNodes, LeftOut;
      EffectIsJustified(s, trusted, q, p, current, depth, e, effect, reached);
    }
  }

  lemma VisibleStored(s: Store, trusted: Trust, through: nat, id: Id)
    requires Visible(s, trusted, through, id)
    ensures id in s.records
  {
  }

  lemma SoundReaches(s: Store, trusted: Trust, q: Query, p: Progress, id: Id)
    requires Sound(s, trusted, q, p) && id in p.records
    ensures Reach(Links(s, trusted, q.through, q.claimsOnly), q.root, id)
  {
  }

  lemma EffectIsJustified(s: Store, trusted: Trust, q: Query, p: Progress, current: Id, depth: nat, e: EdgeKey,
                          effect: Effect, reached: nat)
    requires IsJustified(s, trusted, q, p, reached) && depth <= reached && e !in p.edges
    requires effect == Decide(s, trusted, q, p, current, depth, e) && !effect.Keep?
    requires Neighbour(e, current) in s.records
    requires Reach(Links(s, trusted, q.through, q.claimsOnly), q.root, Neighbour(e, current))
    ensures IsJustified(s, trusted, q, Apply(s, p, current, depth, e, effect), reached)
  {
    hide Links, Reach, Effective, IsJustified, Neighbour;
    var n := Neighbour(e, current);
    match effect
    case Cut(reason, node) => ReasonIsJustified(s, trusted, q, p, n, depth, reason, node, reached);
    case Take => TakeIsJustified(s, trusted, q, p, e, reached);
    case TakeNew =>
      NewIsJustified(s, trusted, q, p, n, depth, reached);
      TakeIsJustified(s, trusted, q, WithRecord(s, p, n, depth), e, reached);
  }

  function WithRecord(s: Store, p: Progress, n: Id, depth: nat): Progress {
    p.(records := p.records + {n}, queue := p.queue + [(n, depth + 1)],
       bytes := p.bytes + if n in s.records then s.records[n].bytes else 0)
  }

  lemma ReasonIsJustified(s: Store, trusted: Trust, q: Query, p: Progress, n: Id, depth: nat, reason: Limit, node: Id,
                          reached: nat)
    requires IsJustified(s, trusted, q, p, reached) && depth <= reached && n in s.records
    requires Reach(Links(s, trusted, q.through, q.claimsOnly), q.root, n)
    requires match reason
      case EdgeLimit => |p.edges| >= q.maximumEdges
      case DepthLimit => depth >= q.maximumDepth
      case NodeLimit => n !in p.records && |p.records| >= q.maximumNodes
      case RecordByteLimit => n !in p.records && p.bytes + s.records[n].bytes > MAX_RERANK_BYTES
    ensures IsJustified(s, trusted, q, p.(reasons := p.reasons + {reason}, frontier := p.frontier + {node}), reached)
  {
    hide Links, Reach, RowsAt;
    if n !in p.records {
      assert LeftOut(s, trusted, q, p.records, n);
    }
  }

  lemma TakeIsJustified(s: Store, trusted: Trust, q: Query, p: Progress, e: EdgeKey, reached: nat)
    requires IsJustified(s, trusted, q, p, reached)
    ensures IsJustified(s, trusted, q, p.(edges := p.edges + {e}), reached)
  {
    MoreEdges(s, trusted, q, p.records, p.edges, e);
    hide TooManyEdges, TooManyNodes, TooManyBytes;
  }

  lemma NewIsJustified(s: Store, trusted: Trust, q: Query, p: Progress, n: Id, depth: nat, reached: nat)
    requires IsJustified(s, trusted, q, p, reached) && n in s.records && n !in p.records
    requires |p.records| < q.maximumNodes && p.bytes + s.records[n].bytes <= MAX_RERANK_BYTES
    ensures IsJustified(s, trusted, q, WithRecord(s, p, n, depth), reached)
  {
    hide TooManyEdges, TooManyNodes, TooManyBytes;
    SizeWith(s.records, p.records, n);
    OneMoreRecord(s, trusted, q, p, n);
    EdgesWithRecord(s, trusted, q, p.records, p.edges, n);
  }

  lemma MoreEdges(s: Store, trusted: Trust, q: Query, records: set<Id>, edges: set<EdgeKey>, e: EdgeKey)
    ensures TooManyEdges(s, trusted, q, records, edges) ==> TooManyEdges(s, trusted, q, records, edges + {e})
  {
    assert edges + {e} == edges + ({e} - edges);
  }

  lemma EdgesWithRecord(s: Store, trusted: Trust, q: Query, records: set<Id>, edges: set<EdgeKey>, id: Id)
    ensures TooManyEdges(s, trusted, q, records, edges) ==> TooManyEdges(s, trusted, q, records + {id}, edges)
  {
  }

  lemma OneMoreRecord(s: Store, trusted: Trust, q: Query, p: Progress, n: Id)
    requires n in s.records && n !in p.records && |p.records| < q.maximumNodes
    requires p.bytes + s.records[n].bytes <= MAX_RERANK_BYTES
    ensures !TooManyNodes(s, trusted, q, p.records)
    ensures TooManyBytes(s, trusted, q, p.records, p.bytes) ==>
              TooManyBytes(s, trusted, q, p.records + {n}, p.bytes + s.records[n].bytes)
  {
    hide Reach, Links;
    if TooManyBytes(s, trusted, q, p.records, p.bytes) {
      var id :| LeftOut(s, trusted, q, p.records, id) && p.bytes + s.records[id].bytes > MAX_RERANK_BYTES;
      assert LeftOut(s, trusted, q, p.records + {n}, id);
    }
  }

  ghost function Left(s: Store, p: Progress): nat {
    |s.records.Keys - p.records|
  }

  /** What one row does to the progress. */
  datatype Effect = Keep | Cut(reason: Limit, node: Id) | Take | TakeNew

  function Decide(s: Store, trusted: Trust, q: Query, p: Progress, current: Id, depth: nat, e: EdgeKey): Effect {
    if q.claimsOnly && !Effective(s, trusted, e) then Keep
    else if e in p.edges then Keep
    else if |p.edges| >= q.maximumEdges then Cut(EdgeLimit, current)
    else
      var n := Neighbour(e, current);
      if n in p.records then Take
      else if depth >= q.maximumDepth then Cut(DepthLimit, n)
      else if |p.records| >= q.maximumNodes then Cut(NodeLimit, n)
      else if n !in s.records || p.bytes + s.records[n].bytes > MAX_RERANK_BYTES then Cut(RecordByteLimit, n)
      else TakeNew
  }

  function Apply(s: Store, p: Progress, current: Id, depth: nat, e: EdgeKey, effect: Effect): Progress {
    var n := Neighbour(e, current);
    match effect
    case Keep => p
    case Cut(reason, node) => p.(reasons := p.reasons + {reason}, frontier := p.frontier + {node})
    case Take => p.(edges := p.edges + {e})
    case TakeNew =>
      p.(edges := p.edges + {e}, records := p.records + {n}, queue := p.queue + [(n, depth + 1)],
         bytes := p.bytes + if n in s.records then s.records[n].bytes else 0)
  }

  lemma NeighbourReached(s: Store, trusted: Trust, q: Query, current: Id, e: EdgeKey)
    requires Reach(Links(s, trusted, q.through, q.claimsOnly), q.root, current)
    requires IsEdge(s, trusted, q.through, q.claimsOnly, e) && (e.source == current || e.target == current)
    ensures Reach(Links(s, trusted, q.through, q.claimsOnly), q.root, Neighbour(e, current))
    ensures Visible(s, trusted, q.through, Neighbour(e, current))
  {
    var g, n := Links(s, trusted, q.through, q.claimsOnly), Neighbour(e, current);
    assert Joins(s, trusted, q.through, q.claimsOnly, e, current, n);
    ReachEdge(g, current, n);
    ReachTrans(g, q.root, current, n);
  }

  lemma RowIsSound(s: Store, trusted: Trust, q: Query, p: Progress, current: Id, depth: nat, e: EdgeKey)
    requires Sound(s, trusted, q, p) && current in p.records && depth <= q.maximumDepth
    requires IsRow(s, trusted, q.through, q.claimsOnly, e) && (e.source == current || e.target == current)
    ensures Sound(s, trusted, q, Apply(s, p, current, depth, e, Decide(s, trusted, q, p, current, depth, e)))
  {
    var effect := Decide(s, trusted, q, p, current, depth, e);
    if effect.Take? || effect.TakeNew? {
      assert IsEdge(s, trusted, q.through, q.claimsOnly, e);
      NeighbourReached(s, trusted, q, current, e);
      hide Reach, Visible, IsEdge, Links, Effective, IsRow;
      TakeIsSound(s, trusted, q, p, current, depth, e, effect);
    }
  }

  lemma TakeIsSound(s: Store, trusted: Trust, q: Query, p: Progress, current: Id, depth: nat, e: EdgeKey,
                    effect: Effect)
    requires Sound(s, trusted, q, p) && current in p.records && (e.source == current || e.target == current)
    requires IsEdge(s, trusted, q.through, q.claimsOnly, e) && e !in p.edges && |p.edges| < q.maximumEdges
    requires Reach(Links(s, trusted, q.through, q.claimsOnly), q.root, Neighbour(e, current))
    requires Visible(s, trusted, q.through, Neighbour(e, current))
    requires (effect == Take && Neighbour(e, current) in p.records)
             || (effect == TakeNew && |p.records| < q.maximumNodes && depth < q.maximumDepth)
    ensures Sound(s, trusted, q, Apply(s, p, current, depth, e, effect))
  {
    hide Reach, Visible, IsEdge, Links;
  }

  ghost predicate Same(p: Progress, r: Progress) {
    && p.edges <= r.edges && p.records <= r.records && (r.reasons == {} ==> p.reasons == {})
    && |p.queue| <= |r.queue| && r.queue[..|p.queue|] == p.queue
    && (forall id :: id in r.records && id !in p.records ==> Queued(r.queue, id))
    && |r.queue| - |p.queue| == |r.records| - |p.records|
  }

  lemma RowGrows(s: Store, trusted: Trust, q: Query, p: Progress, current: Id, depth: nat, e: EdgeKey)
    ensures var r := Apply(s, p, current, depth, e, Decide(s, trusted, q, p, current, depth, e));
      && Same(p, r)
      && (r.reasons == {} && IsEdge(s, trusted, q.through, q.claimsOnly, e) ==> e in r.edges)
  {
    hide Effective, Same, Visible;
    ApplySame(s, p, current, depth, e, Decide(s, trusted, q, p, current, depth, e));
  }

  lemma ApplySame(s: Store, p: Progress, current: Id, depth: nat, e: EdgeKey, effect: Effect)
    requires effect.TakeNew? ==> Neighbour(e, current) !in p.records
    ensures Same(p, Apply(s, p, current, depth, e, effect))
  {
    var r := Apply(s, p, current, depth, e, effect);
    if effect.TakeNew? {
      assert r.queue[|p.queue|].0 == Neighbour(e, current);
    }
    assert r.queue[..|p.queue|] == p.queue;
  }

  lemma SameTrans(p: Progress, q: Progress, r: Progress)
    requires Same(p, q) && Same(q, r)
    ensures Same(p, r)
  {
    assert r.queue[..|p.queue|] == q.queue[..|p.queue|];
    forall id | id in r.records && id !in p.records
      ensures Queued(r.queue, id)
    {
      if id in q.records {
        var i :| 0 <= i < |q.queue| && q.queue[i].0 == id;
        assert r.queue[i].0 == id;
      }
    }
  }

  lemma SameSelf(p: Progress)
    ensures Same(p, p)
  {
    assert p.queue[..|p.queue|] == p.queue;
  }

  /** The loop over the rows at one node, in any order, up to the row limit. */
  method Expand(s: Store, trusted: Trust, q: Query, p0: Progress, current: Id, depth: nat, ghost reached: nat)
    returns (p: Progress)
    requires Sound(s, trusted, q, p0) && current in p0.records && depth <= q.maximumDepth
    requires depth <= reached && IsJustified(s, trusted, q, p0, reached)
    ensures Sound(s, trusted, q, p) && Same(p0, p) && IsJustified(s, trusted, q, p, reached)
    ensures p.reasons == {} ==> Expanded(s, trusted, q, p, current)
  {
    hide Sound, Same, Effective, Visible, Decide, Apply, IsRow, IsJustified;
    p := p0;
    SameSelf(p);
    var rows := RowsAt(s, trusted, q.through, q.claimsOnly, current);
    if |rows| > q.maximumEdges {
      CutIsSound(s, trusted, q, p, current);
      CutIsJustified(s, trusted, q, p, current, reached);
      p := p.(reasons := p.reasons + {EdgeLimit}, frontier := p.frontier + {current});
    }
    var left, taken := rows, 0;
    while left != {} && taken < q.maximumEdges
      invariant left <= rows && taken + |left| == |rows|
      invariant Sound(s, trusted, q, p) && Same(p0, p) && current in p.records
      invariant IsJustified(s, trusted, q, p, reached)
      invariant |rows| > q.maximumEdges ==> p.reasons != {}
      invariant p.reasons == {} ==>
        forall e :: e in rows && e !in left && IsEdge(s, trusted, q.through, q.claimsOnly, e) ==> e in p.edges
      decreases |left|
    {
      var e :| e in left;
      RowIsSound(s, trusted, q, p, current, depth, e);
      RowIsJustified(s, trusted, q, p, current, depth, e, reached);
      RowGrows(s, trusted, q, p, current, depth, e);
      var r := Apply(s, p, current, depth, e, Decide(s, trusted, q, p, current, depth, e));
      SameTrans(p0, p, r);
      SameFacts(p, r);
      p := r;
      left := left - {e};
      taken := taken + 1;
    }
    if p.reasons == {} {
      assert left == {};
      forall e | IsEdge(s, trusted, q.through, q.claimsOnly, e) && (e.source == current || e.target == current)
        ensures e in p.edges
      {
        assert e in rows;
      }
    }
  }

  lemma SameFacts(p: Progress, r: Progress)
    requires Same(p, r)
    ensures p.edges <= r.edges && p.records <= r.records && (r.reasons == {} ==> p.reasons == {})
  {
  }

  lemma CutIsJustified(s: Store, trusted: Trust, q: Query, p: Progress, current: Id, reached: nat)
    requires IsJustified(s, trusted, q, p, reached) && current in p.records
    requires |RowsAt(s, trusted, q.through, q.claimsOnly, current)| > q.maximumEdges
    ensures IsJustified(s, trusted, q, p.(reasons := p.reasons + {EdgeLimit}, frontier := p.frontier + {current}),
                        reached)
  {
    hide RowsAt, TooManyNodes, TooManyBytes;
  }

  lemma CutIsSound(s: Store, trusted: Trust, q: Query, p: Progress, current: Id)
    requires Sound(s, trusted, q, p)
    ensures var r := p.(reasons := p.reasons + {EdgeLimit}, frontier := p.frontier + {current});
      Sound(s, trusted, q, r) && Same(p, r)
  {
    assert p.queue[..|p.queue|] == p.queue;
  }

  ghost predicate Exploring(s: Store, trusted: Trust, q: Query, p: Progress) {
    Sound(s, trusted, q, p) && Complete(s, trusted, q, p)
  }

  lemma ExploreStart(s: Store, trusted: Trust, q: Query)
    requires Visible(s, trusted, q.through, q.root)
    ensures Exploring(s, trusted, q, Progress({q.root}, {}, {}, {}, [(q.root, 0)], s.records[q.root].bytes))
  {
    ReachSelf(Links(s, trusted, q.through, q.claimsOnly), q.root);
    assert [(q.root, 0)][0].0 == q.root;
  }

  /** Taking the front of the queue in hand. */
  lemma Dequeue(s: Store, trusted: Trust, q: Query, p: Progress)
    requires Exploring(s, trusted, q, p) && p.queue != []
    ensures Sound(s, trusted, q, p.(queue := p.queue[1..]))
    ensures p.queue[0].0 in p.records && p.queue[0].1 <= q.maximumDepth
  {
    var r := p.(queue := p.queue[1..]);
    assert forall i :: 0 <= i < |r.queue| ==> r.queue[i] == p.queue[i + 1];
  }

  lemma ExploreStep(s: Store, trusted: Trust, q: Query, p: Progress, r: Progress)
    requires Exploring(s, trusted, q, p) && p.queue != []
    requires Sound(s, trusted, q, r) && Same(p.(queue := p.queue[1..]), r)
    requires r.reasons == {} ==> Expanded(s, trusted, q, r, p.queue[0].0)
    ensures Exploring(s, trusted, q, r)
    ensures Left(s, r) < Left(s, p) || (Left(s, r) == Left(s, p) && |r.queue| < |p.queue|)
  {
    hide Sound, Expanded;
    ExploreComplete(s, trusted, q, p, r);
    RecordsStored(s, trusted, q, r);
    LeftFalls(s, p, r);
  }

  lemma ExploreComplete(s: Store, trusted: Trust, q: Query, p: Progress, r: Progress)
    requires Complete(s, trusted, q, p) && p.queue != [] && Same(p.(queue := p.queue[1..]), r)
    requires r.reasons == {} ==> Expanded(s, trusted, q, r, p.queue[0].0)
    ensures Complete(s, trusted, q, r)
  {
    hide Expanded, Queued;
    if r.reasons == {} {
      forall id | id in r.records
        ensures Queued(r.queue, id) || Expanded(s, trusted, q, r, id)
      {
        if id in p.records {
          if Queued(p.queue, id) {
            StillQueued(p.queue, r.queue, id);
          } else {
            StillExpanded(s, trusted, q, p, r, id);
          }
        }
      }
    }
  }

  lemma StillQueued(before: seq<(Id, nat)>, after: seq<(Id, nat)>, id: Id)
    requires Queued(before, id) && |before| - 1 <= |after| && after[..|before| - 1] == before[1..]
    ensures Queued(after, id) || id == before[0].0
  {
    var i :| 0 <= i < |before| && before[i].0 == id;
    if i > 0 {
      assert after[..|before| - 1][i - 1] == before[1..][i - 1] == before[i];
      assert after[i - 1].0 == id;
    }
  }

  lemma StillExpanded(s: Store, trusted: Trust, q: Query, p: Progress, r: Progress, id: Id)
    requires Expanded(s, trusted, q, p, id) && p.edges <= r.edges
    ensures Expanded(s, trusted, q, r, id)
  {
    hide IsEdge;
  }

  lemma RecordsStored(s: Store, trusted: Trust, q: Query, p: Progress)
    requires Sound(s, trusted, q, p)
    ensures p.records <= s.records.Keys
  {
  }

  lemma LeftFalls(s: Store, p: Progress, r: Progress)
    requires p.records <= r.records <= s.records.Keys
    ensures Left(s, r) <= Left(s, p)
    ensures Left(s, r) == Left(s, p) ==> |r.records| == |p.records|
  {
    SubsetCount(s.records.Keys - r.records, s.records.Keys - p.records);
    if Left(s, r) == Left(s, p) {
      assert r.records == s.records.Keys - (s.records.Keys - r.records);
      assert p.records == s.records.Keys - (s.records.Keys - p.records);
    }
  }

  lemma SubsetCount(a: set<Id>, b: set<Id>)
    requires a <= b
    ensures |a| <= |b| && (|a| == |b| ==> a == b)
  {
    assert b == a + (b - a);
  }

  /** With nothing cut off and nothing left to expand, the view is the whole component. */
  lemma WholeComponent(s: Store, trusted: Trust, q: Query, p: Progress)
    requires Exploring(s, trusted, q, p) && p.queue == [] && p.reasons == {}
    ensures forall id :: id in p.records <==> Reach(Links(s, trusted, q.through, q.claimsOnly), q.root, id)
    ensures forall e :: e in p.edges <==> IsEdge(s, trusted, q.through, q.claimsOnly, e) && e.source in p.records
  {
    hide IsEdge;
    var g := Links(s, trusted, q.through, q.claimsOnly);
    forall id | id in p.records
      ensures Expanded(s, trusted, q, p, id)
    {
      assert !Queued(p.queue, id);
    }
    forall n, m | n in p.records && m in Succ(g, n)
      ensures m in p.records
    {
      var e :| Joins(s, trusted, q.through, q.claimsOnly, e, n, m);
      assert Expanded(s, trusted, q, p, n);
      assert e in p.edges;
    }
    forall id | Reach(g, q.root, id)
      ensures id in p.records
    {
      ReachStays(g, p.records, q.root, id);
    }
    forall e | IsEdge(s, trusted, q.through, q.claimsOnly, e) && e.source in p.records
      ensures e in p.edges
    {
      assert Expanded(s, trusted, q, p, e.source);
    }
  }

  /** What every view keeps, cut off or not. */
  ghost predicate BoundedView(s: Store, trusted: Trust, q: Query, v: View) {
    && q.root in v.records && |v.records| <= Max(1, q.maximumNodes) && |v.edges| <= q.maximumEdges
    && v.depthReached <= q.maximumDepth
    && (forall id :: id in v.records ==> Visible(s, trusted, q.through, id)
                                         && Reach(Links(s, trusted, q.through, q.claimsOnly), q.root, id))
    && (forall e :: e in v.edges ==> IsEdge(s, trusted, q.through, q.claimsOnly, e)
                                     && e.source in v.records && e.target in v.records)
  }

  ghost predicate ExactView(s: Store, trusted: Trust, q: Query, v: View) {
    && (forall id :: id in v.records <==> Reach(Links(s, trusted, q.through, q.claimsOnly), q.root, id))
    && (forall e :: e in v.edges <==> IsEdge(s, trusted, q.through, q.claimsOnly, e) && e.source in v.records)
  }

  lemma BoundsHold(s: Store, trusted: Trust, q: Query, p: Progress, depth: nat, cycle: bool)
    requires Sound(s, trusted, q, p) && depth <= q.maximumDepth
    ensures BoundedView(s, trusted, q, View(p.records, p.edges, p.reasons, p.frontier, depth, p.bytes, cycle))
  {
  }

  method EdgeList(edges: set<EdgeKey>) returns (r: seq<Cycles.Edge>)
    ensures forall a, b :: Cycles.Edge(a, b) in r <==> exists e :: e in edges && e.source == a && e.target == b
  {
    r := [];
    var left := edges;
    while left != {}
      invariant left <= edges
      invariant forall a, b :: Cycles.Edge(a, b) in r <==>
                  exists e :: e in edges - left && e.source == a && e.target == b
      decreases |left|
    {
      var e :| e in left;
      var more := r + [Cycles.Edge(e.source, e.target)];
      forall a, b
        ensures Cycles.Edge(a, b) in more <==>
                  exists x :: x in edges - (left - {e}) && x.source == a && x.target == b
      {
        assert edges - (left - {e}) == edges - left + {e};
        assert Cycles.Edge(a, b) in more <==> Cycles.Edge(a, b) in r || (e.source == a && e.target == b);
      }
      r, left := more, left - {e};
    }
    assert edges - {} == edges;
  }

  ghost function SourceIds(edges: set<EdgeKey>): (r: set<Id>)
    ensures forall n :: n in r <==> exists e :: e in edges && e.source == n
  {
    set e | e in edges :: e.source
  }

  ghost function Arrows(edges: set<EdgeKey>): Graph {
    map n | n in SourceIds(edges) :: set e | e in edges && e.source == n :: e.target
  }

  /** The edge list spans the arrows of the view. */
  lemma ArrowsOf(edges: set<EdgeKey>, list: seq<Cycles.Edge>)
    requires forall a, b :: Cycles.Edge(a, b) in list <==> exists e :: e in edges && e.source == a && e.target == b
    ensures Cycles.EdgeGraph(list) == Arrows(edges)
  {
    var g, h := Cycles.EdgeGraph(list), Arrows(edges);
    forall n
      ensures n in g <==> n in h
      ensures n in g ==> g[n] == h[n]
    {
      if n in g {
        var e :| e in list && e.source == n;
        assert Cycles.Edge(e.source, e.target) in list;
      }
      if n in h {
        var e :| e in edges && e.source == n;
        assert Cycles.Edge(n, e.target) in list;
        assert Cycles.Edge(n, e.target).source == n;
        assert n in Cycles.Sources(list);
      }
      if n in g {
        forall m
          ensures m in g[n] <==> m in h[n]
        {
          assert m in g[n] <==> Cycles.Edge(n, m) in list;
        }
      }
    }
  }

  /** _graph_rows: always within its limits, exact when it gives no reason for cutting off,
      and with the right answer about cycles among what it shows. */
  method GraphRows(s: Store, trusted: Trust, q: Query) returns (r: Result<View>)
    ensures r.Failure? <==> !Visible(s, trusted, q.through, q.root)
    ensures r.Success? ==> BoundedView(s, trusted, q, r.value)
    ensures r.Success? && r.value.reasons == {} ==> ExactView(s, trusted, q, r.value)
    ensures r.Success? ==> Justified(s, trusted, q, r.value.records, r.value.edges, r.value.reasons, r.value.bytes,
                                     r.value.depthReached)
    ensures r.Success? ==> (r.value.cycle <==> Cycles.CycleFrom(Arrows(r.value.edges), r.value.records))
  {
    hide Sound, Complete, Exploring, Same, BoundedView, ExactView, Expanded, Visible, Arrows, Cycles.EdgeGraph, Left,
      Cycles.CycleFrom, IsJustified, Justified;
    if !Visible(s, trusted, q.through, q.root) {
      return Failure(RecordNotAdmitted);
    }
    RootStored(s, trusted, q);
    var p := Progress({q.root}, {}, {}, {}, [(q.root, 0)], s.records[q.root].bytes);
    ExploreStart(s, trusted, q);
    var depthReached := 0;
    JustifiedStart(s, trusted, q, p);
    while p.queue != []
      invariant Exploring(s, trusted, q, p) && depthReached <= q.maximumDepth
      invariant IsJustified(s, trusted, q, p, depthReached)
      decreases Left(s, p), |p.queue|
    {
      if |p.edges| >= q.maximumEdges {
        break;
      }
      var current, depth := p.queue[0].0, p.queue[0].1;
      Dequeue(s, trusted, q, p);
      JustifiedDeeper(s, trusted, q, p, depthReached, if depth > depthReached then depth else depthReached);
      if depth > depthReached {
        depthReached := depth;
      }
      var next := Expand(s, trusted, q, p.(queue := p.queue[1..]), current, depth, depthReached);
      ExploreStep(s, trusted, q, p, next);
      p := next;
    }
    if p.queue != [] {
      var rest := p;
      p := p.(reasons := p.reasons + {EdgeLimit}, frontier := p.frontier + set x | x in p.queue :: x.0);
      SoundOfCut(s, trusted, q, rest, p);
      EndIsJustified(s, trusted, q, rest, p, depthReached);
      assert EdgeLimit in p.reasons;
    } else {
      if p.reasons == {} {
        WholeComponent(s, trusted, q, p);
      }
      SoundOfCut(s, trusted, q, p, p);
    }
    var list := EdgeList(p.edges);
    ArrowsOf(p.edges, list);
    var cycle := Cycles.DirectedCycle(p.records, list);
    BoundsHold(s, trusted, q, p, depthReached, cycle);
    JustifiedIs(s, trusted, q, p, depthReached);
    var view := View(p.records, p.edges, p.reasons, p.frontier, depthReached, p.bytes, cycle);
    if p.reasons == {} {
      ExactFrom(s, trusted, q, view);
    }
    r := Success(view);
  }

  lemma JustifiedStart(s: Store, trusted: Trust, q: Query, p: Progress)
    requires q.root in s.records && p.records == {q.root} && p.edges == {} && p.reasons == {}
    requires p.bytes == s.records[q.root].bytes
    ensures IsJustified(s, trusted, q, p, 0)
  {
    assert {} + {q.root} == {q.root};
    SizeWith(s.records, {}, q.root);
  }

  /** Neither the queue nor a greater depth matters. */
  lemma JustifiedDeeper(s: Store, trusted: Trust, q: Query, p: Progress, depth: nat, deeper: nat)
    requires IsJustified(s, trusted, q, p, depth) && depth <= deeper
    ensures IsJustified(s, trusted, q, p.(queue := p.queue[if p.queue == [] then 0 else 1..]), deeper)
  {
    hide TooManyEdges, TooManyNodes, TooManyBytes;
  }

  lemma EndIsJustified(s: Store, trusted: Trust, q: Query, p: Progress, r: Progress, depth: nat)
    requires IsJustified(s, trusted, q, p, depth) && |p.edges| >= q.maximumEdges
    requires r.records == p.records && r.edges == p.edges && r.bytes == p.bytes && r.reasons == p.reasons + {EdgeLimit}
    ensures IsJustified(s, trusted, q, r, depth)
  {
    hide TooManyNodes, TooManyBytes, RowsAt;
  }

  lemma JustifiedIs(s: Store, trusted: Trust, q: Query, p: Progress, depth: nat)
    requires IsJustified(s, trusted, q, p, depth)
    ensures Justified(s, trusted, q, p.records, p.edges, p.reasons, p.bytes, depth)
  {
  }

  lemma RootStored(s: Store, trusted: Trust, q: Query)
    requires Visible(s, trusted, q.through, q.root)
    ensures q.root in s.records
  {
  }

  lemma SoundOfCut(s: Store, trusted: Trust, q: Query, p: Progress, r: Progress)
    requires Exploring(s, trusted, q, p)
    requires r.records == p.records && r.edges == p.edges && r.queue == p.queue
    ensures Sound(s, trusted, q, r)
  {
  }

  lemma ExactFrom(s: Store, trusted: Trust, q: Query, v: View)
    requires forall id :: id in v.records <==> Reach(Links(s, trusted, q.through, q.claimsOnly), q.root, id)
    requires forall e :: e in v.edges <==> IsEdge(s, trusted, q.through, q.claimsOnly, e) && e.source in v.records
    ensures ExactView(s, trusted, q, v)
  {
  }

  // ----- replacement walk -----

  /** A replacement within the snapshot, when there is one. */
  predicate ReplacesWithin(s: Store, trusted: Trust, through: Option<nat>, source: Id, kind: RelationKind, target: Id) {
    Replaces(s, trusted, source, kind, target)
    && (through.Some? ==> source in s.ingest && target in s.ingest
                          && s.ingest[source] <= through.value && s.ingest[target] <= through.value)
  }

  /** One row of the query: a source, once for each kind of replacement it makes. */
  function ReplacementRows(s: Store, trusted: Trust, through: Option<nat>, target: Id): (r: set<(RelationKind, Id)>)
    ensures forall x :: x in r <==>
              (x.0 == Resolves || x.0 == Supersedes) && ReplacesWithin(s, trusted, through, x.1, x.0, target)
  {
    set kind, id | kind in {Resolves, Supersedes} && id in s.records
                   && ReplacesWithin(s, trusted, through, id, kind, target) :: (kind, id)
  }

  /** From a record to the records that replace it. */
  ghost function Replacements(s: Store, trusted: Trust, through: Option<nat>): Graph {
    map t | t in s.records :: set x | x in ReplacementRows(s, trusted, through, t) :: x.1
  }

  lemma ReplacementSucc(s: Store, trusted: Trust, through: Option<nat>, target: Id, source: Id)
    ensures source in Succ(Replacements(s, trusted, through), target) <==>
              exists kind :: (kind, source) in ReplacementRows(s, trusted, through, target)
  {
    var rows := ReplacementRows(s, trusted, through, target);
    if kind :| (kind, source) in rows {
      assert target in s.records;
      assert (kind, source).1 == source;
    }
    if source in Succ(Replacements(s, trusted, through), target) {
      var x :| x in rows && x.1 == source;
      assert (x.0, source) in rows;
    }
  }

  ghost predicate FromRoots(g: Graph, roots: set<Id>, id: Id) {
    exists r :: r in roots && Reach(g, r, id)
  }

  lemma FromRootsEdge(g: Graph, roots: set<Id>, a: Id, b: Id)
    requires FromRoots(g, roots, a) && b in Succ(g, a)
    ensures FromRoots(g, roots, b)
  {
    var r :| r in roots && Reach(g, r, a);
    ReachEdge(g, a, b);
    ReachTrans(g, r, a, b);
  }

  datatype Walk = Walk(queue: seq<(Id, nat)>, witnesses: set<Id>, truncated: bool)

  ghost predicate Walking(g: Graph, roots: set<Id>, maximum: nat, w: Walk) {
    && w.witnesses !! roots && |w.witnesses| <= maximum
    && (forall id :: id in w.witnesses ==> FromRoots(g, roots, id))
    && (forall i :: 0 <= i < |w.queue| ==> w.queue[i].0 in roots + w.witnesses)
  }

  /** Whatever has been seen is still queued, or everything that replaces it has been seen. */
  ghost predicate Followed(g: Graph, roots: set<Id>, w: Walk) {
    !w.truncated ==> forall id :: id in roots + w.witnesses ==>
      Queued(w.queue, id) || Succ(g, id) <= roots + w.witnesses
  }

  ghost predicate Extends(v: Walk, w: Walk) {
    && v.witnesses <= w.witnesses && (v.truncated ==> w.truncated)
    && |v.queue| <= |w.queue| && w.queue[..|v.queue|] == v.queue
    && (!w.truncated ==> forall id :: id in w.witnesses && id !in v.witnesses ==> Queued(w.queue, id))
    && |w.queue| - |v.queue| <= |w.witnesses| - |v.witnesses|
  }

  /** A chain of so many replacements leads from a root to the record. */
  ghost predicate ReachedIn(g: Graph, roots: set<Id>, id: Id, depth: nat) {
    exists p :: IsPath(g, p) && p[0] in roots && p[|p| - 1] == id && |p| == depth + 1
  }

  ghost predicate Tracked(g: Graph, roots: set<Id>, w: Walk) {
    forall i :: 0 <= i < |w.queue| ==>
      w.queue[i].1 < MAX_TREE_DEPTH && ReachedIn(g, roots, w.queue[i].0, w.queue[i].1)
  }

  /** Why the walk may be cut off: a chain as long as the depth limit, or a record with more
      replacement rows than witnesses are still wanted beside those found. */
  ghost predicate Excused(s: Store, trusted: Trust, through: Option<nat>, roots: set<Id>, maximum: nat, found: nat) {
    var g := Replacements(s, trusted, through);
    || (exists id :: ReachedIn(g, roots, id, MAX_TREE_DEPTH))
    || (exists target :: FromRoots(g, roots, target)
                      && |ReplacementRows(s, trusted, through, target)| + found > maximum)
  }

  ghost predicate Fair(s: Store, trusted: Trust, through: Option<nat>, roots: set<Id>, maximum: nat, w: Walk) {
    && Tracked(Replacements(s, trusted, through), roots, w)
    && (w.truncated ==> Excused(s, trusted, through, roots, maximum, |w.witnesses|))
  }

  lemma ReachedNext(g: Graph, roots: set<Id>, target: Id, depth: nat, source: Id)
    requires ReachedIn(g, roots, target, depth) && source in Succ(g, target)
    ensures ReachedIn(g, roots, source, depth + 1)
  {
    var p :| IsPath(g, p) && p[0] in roots && p[|p| - 1] == target && |p| == depth + 1;
    var r := p + [source];
    assert IsPath(g, r) by {
      forall i | 0 <= i < |r| - 1
        ensures r[i + 1] in Succ(g, r[i])
      {
        if i < |p| - 1 {
          assert p[i + 1] in Succ(g, p[i]);
        }
      }
    }
    assert r[0] in roots && r[|r| - 1] == source && |r| == depth + 1 + 1;
  }

  lemma ExcusedMore(s: Store, trusted: Trust, through: Option<nat>, roots: set<Id>, maximum: nat, found: nat, more: nat)
    requires Excused(s, trusted, through, roots, maximum, found) && found <= more
    ensures Excused(s, trusted, through, roots, maximum, more)
  {
    hide Replacements, FromRoots, ReachedIn;
  }

  lemma MeetIsFair(s: Store, trusted: Trust, through: Option<nat>, roots: set<Id>, maximum: nat, w: Walk,
                   target: Id, source: Id, depth: nat)
    requires Fair(s, trusted, through, roots, maximum, w) && source !in w.witnesses && depth < MAX_TREE_DEPTH
    requires ReachedIn(Replacements(s, trusted, through), roots, target, depth)
    requires source in Succ(Replacements(s, trusted, through), target)
    ensures Fair(s, trusted, through, roots, maximum, Meet(w, source, depth))
  {
    ReachedNext(Replacements(s, trusted, through), roots, target, depth, source);
    MeetAdds(w, source, depth);
    hide Replacements, FromRoots, ReachedIn, Succ;
    if w.truncated {
      ExcusedMore(s, trusted, through, roots, maximum, |w.witnesses|, |w.witnesses| + 1);
    }
  }

  /** Cutting off where more rows stand than are wanted. */
  lemma CutIsFair(s: Store, trusted: Trust, through: Option<nat>, roots: set<Id>, maximum: nat, v: Walk, target: Id)
    requires Fair(s, trusted, through, roots, maximum, v)
    requires FromRoots(Replacements(s, trusted, through), roots, target)
    requires |ReplacementRows(s, trusted, through, target)| + |v.witnesses| > maximum
    ensures Fair(s, trusted, through, roots, maximum, v.(truncated := true))
  {
    hide Replacements, FromRoots, ReachedIn, ReplacementRows;
  }

  lemma PopIsFair(s: Store, trusted: Trust, through: Option<nat>, roots: set<Id>, maximum: nat, v: Walk)
    requires Fair(s, trusted, through, roots, maximum, v) && v.queue != []
    ensures Fair(s, trusted, through, roots, maximum, v.(queue := v.queue[1..]))
    ensures v.queue[0].1 < MAX_TREE_DEPTH
    ensures ReachedIn(Replacements(s, trusted, through), roots, v.queue[0].0, v.queue[0].1)
  {
    hide Replacements, ReachedIn, Excused;
    var w := v.(queue := v.queue[1..]);
    assert forall i :: 0 <= i < |w.queue| ==> w.queue[i] == v.queue[i + 1];
  }

  lemma StartIsFair(s: Store, trusted: Trust, through: Option<nat>, roots: set<Id>, maximum: nat)
    ensures Fair(s, trusted, through, roots, maximum, Walk(RootQueue(roots), {}, false))
  {
    var g, queue := Replacements(s, trusted, through), RootQueue(roots);
    hide Replacements;
    RootsQueued(roots);
    forall i | 0 <= i < |queue|
      ensures queue[i].1 < MAX_TREE_DEPTH && ReachedIn(g, roots, queue[i].0, queue[i].1)
    {
      assert Queued(queue, queue[i].0);
      assert IsPath(g, [queue[i].0]);
    }
  }

  function Meet(w: Walk, source: Id, depth: nat): Walk {
    if depth + 1 < MAX_TREE_DEPTH then
      Walk(w.queue + [(source, depth + 1)], w.witnesses + {source}, w.truncated)
    else Walk(w.queue, w.witnesses + {source}, true)
  }

  lemma MeetStep(g: Graph, roots: set<Id>, maximum: nat, v: Walk, w: Walk, target: Id, source: Id, depth: nat)
    requires Walking(g, roots, maximum, w) && Extends(v, w) && source !in roots + w.witnesses
    requires FromRoots(g, roots, target) && source in Succ(g, target) && |w.witnesses| < maximum
    ensures Walking(g, roots, maximum, Meet(w, source, depth)) && Extends(v, Meet(w, source, depth))
  {
    hide Walking, Extends;
    MeetWalks(g, roots, maximum, w, target, source, depth);
    MeetExtends(v, w, source, depth);
  }

  lemma MeetWalks(g: Graph, roots: set<Id>, maximum: nat, w: Walk, target: Id, source: Id, depth: nat)
    requires Walking(g, roots, maximum, w) && source !in roots + w.witnesses
    requires FromRoots(g, roots, target) && source in Succ(g, target) && |w.witnesses| < maximum
    ensures Walking(g, roots, maximum, Meet(w, source, depth))
  {
    hide FromRoots, Succ;
    FromRootsEdge(g, roots, target, source);
  }

  lemma MeetExtends(v: Walk, w: Walk, source: Id, depth: nat)
    requires Extends(v, w) && source !in w.witnesses
    ensures Extends(v, Meet(w, source, depth))
  {
    var n := Meet(w, source, depth);
    assert n.queue[..|v.queue|] == w.queue[..|v.queue|];
    if !n.truncated {
      assert n.queue[|w.queue|].0 == source;
      forall id | id in n.witnesses && id !in v.witnesses
        ensures Queued(n.queue, id)
      {
        if id in w.witnesses {
          var i :| 0 <= i < |w.queue| && w.queue[i].0 == id;
          assert n.queue[i].0 == id;
        }
      }
    }
  }

  /** The rows at one target, at most as many as witnesses are still wanted. */
  method Visit(s: Store, trusted: Trust, through: Option<nat>, roots: set<Id>, maximum: nat, v: Walk,
               target: Id, depth: nat) returns (w: Walk)
    requires Walking(Replacements(s, trusted, through), roots, maximum, v) && |v.witnesses| < maximum
    requires FromRoots(Replacements(s, trusted, through), roots, target) && depth < MAX_TREE_DEPTH
    requires ReachedIn(Replacements(s, trusted, through), roots, target, depth)
    requires Fair(s, trusted, through, roots, maximum, v)
    ensures Fair(s, trusted, through, roots, maximum, w)
    ensures Walking(Replacements(s, trusted, through), roots, maximum, w) && Extends(v, w)
    ensures !w.truncated ==> Succ(Replacements(s, trusted, through), target) <= roots + w.witnesses
  {
    hide Walking, Extends, Replacements, FromRoots, Meet, ReplacesWithin, Succ, Fair, ReachedIn;
    var rows := ReplacementRows(s, trusted, through, target);
    var remaining := maximum - |v.witnesses|;
    w := if |rows| > remaining then v.(truncated := true) else v;
    if |rows| > remaining {
      CutIsFair(s, trusted, through, roots, maximum, v, target);
    }
    ExtendsStart(Replacements(s, trusted, through), roots, maximum, v, |rows| > remaining);
    var left, taken := rows, 0;
    while left != {} && taken < remaining
      invariant left <= rows && taken + |left| == |rows| && taken <= remaining
      invariant Walking(Replacements(s, trusted, through), roots, maximum, w) && Extends(v, w)
      invariant Fair(s, trusted, through, roots, maximum, w)
      invariant |w.witnesses| <= |v.witnesses| + taken
      invariant |rows| > remaining ==> w.truncated
      invariant forall x :: x in rows && x !in left ==> x.1 in roots + w.witnesses
      decreases |left|
    {
      var x :| x in left;
      if x.1 !in roots && x.1 !in w.witnesses {
        assert (x.0, x.1) in rows;
        ReplacementSucc(s, trusted, through, target, x.1);
        MeetStep(Replacements(s, trusted, through), roots, maximum, v, w, target, x.1, depth);
        MeetIsFair(s, trusted, through, roots, maximum, w, target, x.1, depth);
        MeetAdds(w, x.1, depth);
        w := Meet(w, x.1, depth);
      }
      left := left - {x};
      taken := taken + 1;
    }
    if !w.truncated {
      forall source | source in Succ(Replacements(s, trusted, through), target)
        ensures source in roots + w.witnesses
      {
        ReplacementSucc(s, trusted, through, target, source);
        var kind :| (kind, source) in rows;
        assert (kind, source).1 == source;
      }
    }
  }

  lemma MeetAdds(w: Walk, source: Id, depth: nat)
    requires source !in w.witnesses
    ensures Meet(w, source, depth).witnesses == w.witnesses + {source}
    ensures |Meet(w, source, depth).witnesses| == |w.witnesses| + 1
    ensures w.truncated ==> Meet(w, source, depth).truncated
  {
  }

  lemma ExtendsStart(g: Graph, roots: set<Id>, maximum: nat, v: Walk, cut: bool)
    requires Walking(g, roots, maximum, v)
    ensures var w := if cut then v.(truncated := true) else v;
      Walking(g, roots, maximum, w) && Extends(v, w)
  {
    assert v.queue[..|v.queue|] == v.queue;
  }

  lemma WalkStep(g: Graph, roots: set<Id>, maximum: nat, v: Walk, w: Walk)
    requires Walking(g, roots, maximum, v) && Followed(g, roots, v) && v.queue != []
    requires Walking(g, roots, maximum, w) && Extends(v.(queue := v.queue[1..]), w)
    requires !w.truncated ==> Succ(g, v.queue[0].0) <= roots + w.witnesses
    ensures Followed(g, roots, w)
    ensures |v.witnesses| < |w.witnesses| || (|v.witnesses| == |w.witnesses| && |w.queue| < |v.queue|)
  {
    hide FromRoots, Succ;
    var t := v.(queue := v.queue[1..]);
    if !w.truncated {
      forall id | id in roots + w.witnesses
        ensures Queued(w.queue, id) || Succ(g, id) <= roots + w.witnesses
      {
        if id in roots + v.witnesses && Queued(v.queue, id) && id != v.queue[0].0 {
          var i :| 0 <= i < |v.queue| && v.queue[i].0 == id;
          assert t.queue[i - 1] == v.queue[i];
          assert w.queue[i - 1].0 == id;
        }
      }
    }
    SubsetCount(v.witnesses, w.witnesses);
  }

  lemma PopWalk(g: Graph, roots: set<Id>, maximum: nat, v: Walk)
    requires Walking(g, roots, maximum, v) && v.queue != []
    ensures Walking(g, roots, maximum, v.(queue := v.queue[1..]))
    ensures FromRoots(g, roots, v.queue[0].0)
  {
    hide Succ;
    var w := v.(queue := v.queue[1..]);
    assert forall i :: 0 <= i < |w.queue| ==> w.queue[i] == v.queue[i + 1];
    var id := v.queue[0].0;
    if id in roots {
      ReachSelf(g, id);
    }
  }

  lemma WalkStart(g: Graph, roots: set<Id>, maximum: nat, queue: seq<(Id, nat)>)
    requires forall id :: id in roots <==> Queued(queue, id)
    ensures Walking(g, roots, maximum, Walk(queue, {}, false)) && Followed(g, roots, Walk(queue, {}, false))
  {
    assert forall i :: 0 <= i < |queue| ==> Queued(queue, queue[i].0);
  }

  lemma WalkDone(g: Graph, roots: set<Id>, maximum: nat, w: Walk)
    requires Walking(g, roots, maximum, w) && Followed(g, roots, w) && w.queue == [] && !w.truncated
    ensures forall id :: id in w.witnesses <==> id !in roots && FromRoots(g, roots, id)
  {
    assert ClosedUnder(g, roots + w.witnesses) by {
      assert forall id :: !Queued(w.queue, id);
    }
    forall id | id !in roots && FromRoots(g, roots, id)
      ensures id in w.witnesses
    {
      var r :| r in roots && Reach(g, r, id);
      ReachStays(g, roots + w.witnesses, r, id);
    }
  }

  function RootQueue(roots: set<Id>): (r: seq<(Id, nat)>) {
    var ids := SetToSorted(roots);
    seq(|ids|, i requires 0 <= i < |ids| => (ids[i], 0))
  }

  lemma RootsQueued(roots: set<Id>)
    ensures forall id :: id in roots <==> Queued(RootQueue(roots), id)
  {
    var ids := SetToSorted(roots);
    forall id | id in roots
      ensures Queued(RootQueue(roots), id)
    {
      var i :| 0 <= i < |ids| && ids[i] == id;
      assert RootQueue(roots)[i].0 == id;
    }
    forall id | Queued(RootQueue(roots), id)
      ensures id in roots
    {
      var i :| 0 <= i < |ids| && RootQueue(roots)[i].0 == id;
      assert ids[i] == id;
      assert id in ids;
    }
  }

  /** The records that replace the roots, directly or in a chain. */
  ghost function AllReplacing(s: Store, trusted: Trust, through: Option<nat>, roots: set<Id>): (r: set<Id>)
    ensures forall id :: id in r <==>
              id in s.records && id !in roots && FromRoots(Replacements(s, trusted, through), roots, id)
  {
    set id | id in s.records && id !in roots && FromRoots(Replacements(s, trusted, through), roots, id)
  }

  lemma {:induction false} ReplacingIsStored(s: Store, trusted: Trust, through: Option<nat>, roots: set<Id>, id: Id)
    requires id !in roots && FromRoots(Replacements(s, trusted, through), roots, id)
    ensures id in s.records
  {
    hide ReplacesWithin;
    var g := Replacements(s, trusted, through);
    var r :| r in roots && Reach(g, r, id);
    var p :| IsPath(g, p) && p[0] == r && p[|p| - 1] == id;
    var before := p[|p| - 2];
    assert p[|p| - 2 + 1] in Succ(g, p[|p| - 2]);
    ReplacementSucc(s, trusted, through, before, id);
    var kind :| (kind, id) in ReplacementRows(s, trusted, through, before);
    RowIsStored(s, trusted, through, before, kind, id);
  }

  lemma RowIsStored(s: Store, trusted: Trust, through: Option<nat>, target: Id, kind: RelationKind, source: Id)
    requires (kind, source) in ReplacementRows(s, trusted, through, target)
    ensures source in s.records
  {
  }

  lemma FoundAreFew(s: Store, trusted: Trust, through: Option<nat>, roots: set<Id>, found: set<Id>)
    requires forall id :: id in found ==> id !in roots && FromRoots(Replacements(s, trusted, through), roots, id)
    ensures |found| <= |AllReplacing(s, trusted, through, roots)|
  {
    hide Replacements, FromRoots;
    forall id | id in found
      ensures id in AllReplacing(s, trusted, through, roots)
    {
      ReplacingIsStored(s, trusted, through, roots, id);
    }
    SubsetCount(found, AllReplacing(s, trusted, through, roots));
  }

  /** The walk is cut off only for cause: a chain as long as the depth limit, a record with too many
      replacement rows, or as many replacements as may be returned. */
  ghost predicate CutForCause(s: Store, trusted: Trust, roots: set<Id>, through: Option<nat>, maximum: nat) {
    var all := |AllReplacing(s, trusted, through, roots)|;
    all >= maximum || Excused(s, trusted, through, roots, maximum, all)
  }

  /** _current_state_witness_ids: current records that replace the roots, directly or in a
      chain; exactly all of them when nothing was cut off. */
  method WitnessIds(s: Store, trusted: Trust, roots: set<Id>, through: Option<nat>, maximum: nat)
    returns (witnesses: set<Id>, truncated: bool)
    ensures |witnesses| <= maximum
    ensures forall id :: id in witnesses ==>
              id !in roots && FromRoots(Replacements(s, trusted, through), roots, id) && !Historical(s, trusted, id)
    ensures !truncated ==> forall id :: id in witnesses <==>
              id !in roots && FromRoots(Replacements(s, trusted, through), roots, id) && !Historical(s, trusted, id)
    ensures truncated ==> CutForCause(s, trusted, roots, through, maximum)
  {
    hide Walking, Followed, Extends, Replacements, FromRoots, Historical, RootQueue, Fair, ReachedIn, CutForCause;
    RootsQueued(roots);
    var w := Walk(RootQueue(roots), {}, false);
    WalkStart(Replacements(s, trusted, through), roots, maximum, w.queue);
    StartIsFair(s, trusted, through, roots, maximum);
    while w.queue != [] && |w.witnesses| < maximum
      invariant Walking(Replacements(s, trusted, through), roots, maximum, w)
      invariant Followed(Replacements(s, trusted, through), roots, w)
      invariant Fair(s, trusted, through, roots, maximum, w)
      invariant |w.witnesses| <= maximum
      decreases maximum - |w.witnesses|, |w.queue|
    {
      var target, depth := w.queue[0].0, w.queue[0].1;
      PopWalk(Replacements(s, trusted, through), roots, maximum, w);
      PopIsFair(s, trusted, through, roots, maximum, w);
      var next := Visit(s, trusted, through, roots, maximum, w.(queue := w.queue[1..]), target, depth);
      WalkStep(Replacements(s, trusted, through), roots, maximum, w, next);
      WalkBound(Replacements(s, trusted, through), roots, maximum, next);
      w := next;
    }
    truncated := w.truncated || w.queue != [];
    WalkBound(Replacements(s, trusted, through), roots, maximum, w);
    if !truncated {
      WalkDone(Replacements(s, trusted, through), roots, maximum, w);
    }
    EndIsFair(s, trusted, roots, through, maximum, w);
    var historical := HistoricalIds(s, trusted, w.witnesses);
    witnesses := w.witnesses - historical;
    SubsetCount(witnesses, w.witnesses);
  }

  lemma EndIsFair(s: Store, trusted: Trust, roots: set<Id>, through: Option<nat>, maximum: nat, w: Walk)
    requires Fair(s, trusted, through, roots, maximum, w)
    requires Walking(Replacements(s, trusted, through), roots, maximum, w)
    requires w.queue == [] || |w.witnesses| >= maximum
    ensures w.truncated || w.queue != [] ==> CutForCause(s, trusted, roots, through, maximum)
  {
    hide Tracked, Excused, Replacements, FromRoots;
    FoundAreFew(s, trusted, through, roots, w.witnesses);
    if w.truncated {
      ExcusedMore(s, trusted, through, roots, maximum, |w.witnesses|, |AllReplacing(s, trusted, through, roots)|);
    }
  }

  lemma WalkBound(g: Graph, roots: set<Id>, maximum: nat, w: Walk)
    requires Walking(g, roots, maximum, w)
    ensures |w.witnesses| <= maximum
    ensures forall id :: id in w.witnesses ==> id !in roots && FromRoots(g, roots, id)
  {
  }
}
