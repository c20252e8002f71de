/** Exactly when the walk through a closure takes it in whole, what a page therefore sends, and exactly
    when a call fails. */
module DeliveryWalks {
  import opened Wrappers
  import opened Graphs
  import opened VaultStore
  import opened Delivery

  // ----- what a root still needs -----

  /** Left out of the walk: on the page already, or omitted and not the root itself. */
  predicate Out(q: Request, have: set<Id>, root: Id, id: Id) {
    id in have || (id in OmitSet(q) && id != root)
  }

  /** Relations, with nothing behind the records left out. */
  function Cut(s: Store, q: Request, have: set<Id>, root: Id): (g: Graph)
    ensures g.Keys == s.records.Keys
  {
    map id | id in s.records :: if Out(q, have, root, id) then {} else Targets(s.records[id])
  }

  ghost predicate Met(s: Store, q: Request, have: set<Id>, root: Id, id: Id) {
    Reach(Cut(s, q, have, root), root, id)
  }

  ghost predicate Needed(s: Store, q: Request, have: set<Id>, root: Id, id: Id) {
    Met(s, q, have, root, id) && !Out(q, have, root, id)
  }

  ghost function NeededSet(s: Store, q: Request, have: set<Id>, root: Id): (r: set<Id>)
    ensures forall id :: id in r <==> id in s.records && Needed(s, q, have, root, id)
  {
    set id | id in s.records && Needed(s, q, have, root, id)
  }

  /** Strong enough for the feed, and not refused by the boundary. */
  predicate Allowed(s: Store, trusted: Trust, q: Request, id: Id) {
    RankOf(s, trusted, id) >= Floor(q) && Refusal(q, id).None?
  }

  predicate AllowedSet(s: Store, trusted: Trust, q: Request, ids: set<Id>) {
    forall id :: id in ids ==> Allowed(s, trusted, q, id)
  }

  /** Everything met is allowed, what is needed holds proofs within the bound, and it fits. */
  ghost predicate Clear(s: Store, trusted: Trust, q: Request, have: set<Id>, root: Id) {
    && (forall id :: Met(s, q, have, root, id) && id !in have ==> Allowed(s, trusted, q, id))
    && (forall id :: Needed(s, q, have, root, id) ==> ProofBytes(s, id) <= MAX_PROOF_BYTES)
    && |NeededSet(s, q, have, root)| <= RecordLimit(q)
    && Total(s, q, NeededSet(s, q, have, root)) <= q.maximumBytes - Envelope(q)
  }

  /** Without a boundary, or with a record to spare. */
  ghost predicate Roomy(s: Store, q: Request, have: set<Id>, root: Id) {
    q.boundary.None? || |NeededSet(s, q, have, root)| < RecordLimit(q)
  }

  // ----- the walk -----

  /** Part way: what was taken in is needed and in order, and everything it points at is somewhere. */
  ghost predicate Walking(s: Store, trusted: Trust, q: Request, root: Id, have: set<Id>, additions: set<Id>,
                          bytes: nat, external: set<Id>, pending: seq<Id>)
  {
    && additions <= NeededSet(s, q, have, root) && external <= OmitSet(q)
    && AllowedSet(s, trusted, q, additions) && AllowedSet(s, trusted, q, external)
    && (forall id :: id in additions ==> ProofBytes(s, id) <= MAX_PROOF_BYTES)
    && (forall id :: id in pending ==> Met(s, q, have, root, id))
    && Accounted(s, root, have, additions, external, pending)
    && bytes == Total(s, q, additions) && |additions| <= RecordLimit(q) && bytes <= q.maximumBytes - Envelope(q)
  }

  ghost predicate Accounted(s: Store, root: Id, have: set<Id>, additions: set<Id>, external: set<Id>,
                            pending: seq<Id>) {
    && (root in have || root in additions || root in pending)
    && forall id, t :: id in additions && id in s.records && t in Targets(s.records[id]) ==>
         t in additions || t in have || t in external || t in pending
  }

  lemma WalkStarts(s: Store, trusted: Trust, q: Request, root: Id, have: set<Id>, external: set<Id>)
    requires external <= OmitSet(q) && AllowedSet(s, trusted, q, external) && RequestRefused(s, q).None?
    ensures Walking(s, trusted, q, root, have, {}, 0, external, [root])
  {
    ReachSelf(Cut(s, q, have, root), root);
  }

  lemma TargetsMet(s: Store, q: Request, have: set<Id>, root: Id, id: Id)
    requires Needed(s, q, have, root, id) && id in s.records
    ensures forall t :: t in Targets(s.records[id]) ==> Met(s, q, have, root, t)
  {
    hide Reach;
    forall t | t in Targets(s.records[id])
      ensures Met(s, q, have, root, t)
    {
      ReachEdge(Cut(s, q, have, root), id, t);
      ReachTrans(Cut(s, q, have, root), root, id, t);
    }
  }

  /** With nothing pending, what was taken in is all that is needed. */
  lemma NothingLeft(s: Store, trusted: Trust, q: Request, root: Id, have: set<Id>, additions: set<Id>, bytes: nat,
                    external: set<Id>)
    requires Valid(s) && Walking(s, trusted, q, root, have, additions, bytes, external, [])
    ensures additions == NeededSet(s, q, have, root) && Clear(s, trusted, q, have, root)
  {
    hide Reach, Total, ProofBytes, Allowed, RecordLimit, Envelope, Valid;
    var g := Cut(s, q, have, root);
    var all := additions + have + (external - {root});
    Closes(s, trusted, q, root, have, additions, external);
    forall id | Met(s, q, have, root, id)
      ensures id in all
    {
      ReachStays(g, all, root, id);
    }
    assert forall id :: Needed(s, q, have, root, id) ==> id in additions;
  }

  lemma Closes(s: Store, trusted: Trust, q: Request, root: Id, have: set<Id>, additions: set<Id>, external: set<Id>)
    requires external <= OmitSet(q) && Accounted(s, root, have, additions, external, [])
    ensures var all := additions + have + (external - {root});
      root in all && ClosedUnder(Cut(s, q, have, root), all)
  {
  }

  /** Where the walk halts, something met is not clear. */
  lemma HaltIsUnclear(s: Store, trusted: Trust, q: Request, root: Id, have: set<Id>, additions: set<Id>, bytes: nat,
                      external: set<Id>, id: Id)
    requires Valid(s) && additions <= NeededSet(s, q, have, root) && bytes == Total(s, q, additions)
    requires Met(s, q, have, root, id) && id !in have && id !in additions
    requires Halts(s, trusted, q, root, additions, bytes, external, id).Some?
    requires Roomy(s, q, have, root)
    ensures !Clear(s, trusted, q, have, root)
  {
    hide Total, ProofBytes, RecordLimit, Envelope, Cost, Met, RankOf;
    if Clear(s, trusted, q, have, root) {
      assert Allowed(s, trusted, q, id);
      AllowedIsStored(s, trusted, q, id);
      if id in OmitSet(q) && id != root {
        TotalMore(s, q, additions, NeededSet(s, q, have, root));
        assert false;
      } else {
        assert id in NeededSet(s, q, have, root);
        TotalMore(s, q, additions + {id}, NeededSet(s, q, have, root));
        TotalPlus(s, q, additions, id);
        assert false;
      }
    }
  }

  lemma AllowedIsStored(s: Store, trusted: Trust, q: Request, id: Id)
    requires Valid(s) && Allowed(s, trusted, q, id)
    ensures id in s.records
  {
  }

  lemma WalkingSkip(s: Store, trusted: Trust, q: Request, root: Id, have: set<Id>, additions: set<Id>, bytes: nat,
                    external: set<Id>, rest: seq<Id>, id: Id)
    requires Walking(s, trusted, q, root, have, additions, bytes, external, rest + [id])
    requires id in have || id in additions || (id != root && id in external)
    ensures Walking(s, trusted, q, root, have, additions, bytes, external, rest)
  {
    hide Met, AllowedSet, ProofBytes, RankOf;
    assert forall x :: x in rest + [id] <==> x in rest || x == id;
  }

  lemma WalkingOmit(s: Store, trusted: Trust, q: Request, root: Id, have: set<Id>, additions: set<Id>, bytes: nat,
                    external: set<Id>, rest: seq<Id>, id: Id)
    requires Walking(s, trusted, q, root, have, additions, bytes, external, rest + [id])
    requires id != root && id in OmitSet(q) && Allowed(s, trusted, q, id)
    ensures Walking(s, trusted, q, root, have, additions, bytes, external + {id}, rest)
  {
    hide Met, ProofBytes, RankOf, Allowed;
    assert forall x :: x in rest + [id] <==> x in rest || x == id;
  }

  lemma WalkingAdd(s: Store, trusted: Trust, q: Request, root: Id, have: set<Id>, additions: set<Id>, bytes: nat,
                   external: set<Id>, rest: seq<Id>, id: Id)
    requires Walking(s, trusted, q, root, have, additions, bytes, external, rest + [id])
    requires id in s.records && id !in have && id !in additions && !(id != root && id in OmitSet(q))
    requires Allowed(s, trusted, q, id) && ProofBytes(s, id) <= MAX_PROOF_BYTES && |additions| < RecordLimit(q)
    requires bytes + Cost(s, q, id) <= q.maximumBytes - Envelope(q)
    ensures Walking(s, trusted, q, root, have, additions + {id}, bytes + Cost(s, q, id), external,
                    rest + TargetSeq(s.records[id]))
  {
    hide Met, ProofBytes, RankOf, Allowed, Total, Cost, Targets, RecordLimit, Envelope, OmitSet, Accounted;
    assert id in rest + [id];
    assert Needed(s, q, have, root, id);
    TargetsMet(s, q, have, root, id);
    TotalPlus(s, q, additions, id);
    AccountedMore(s, root, have, additions, external, rest, id);
    assert forall x :: x in rest ==> x in rest + [id];
    assert |additions + {id}| == |additions| + 1;
  }

  lemma AccountedMore(s: Store, root: Id, have: set<Id>, additions: set<Id>, external: set<Id>, rest: seq<Id>, id: Id)
    requires Accounted(s, root, have, additions, external, rest + [id]) && id in s.records
    ensures Accounted(s, root, have, additions + {id}, external, rest + TargetSeq(s.records[id]))
  {
    hide Targets;
    assert forall x :: x in rest + [id] <==> x in rest || x == id;
  }

  /** Wherever it has got to, the walk ends whole only for a clear root, with exactly what was needed;
      and for a clear root it does, though beside a boundary a closure that just fills the record limit
      may be cut off before its last omitted record. */
  lemma {:induction false} WalkIsWhole(s: Store, trusted: Trust, q: Request, root: Id, have: set<Id>,
                                       additions: set<Id>, bytes: nat, external: set<Id>, pending: seq<Id>)
    requires Valid(s) && Walking(s, trusted, q, root, have, additions, bytes, external, pending)
    ensures var o := Walk(s, trusted, q, root, have, additions, bytes, external, pending);
      && (o.Whole? ==> Clear(s, trusted, q, have, root) && o.additions == NeededSet(s, q, have, root))
      && (o.Whole? ==> o.bytes == Total(s, q, NeededSet(s, q, have, root)))
      && (Clear(s, trusted, q, have, root) && Roomy(s, q, have, root) ==> o.Whole?)
      && (!o.Broken? ==> o.external <= OmitSet(q) && AllowedSet(s, trusted, q, o.external))
    decreases s.records.Keys - additions, OmitSet(q) - external, |pending|
  {
    hide Walk, Halts, Walking, Clear, Met, RankOf, Cost, TargetSeq, Valid, RecordLimit, Envelope, ProofBytes,
      OmitSet, Allowed, NeededSet, Total;
    WalkingGives(s, trusted, q, root, have, additions, bytes, external, pending);
    if pending == [] {
      WalkEnds(s, trusted, q, root, have, additions, bytes, external);
      NothingLeft(s, trusted, q, root, have, additions, bytes, external);
    } else {
      var id, rest := pending[|pending| - 1], pending[..|pending| - 1];
      assert pending == rest + [id];
      WalkIs(s, trusted, q, root, have, additions, bytes, external, rest, id);
      if id in have || id in additions || (q.boundary.Some? && id != root && id in external) {
        WalkingSkip(s, trusted, q, root, have, additions, bytes, external, rest, id);
        WalkIsWhole(s, trusted, q, root, have, additions, bytes, external, rest);
      } else if Halts(s, trusted, q, root, additions, bytes, external, id).Some? {
        HaltKeeps(s, trusted, q, root, additions, bytes, external, id);
        if Roomy(s, q, have, root) {
          HaltIsUnclear(s, trusted, q, root, have, additions, bytes, external, id);
        }
      } else {
        Passes(s, trusted, q, root, additions, bytes, external, id);
        PassIsAllowed(s, trusted, q, id);
        AllowedIsStored(s, trusted, q, id);
        if id != root && id in OmitSet(q) {
          OmitIsNew(q, root, external, id);
          WalkingOmit(s, trusted, q, root, have, additions, bytes, external, rest, id);
          WalkIsWhole(s, trusted, q, root, have, additions, bytes, external + {id}, rest);
        } else {
          WalkingAdd(s, trusted, q, root, have, additions, bytes, external, rest, id);
          WalkIsWhole(s, trusted, q, root, have, additions + {id}, bytes + Cost(s, q, id), external,
                      rest + TargetSeq(s.records[id]));
        }
      }
    }
  }

  lemma PassIsAllowed(s: Store, trusted: Trust, q: Request, id: Id)
    requires RankOf(s, trusted, id) >= Floor(q) && Refusal(q, id).None?
    ensures Allowed(s, trusted, q, id)
  {
  }

  lemma HaltKeeps(s: Store, trusted: Trust, q: Request, root: Id, additions: set<Id>, bytes: nat, external: set<Id>,
                  id: Id)
    requires Halts(s, trusted, q, root, additions, bytes, external, id).Some?
    ensures var o := Halts(s, trusted, q, root, additions, bytes, external, id).value;
      !o.Whole? && (o.Blocked? ==> o.external == external)
  {
    hide RankOf, ProofBytes, Cost;
  }

  lemma WalkingGives(s: Store, trusted: Trust, q: Request, root: Id, have: set<Id>, additions: set<Id>, bytes: nat,
                     external: set<Id>, pending: seq<Id>)
    requires Walking(s, trusted, q, root, have, additions, bytes, external, pending)
    ensures additions <= NeededSet(s, q, have, root) && external <= OmitSet(q) && AllowedSet(s, trusted, q, external)
    ensures bytes == Total(s, q, additions) && additions <= s.records.Keys
    ensures forall id :: id in pending ==> Met(s, q, have, root, id)
  {
    hide Total, Met, AllowedSet;
  }

  /** From a root, with what the page has: whole exactly when clear. */
  lemma RootIsWhole(s: Store, trusted: Trust, q: Request, root: Id, have: set<Id>, external: set<Id>)
    requires Valid(s) && RequestRefused(s, q).None? && external <= OmitSet(q) && AllowedSet(s, trusted, q, external)
    requires Roomy(s, q, have, root)
    ensures var o := WalkFrom(s, trusted, q, root, have, external);
      && (o.Whole? <==> Clear(s, trusted, q, have, root))
      && (o.Whole? ==> o.additions == NeededSet(s, q, have, root) && o.bytes == Total(s, q, o.additions))
  {
    hide Walk, Walking, Clear, AllowedSet, Total;
    WalkStarts(s, trusted, q, root, have, external);
    WalkIsWhole(s, trusted, q, root, have, {}, 0, external, [root]);
  }

  // ----- one page -----

  /** From a row on, with nothing taken in yet: rows blocked for their rank are passed, and the first
      other one is too large for the request or needs its certificates again. */
  predicate StuckFrom(s: Store, trusted: Trust, q: Request, rows: seq<nat>, k: nat, external: set<Id>)
    requires RowsIn(s, rows) && k <= |rows|
    decreases |rows| - k
  {
    k < |rows| && k < q.limit &&
    match WalkFrom(s, trusted, q, s.log[rows[k]], {}, external)
    case Whole(_, _, _) => false
    case Broken(_) => false
    case Blocked(reason, seen) =>
      if reason == BudgetExceeded || reason == RevalidationRequired then true
      else StuckFrom(s, trusted, q, rows, k + 1, seen)
  }

  lemma {:induction false} FillRefuses(s: Store, trusted: Trust, q: Request, rows: seq<nat>, k: nat, have: set<Id>,
                                       blocked: seq<Disposition>, used: nat, external: set<Id>)
    requires Valid(s) && SoundRequest(s, trusted, q) && RequestRefused(s, q).None? && q.complete
    requires !OversizedProof(s) && RowsIn(s, rows) && k <= |rows| && external <= OmitSet(q)
    requires have == {} ==> used == 0
    ensures Fill(s, trusted, q, rows, k, have, blocked, used, external).Refused? <==>
              have == {} && StuckFrom(s, trusted, q, rows, k, external)
    decreases |rows| - k
  {
    hide Valid, SoundRequest, RequestRefused, OversizedProof, OmitSet, WalkFrom, RowStep, Fill;
    if k == |rows| || k >= q.limit {
      FillEnds(s, trusted, q, rows, k, have, blocked, used, external);
    } else {
      FillStep(s, trusted, q, rows, k, have, blocked, used, external);
      RowDecides(s, trusted, q, rows[k], have, blocked, used, external);
      match RowStep(s, trusted, q, rows[k], have, blocked, used, external) {
        case Refuse(_) =>
        case Stop =>
        case Go(h, b, u, x) =>
          FillRefuses(s, trusted, q, rows, k + 1, h, b, u, x);
      }
    }
  }

  /** One complete row, in a store whose proofs all fit: what it refuses, and what it leaves. */
  lemma RowDecides(s: Store, trusted: Trust, q: Request, row: nat, have: set<Id>, blocked: seq<Disposition>,
                   used: nat, external: set<Id>)
    requires Valid(s) && SoundRequest(s, trusted, q) && RequestRefused(s, q).None? && q.complete
    requires !OversizedProof(s) && row < |s.log| && external <= OmitSet(q) && (have == {} ==> used == 0)
    ensures var o := WalkFrom(s, trusted, q, s.log[row], have, external);
      var step := RowStep(s, trusted, q, row, have, blocked, used, external);
      && !o.Broken?
      && (step.Refuse? <==> have == {} && o.Blocked? && o.reason in {BudgetExceeded, RevalidationRequired})
      && (step.Stop? ==> have != {})
      && (step.Go? ==> step.external <= OmitSet(q))
      && (step.Go? && o.Blocked? ==> step.have == have && step.used == used && step.external == o.external)
      && (step.Go? && o.Whole? ==> step.have != {})
  {
    RowIsTruthful(s, trusted, q, s.log[row], have, external);
    hide WalkFrom, Valid, SoundRequest, OversizedProof, RankOf, OmitSet, Total, InClosure, BlockedRightly;
  }

  lemma RowIsTruthful(s: Store, trusted: Trust, q: Request, root: Id, have: set<Id>, external: set<Id>)
    requires Valid(s) && SoundRequest(s, trusted, q) && RequestRefused(s, q).None? && external <= OmitSet(q)
    ensures Truthful(s, trusted, q, root, have, WalkFrom(s, trusted, q, root, have, external))
  {
    hide Walk, Valid, SoundRequest, Collecting, Truthful;
    Budgets(s, q);
    CollectStart(s, trusted, q, root, have, external);
    WalkIsTruthful(s, trusted, q, root, have, {}, 0, external, [root]);
  }

  /** A complete call over a store whose proofs all fit is refused by a row exactly when the first row
      not blocked for its rank is, with nothing taken in yet, too large or in need of certificates. */
  lemma CompleteFails(s: Store, trusted: Trust, q: Request)
    requires Valid(s) && SoundRequest(s, trusted, q) && RequestRefused(s, q).None? && q.complete && !OversizedProof(s)
    ensures FillPage(s, trusted, q).Refused? <==> StuckFrom(s, trusted, q, Asking(s, trusted, q), 0, {})
  {
    hide Valid, SoundRequest, OversizedProof, Fill, StuckFrom, Asking;
    FillRefuses(s, trusted, q, Asking(s, trusted, q), 0, {}, [], Envelope(q), {});
  }

  /** Rows only ever add to the page. */
  lemma {:induction false} FillKeeps(s: Store, trusted: Trust, q: Request, rows: seq<nat>, k: nat, have: set<Id>,
                                     blocked: seq<Disposition>, used: nat, external: set<Id>)
    requires RowsIn(s, rows) && k <= |rows|
    ensures var f := Fill(s, trusted, q, rows, k, have, blocked, used, external);
      f.Filled? ==> have <= f.have && k <= f.rows <= |rows|
    decreases |rows| - k
  {
    hide WalkFrom, DispositionCost, RecordLimit;
    if k == |rows| || k >= q.limit {
      FillEnds(s, trusted, q, rows, k, have, blocked, used, external);
    } else {
      FillStep(s, trusted, q, rows, k, have, blocked, used, external);
      var step := RowStep(s, trusted, q, rows[k], have, blocked, used, external);
      if step.Go? {
        FillKeeps(s, trusted, q, rows, k + 1, step.have, step.blocked, step.used, step.external);
      }
    }
  }

  /** With something taken in, only an oversized proof refuses the call. */
  lemma {:induction false} FillGoesOn(s: Store, trusted: Trust, q: Request, rows: seq<nat>, k: nat, have: set<Id>,
                                      blocked: seq<Disposition>, used: nat, external: set<Id>)
    requires Valid(s) && SoundRequest(s, trusted, q) && RequestRefused(s, q).None?
    requires !OversizedProof(s) && RowsIn(s, rows) && k <= |rows| && external <= OmitSet(q) && have != {}
    ensures Fill(s, trusted, q, rows, k, have, blocked, used, external).Filled?
    decreases |rows| - k
  {
    hide Valid, SoundRequest, RequestRefused, OversizedProof, OmitSet, WalkFrom, RowStep, Fill;
    if k == |rows| || k >= q.limit {
      FillEnds(s, trusted, q, rows, k, have, blocked, used, external);
    } else {
      FillStep(s, trusted, q, rows, k, have, blocked, used, external);
      HeldGoesOn(s, trusted, q, rows[k], have, blocked, used, external);
      var step := RowStep(s, trusted, q, rows[k], have, blocked, used, external);
      if step.Go? {
        FillGoesOn(s, trusted, q, rows, k + 1, step.have, step.blocked, step.used, step.external);
      }
    }
  }

  lemma HeldGoesOn(s: Store, trusted: Trust, q: Request, row: nat, have: set<Id>, blocked: seq<Disposition>,
                   used: nat, external: set<Id>)
    requires Valid(s) && SoundRequest(s, trusted, q) && RequestRefused(s, q).None?
    requires !OversizedProof(s) && row < |s.log| && external <= OmitSet(q) && have != {}
    ensures var step := RowStep(s, trusted, q, row, have, blocked, used, external);
      !step.Refuse? && (step.Go? ==> step.have != {} && step.external <= OmitSet(q))
  {
    RowIsTruthful(s, trusted, q, s.log[row], have, external);
    hide WalkFrom, Valid, SoundRequest, OversizedProof, RankOf, OmitSet, Total, InClosure, BlockedRightly,
      DispositionCost, RecordLimit;
  }

  /** The next readable entry, if its closure is clear, is sent by any call within its ranges that its
      boundary certifies, as long as no stored proof is over the page bound. */
  lemma NextIsSent(s: Store, trusted: Trust, q: Request)
    requires Valid(s) && SoundRequest(s, trusted, q) && RequestRefused(s, q).None? && !OversizedProof(s)
    requires var rows := Asking(s, trusted, q);
      rows != [] && Clear(s, trusted, q, {}, s.log[rows[0]]) && Roomy(s, q, {}, s.log[rows[0]])
    ensures var f := FillPage(s, trusted, q); f.Filled? && s.log[Asking(s, trusted, q)[0]] in f.have
  {
    var rows := Asking(s, trusted, q);
    var root := s.log[rows[0]];
    AskingIs(s, trusted, q);
    RootIsWhole(s, trusted, q, root, {}, {});
    RootIsNeeded(s, trusted, q, root);
    hide Walk, Valid, SoundRequest, OversizedProof, Clear, Roomy, Asking, Fill, Total, WalkFrom, NeededSet;
    FillStep(s, trusted, q, rows, 0, {}, [], Envelope(q), {});
    RowIsTruthful(s, trusted, q, root, {}, {});
    var o := WalkFrom(s, trusted, q, root, {}, {});
    FirstRowFits(s, trusted, q, rows[0], o);
    FillGoesOn(s, trusted, q, rows, 1, o.additions, [], Envelope(q) + o.bytes, o.external);
    FillKeeps(s, trusted, q, rows, 1, o.additions, [], Envelope(q) + o.bytes, o.external);
  }

  lemma FirstRowFits(s: Store, trusted: Trust, q: Request, row: nat, o: Outcome)
    requires row < |s.log| && o == WalkFrom(s, trusted, q, s.log[row], {}, {}) && o.Whole?
    requires WholeClosure(s, trusted, q, s.log[row], {}, o)
    ensures RowStep(s, trusted, q, row, {}, [], Envelope(q), {})
            == Go(o.additions, [], Envelope(q) + o.bytes, o.external)
    ensures o.external <= OmitSet(q)
  {
    hide WalkFrom, Total, InClosure, RankOf;
    assert {} + o.additions == o.additions;
  }

  lemma RootIsNeeded(s: Store, trusted: Trust, q: Request, root: Id)
    requires Valid(s) && Clear(s, trusted, q, {}, root)
    ensures root in NeededSet(s, q, {}, root)
  {
    ReachSelf(Cut(s, q, {}, root), root);
    hide Reach;
    assert Met(s, q, {}, root, root);
    AllowedIsStored(s, trusted, q, root);
  }
}
