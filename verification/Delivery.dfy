/** Pages of the delivery log: each carries whole relation closures. */
module Delivery {
  import opened Wrappers
  import opened Graphs
  import opened Sorting
  import opened VaultStore

  datatype Reason = NotAdmitted | Unsigned | BudgetExceeded | RevalidationRequired

  /** A log row the page passes without sending its record. */
  datatype Disposition = Disposition(id: Id, sequence: nat, reason: Reason)

  /** What a dependency boundary answers for the ids of one snapshot: those already
      published to the stream with a closure that still validates, those it refuses,
      and whether its closing validation of the page succeeds. */
  datatype Boundary = Boundary(omit: set<Id>, refused: map<Id, Reason>, certified: bool)

  datatype Request = Request(after: int, limit: int, maximumBytes: int, requireVerified: bool,
                             complete: bool, recordLimit: int, boundary: Option<Boundary>)

  /** blocked and cursor speak of log sequences, which start at 1. */
  datatype Page = Page(after: nat, cursor: nat, more: bool, records: map<Id, Record>,
                       blocked: seq<Disposition>, external: set<Id>)

  const WIRE_BYTES: nat := 3 * 1024 * 1024
  const MAX_PROOF_BYTES: nat := 1024
  const MAX_SEQUENCE: nat := 9223372036854775807

  function RequestRefused(s: Store, q: Request): Option<Error> {
    if q.after < 0 then Some(InvalidCursor)
    else if !(1 <= q.limit <= 256) then Some(InvalidLimit)
    else if !(4096 <= q.maximumBytes <= if q.complete then MAX_BUNDLE_BYTES else WIRE_BYTES) then
      Some(InvalidTransferLimit)
    else if q.complete && !(1 <= q.recordLimit <= MAX_BUNDLE_RECORDS) then Some(InvalidTransferLimit)
    else if q.after > |s.log| then Some(CursorAhead)
    else if q.boundary.Some? && !q.complete then Some(InvalidDependencyBoundary)
    else None
  }

  function RecordLimit(q: Request): int {
    if q.complete then q.recordLimit else 1024
  }

  /** Bytes set aside for the envelope of a wire page. */
  function Envelope(q: Request): nat {
    if q.complete then 0 else 1024
  }

  function Floor(q: Request): nat {
    if q.requireVerified then 2 else 1
  }

  function OmitSet(q: Request): set<Id> {
    if q.boundary.Some? then q.boundary.value.omit else {}
  }

  function ProofBytes(s: Store, id: Id): nat {
    if id in s.rows && s.rows[id].proof.Some? then s.rows[id].proof.value.bytes else 0
  }

  function Cost(s: Store, q: Request, id: Id): nat {
    (if id in s.records then s.records[id].bytes else 0) + if q.complete then 0 else 256 + ProofBytes(s, id)
  }

  ghost function Total(s: Store, q: Request, ids: set<Id>): nat {
    if ids == {} then 0 else
      var m := MinOf(ids);
      Cost(s, q, m) + Total(s, q, ids - {m})
  }

  lemma {:induction false} TotalPlus(s: Store, q: Request, ids: set<Id>, id: Id)
    requires id !in ids
    ensures Total(s, q, ids + {id}) == Total(s, q, ids) + Cost(s, q, id)
    decreases |ids|
  {
    var all := ids + {id};
    var m := MinOf(all);
    if m == id {
      assert all - {m} == ids;
    } else {
      var rest := ids - {m};
      assert all - {m} == rest + {id};
      TotalPlus(s, q, rest, id);
      assert MinOf(ids) == m;
    }
  }

  lemma UnionSplit(a: set<Id>, b: set<Id>, x: Id)
    requires x in b
    ensures a + b == a + (b - {x}) + {x} && b == b - {x} + {x}
  {
  }

  lemma {:induction false} TotalUnion(s: Store, q: Request, a: set<Id>, b: set<Id>)
    requires a !! b
    ensures Total(s, q, a + b) == Total(s, q, a) + Total(s, q, b)
    decreases |b|
  {
    if b == {} {
      assert a + b == a;
    } else {
      var x :| x in b;
      var rest := b - {x};
      TotalUnion(s, q, a, rest);
      TotalPlus(s, q, a + rest, x);
      TotalPlus(s, q, rest, x);
      UnionSplit(a, b, x);
    }
  }

  lemma {:induction false} TotalMore(s: Store, q: Request, a: set<Id>, b: set<Id>)
    requires a <= b
    ensures Total(s, q, a) <= Total(s, q, b) && |a| <= |b|
  {
    assert b == a + (b - a);
    TotalUnion(s, q, a, b - a);
  }

  function Digits(n: nat): (d: nat)
    ensures d >= 1
  {
    if n < 10 then 1 else 1 + Digits(n / 10)
  }

  function ReasonBytes(r: Reason): nat {
    match r
    case NotAdmitted => 23
    case Unsigned => 19
    case BudgetExceeded => 26
    case RevalidationRequired => 32
  }

  /** A disposition's canonical JSON on the wire, and its separator allowance. */
  function DispositionCost(q: Request, d: Disposition): nat {
    if q.complete then 0 else 84 + ReasonBytes(d.reason) + Digits(d.sequence) + 32
  }

  ghost function DispositionBytes(q: Request, blocked: seq<Disposition>): nat {
    if blocked == [] then 0
    else DispositionBytes(q, blocked[..|blocked| - 1]) + DispositionCost(q, blocked[|blocked| - 1])
  }

  lemma {:induction false} DigitsBound(n: nat, k: nat, bound: nat)
    requires n < bound && bound <= Tenfold(k) && k >= 1
    ensures Digits(n) <= k
    decreases k
  {
    if n >= 10 {
      assert k > 1 by { assert Tenfold(1) == 10; }
      DigitsBound(n / 10, k - 1, Tenfold(k - 1));
    }
  }

  function Tenfold(k: nat): nat {
    if k == 0 then 1 else 10 * Tenfold(k - 1)
  }

  // ----- why a row is passed over -----

  ghost predicate Why(s: Store, trusted: Trust, q: Request, root: Id, reason: Reason) {
    match reason
    case NotAdmitted => Weak(s, trusted, root, 1)
    case Unsigned => q.requireVerified && Weak(s, trusted, root, 2)
    case BudgetExceeded => !q.complete && TooLarge(s, q, root)
    case RevalidationRequired => false
  }

  /** Something in the closure of root ranks below k. */
  ghost predicate Weak(s: Store, trusted: Trust, root: Id, k: nat) {
    exists d :: Reach(RelationGraph(s), root, d) && RankOf(s, trusted, d) < k
  }

  /** The closure of root holds more records or more bytes than one page may. */
  ghost predicate TooLarge(s: Store, q: Request, root: Id) {
    exists part :: InClosure(s, root, part)
                   && (|part| > RecordLimit(q) || Total(s, q, part) > q.maximumBytes - Envelope(q))
  }

  ghost predicate InClosure(s: Store, root: Id, part: set<Id>) {
    forall id :: id in part ==> Reach(RelationGraph(s), root, id)
  }

  /** The signed integration supplies a boundary only with required verification, and
      its refusals are those of the closure validation on the same snapshot. */
  ghost predicate SoundRequest(s: Store, trusted: Trust, q: Request) {
    q.boundary.Some? ==>
      && q.requireVerified
      && forall id :: id in q.boundary.value.refused ==>
           match q.boundary.value.refused[id]
           case NotAdmitted => Weak(s, trusted, id, 1)
           case Unsigned => Weak(s, trusted, id, 2)
           case BudgetExceeded => false
           case RevalidationRequired => true
  }

  lemma WeakFrom(s: Store, trusted: Trust, root: Id, id: Id, k: nat)
    requires Reach(RelationGraph(s), root, id) && Weak(s, trusted, id, k)
    ensures Weak(s, trusted, root, k)
  {
    var d :| Reach(RelationGraph(s), id, d) && RankOf(s, trusted, d) < k;
    ReachTrans(RelationGraph(s), root, id, d);
  }

  lemma WeakHere(s: Store, trusted: Trust, root: Id, id: Id, k: nat)
    requires Reach(RelationGraph(s), root, id) && RankOf(s, trusted, id) < k
    ensures Weak(s, trusted, root, k)
  {
  }

  // ----- collecting one closure -----

  datatype Outcome =
    | Whole(additions: set<Id>, bytes: nat, external: set<Id>)
    | Blocked(reason: Reason, external: set<Id>)
    | Broken(error: Error)

  /** Part way through a closure: what is added is strong enough and reachable, and
      each of its targets is somewhere already or still pending. */
  ghost predicate Collecting(s: Store, trusted: Trust, q: Request, root: Id, have: set<Id>, external: set<Id>,
                             additions: set<Id>, bytes: nat, pending: seq<Id>)
  {
    && additions <= s.records.Keys && additions !! have && external <= OmitSet(q)
    && InClosure(s, root, additions)
    && (forall id :: id in pending ==> Reach(RelationGraph(s), root, id))
    && (forall id :: id in additions ==> RankOf(s, trusted, id) >= Floor(q) && ProofBytes(s, id) <= MAX_PROOF_BYTES)
    && (forall id, t :: id in additions && t in Targets(s.records[id]) ==>
          t in additions || t in have || t in external || t in pending)
    && (root in have || root in additions || root in pending)
    && bytes == Total(s, q, additions) && |additions| <= RecordLimit(q)
    && bytes <= q.maximumBytes - Envelope(q)
  }

  ghost function Remaining(s: Store, q: Request, additions: set<Id>, external: set<Id>): nat {
    |s.records.Keys - additions| + |OmitSet(q) - external|
  }

  lemma CollectStart(s: Store, trusted: Trust, q: Request, root: Id, have: set<Id>, external: set<Id>)
    requires external <= OmitSet(q) && RecordLimit(q) >= 0 && q.maximumBytes >= Envelope(q)
    ensures Collecting(s, trusted, q, root, have, external, {}, 0, [root])
  {
    ReachSelf(RelationGraph(s), root);
  }

  lemma CollectSkip(s: Store, trusted: Trust, q: Request, root: Id, have: set<Id>, external: set<Id>,
                    additions: set<Id>, bytes: nat, rest: seq<Id>, id: Id)
    requires Collecting(s, trusted, q, root, have, external, additions, bytes, rest + [id])
    requires id in have || id in additions || (id != root && id in external)
    ensures Collecting(s, trusted, q, root, have, external, additions, bytes, rest)
  {
    assert forall x :: x in rest + [id] <==> x in rest || x == id;
  }

  lemma CollectOmit(s: Store, trusted: Trust, q: Request, root: Id, have: set<Id>, external: set<Id>,
                    additions: set<Id>, bytes: nat, rest: seq<Id>, id: Id)
    requires Collecting(s, trusted, q, root, have, external, additions, bytes, rest + [id])
    requires id != root && id in OmitSet(q) && id !in external
    ensures Collecting(s, trusted, q, root, have, external + {id}, additions, bytes, rest)
    ensures Remaining(s, q, additions, external + {id}) < Remaining(s, q, additions, external)
  {
    assert forall x :: x in rest + [id] <==> x in rest || x == id;
    assert OmitSet(q) - (external + {id}) == (OmitSet(q) - external) - {id};
  }

  lemma CollectAdd(s: Store, trusted: Trust, q: Request, root: Id, have: set<Id>, external: set<Id>,
                   additions: set<Id>, bytes: nat, rest: seq<Id>, id: Id, more: seq<Id>)
    requires Collecting(s, trusted, q, root, have, external, additions, bytes, rest + [id])
    requires id in s.records && id !in have && id !in additions
    requires RankOf(s, trusted, id) >= Floor(q) && ProofBytes(s, id) <= MAX_PROOF_BYTES
    requires forall t :: t in more <==> t in Targets(s.records[id])
    requires |additions| < RecordLimit(q)
    requires bytes + Cost(s, q, id) <= q.maximumBytes - Envelope(q)
    ensures Collecting(s, trusted, q, root, have, external, additions + {id}, bytes + Cost(s, q, id), rest + more)
    ensures Remaining(s, q, additions + {id}, external) < Remaining(s, q, additions, external)
  {
    hide Total, Cost, Envelope, OmitSet, Floor, RankOf, Reach, RelationGraph, Targets;
    assert forall x :: x in rest + [id] <==> x in rest || x == id;
    assert forall x :: x in rest + more <==> x in rest || x in more;
    assert Reach(RelationGraph(s), root, id) by { assert id in rest + [id]; }
    TargetsReached(s, root, id);
    TotalPlus(s, q, additions, id);
    assert s.records.Keys - (additions + {id}) == (s.records.Keys - additions) - {id};
  }

  lemma TargetsReached(s: Store, root: Id, id: Id)
    requires id in s.records && Reach(RelationGraph(s), root, id)
    ensures forall t :: t in Targets(s.records[id]) ==> Reach(RelationGraph(s), root, t)
  {
    hide Reach;
    forall t | t in Targets(s.records[id])
      ensures Reach(RelationGraph(s), root, t)
    {
      ReachEdge(RelationGraph(s), id, t);
      ReachTrans(RelationGraph(s), root, id, t);
    }
  }

  lemma TooMuch(s: Store, q: Request, root: Id, additions: set<Id>, id: Id)
    requires InClosure(s, root, additions) && Reach(RelationGraph(s), root, id) && id !in additions
    requires |additions| >= RecordLimit(q) || Total(s, q, additions) + Cost(s, q, id) > q.maximumBytes - Envelope(q)
    ensures TooLarge(s, q, root)
  {
    hide Reach, Total, Cost, RecordLimit, Envelope;
    TotalPlus(s, q, additions, id);
    var part := additions + {id};
    assert InClosure(s, root, part);
    assert |part| > RecordLimit(q) || Total(s, q, part) > q.maximumBytes - Envelope(q);
  }

  lemma OverBudget(s: Store, trusted: Trust, q: Request, root: Id, have: set<Id>, external: set<Id>,
                   additions: set<Id>, bytes: nat, rest: seq<Id>, id: Id)
    requires Collecting(s, trusted, q, root, have, external, additions, bytes, rest + [id])
    requires id !in additions
    requires |additions| >= RecordLimit(q) || bytes + Cost(s, q, id) > q.maximumBytes - Envelope(q)
    ensures TooLarge(s, q, root)
  {
    hide Reach, Total, Cost, RecordLimit, Envelope, TooLarge;
    PendingReached(s, trusted, q, root, have, external, additions, bytes, rest, id);
    TooMuch(s, q, root, additions, id);
  }

  lemma PendingReached(s: Store, trusted: Trust, q: Request, root: Id, have: set<Id>, external: set<Id>,
                       additions: set<Id>, bytes: nat, rest: seq<Id>, id: Id)
    requires Collecting(s, trusted, q, root, have, external, additions, bytes, rest + [id])
    ensures Reach(RelationGraph(s), root, id)
  {
    assert id in rest + [id];
  }

  function TargetSeq(r: Record): (t: seq<Id>)
    ensures forall id :: id in t <==> id in Targets(r)
  {
    var t := seq(|r.relations|, i requires 0 <= i < |r.relations| => r.relations[i].target);
    assert forall e :: e in r.relations ==> e.target in t by {
      forall e | e in r.relations
        ensures e.target in t
      {
        var i :| 0 <= i < |r.relations| && r.relations[i] == e;
        assert t[i] == e.target;
      }
    }
    t
  }

  /** What a finished closure promises. */
  ghost predicate WholeClosure(s: Store, trusted: Trust, q: Request, root: Id, have: set<Id>, o: Outcome)
    requires o.Whole?
  {
    && o.additions <= s.records.Keys && o.additions !! have && o.external <= OmitSet(q)
    && InClosure(s, root, o.additions)
    && (forall id :: id in o.additions ==> RankOf(s, trusted, id) >= Floor(q) && ProofBytes(s, id) <= MAX_PROOF_BYTES)
    && (forall id, t :: id in o.additions && t in Targets(s.records[id]) ==>
          t in o.additions || t in have || t in OmitSet(q))
    && (root in have || root in o.additions)
    && o.bytes == Total(s, q, o.additions) && |o.additions| <= RecordLimit(q)
    && o.bytes <= q.maximumBytes - Envelope(q)
  }

  lemma CollectDone(s: Store, trusted: Trust, q: Request, root: Id, have: set<Id>, external: set<Id>,
                    additions: set<Id>, bytes: nat)
    requires Collecting(s, trusted, q, root, have, external, additions, bytes, [])
    ensures WholeClosure(s, trusted, q, root, have, Whole(additions, bytes, external))
  {
  }

  ghost predicate BlockedRightly(s: Store, trusted: Trust, q: Request, root: Id, o: Outcome)
    requires o.Blocked?
  {
    if q.complete && (o.reason == BudgetExceeded || o.reason == RevalidationRequired) then
      o.reason == BudgetExceeded ==> TooLarge(s, q, root)
    else Why(s, trusted, q, root, o.reason)
  }

  lemma Budgets(s: Store, q: Request)
    requires RequestRefused(s, q).None?
    ensures RecordLimit(q) >= 0 && q.maximumBytes >= Envelope(q) && (q.boundary.Some? ==> q.complete)
  {
  }

  /** A refusal by the boundary names something weak in the closure. */
  lemma RefusedRightly(s: Store, trusted: Trust, q: Request, root: Id, id: Id)
    requires SoundRequest(s, trusted, q) && q.boundary.Some? && id in q.boundary.value.refused
    requires Reach(RelationGraph(s), root, id)
    ensures var reason := q.boundary.value.refused[id];
      && reason != BudgetExceeded
      && (reason != RevalidationRequired ==> Why(s, trusted, q, root, reason))
  {
    hide Reach, RelationGraph, Weak;
    if Weak(s, trusted, id, 1) { WeakFrom(s, trusted, root, id, 1); }
    if Weak(s, trusted, id, 2) { WeakFrom(s, trusted, root, id, 2); }
  }

  function Refusal(q: Request, id: Id): Option<Reason> {
    if q.boundary.Some? && id in q.boundary.value.refused then Some(q.boundary.value.refused[id]) else None
  }

  /** The depth-first walk through one root's relation closure, from any point on. */
  function Walk(s: Store, trusted: Trust, q: Request, root: Id, have: set<Id>, additions: set<Id>, bytes: nat,
                external: set<Id>, pending: seq<Id>): Outcome
    decreases s.records.Keys - additions, OmitSet(q) - external, |pending|
  {
    if pending == [] then Whole(additions, bytes, external)
    else
      var id, rest := pending[|pending| - 1], pending[..|pending| - 1];
      if id in have || id in additions || (q.boundary.Some? && id != root && id in external) then
        Walk(s, trusted, q, root, have, additions, bytes, external, rest)
      else if Halts(s, trusted, q, root, additions, bytes, external, id).Some? then
        Halts(s, trusted, q, root, additions, bytes, external, id).value
      else if id != root && id in OmitSet(q) then
        Walk(s, trusted, q, root, have, additions, bytes, external + {id}, rest)
      else if id !in s.records then Broken(StoredRecordInvalid)
      else
        Walk(s, trusted, q, root, have, additions + {id}, bytes + Cost(s, q, id), external,
             rest + TargetSeq(s.records[id]))
  }

  /** What stops the walk at a record not met before: the record count, then the boundary and the
      admission, then, unless it is omitted, its proof and its size. */
  function Halts(s: Store, trusted: Trust, q: Request, root: Id, additions: set<Id>, bytes: nat, external: set<Id>,
                 id: Id): Option<Outcome>
  {
    if |additions| >= RecordLimit(q) then Some(Blocked(BudgetExceeded, external))
    else if Refusal(q, id) == Some(RevalidationRequired) then Some(Blocked(RevalidationRequired, external))
    else if RankOf(s, trusted, id) == 0 then Some(Blocked(NotAdmitted, external))
    else if q.requireVerified && RankOf(s, trusted, id) < 2 then Some(Blocked(Unsigned, external))
    else if Refusal(q, id).Some? then Some(Blocked(Refusal(q, id).value, external))
    else if id != root && id in OmitSet(q) then None
    else if ProofBytes(s, id) > MAX_PROOF_BYTES then Some(Broken(StoredAttestationInvalid))
    else if bytes + Cost(s, q, id) > q.maximumBytes - Envelope(q) then Some(Blocked(BudgetExceeded, external))
    else None
  }

  lemma WalkIs(s: Store, trusted: Trust, q: Request, root: Id, have: set<Id>, additions: set<Id>, bytes: nat,
               external: set<Id>, rest: seq<Id>, id: Id)
    ensures Walk(s, trusted, q, root, have, additions, bytes, external, rest + [id]) ==
            if id in have || id in additions || (q.boundary.Some? && id != root && id in external) then
              Walk(s, trusted, q, root, have, additions, bytes, external, rest)
            else if Halts(s, trusted, q, root, additions, bytes, external, id).Some? then
              Halts(s, trusted, q, root, additions, bytes, external, id).value
            else if id != root && id in OmitSet(q) then
              Walk(s, trusted, q, root, have, additions, bytes, external + {id}, rest)
            else if id !in s.records then Broken(StoredRecordInvalid)
            else
              Walk(s, trusted, q, root, have, additions + {id}, bytes + Cost(s, q, id), external,
                   rest + TargetSeq(s.records[id]))
  {
    hide Halts, Cost, TargetSeq, OmitSet;
    assert (rest + [id])[..|rest|] == rest;
  }

  lemma WalkEnds(s: Store, trusted: Trust, q: Request, root: Id, have: set<Id>, additions: set<Id>, bytes: nat,
                 external: set<Id>)
    ensures Walk(s, trusted, q, root, have, additions, bytes, external, []) == Whole(additions, bytes, external)
  {
  }

  /** What the walk answers is true of the closure. */
  ghost predicate Truthful(s: Store, trusted: Trust, q: Request, root: Id, have: set<Id>, o: Outcome) {
    match o
    case Whole(_, _, _) => WholeClosure(s, trusted, q, root, have, o)
    case Blocked(_, external) => external <= OmitSet(q) && BlockedRightly(s, trusted, q, root, o)
    case Broken(e) => e == StoredAttestationInvalid && OversizedProof(s)
  }

  lemma {:induction false} WalkIsTruthful(s: Store, trusted: Trust, q: Request, root: Id, have: set<Id>,
                                          additions: set<Id>, bytes: nat, external: set<Id>, pending: seq<Id>)
    requires Valid(s) && SoundRequest(s, trusted, q)
    requires Collecting(s, trusted, q, root, have, external, additions, bytes, pending) && external <= OmitSet(q)
    requires q.boundary.Some? ==> q.complete
    ensures Truthful(s, trusted, q, root, have,
                     Walk(s, trusted, q, root, have, additions, bytes, external, pending))
    decreases Remaining(s, q, additions, external), |pending|
  {
    hide Walk, Halts, Collecting, Remaining, Truthful, Reach, RankOf, Cost, RelationGraph, TargetSeq, Valid,
      RecordLimit, Envelope, SoundRequest, ProofBytes, OmitSet;
    if pending == [] {
      WalkEnds(s, trusted, q, root, have, additions, bytes, external);
      CollectDone(s, trusted, q, root, have, external, additions, bytes);
      TruthfulWhole(s, trusted, q, root, have, Whole(additions, bytes, external));
    } else {
      var id, rest := pending[|pending| - 1], pending[..|pending| - 1];
      assert pending == rest + [id];
      WalkIs(s, trusted, q, root, have, additions, bytes, external, rest, id);
      PendingReached(s, trusted, q, root, have, external, additions, bytes, rest, id);
      if id in have || id in additions || (q.boundary.Some? && id != root && id in external) {
        CollectSkip(s, trusted, q, root, have, external, additions, bytes, rest, id);
        WalkIsTruthful(s, trusted, q, root, have, additions, bytes, external, rest);
      } else if Halts(s, trusted, q, root, additions, bytes, external, id).Some? {
        HaltIsTruthful(s, trusted, q, root, have, additions, bytes, external, rest, id);
      } else if id != root && id in OmitSet(q) {
        OmitIsNew(q, root, external, id);
        CollectOmit(s, trusted, q, root, have, external, additions, bytes, rest, id);
        WalkIsTruthful(s, trusted, q, root, have, additions, bytes, external + {id}, rest);
      } else {
        Passes(s, trusted, q, root, additions, bytes, external, id);
        ReadableIsStored(s, trusted, id);
        var more := TargetSeq(s.records[id]);
        CollectAdd(s, trusted, q, root, have, external, additions, bytes, rest, id, more);
        WalkIsTruthful(s, trusted, q, root, have, additions + {id}, bytes + Cost(s, q, id), external, rest + more);
      }
    }
  }

  lemma TruthfulWhole(s: Store, trusted: Trust, q: Request, root: Id, have: set<Id>, o: Outcome)
    requires o.Whole? && WholeClosure(s, trusted, q, root, have, o)
    ensures Truthful(s, trusted, q, root, have, o)
  {
  }

  lemma OmitIsNew(q: Request, root: Id, external: set<Id>, id: Id)
    requires id != root && id in OmitSet(q) && !(q.boundary.Some? && id != root && id in external)
    ensures id !in external
  {
  }

  /** What the walk takes in is strong enough, holds a proof within the bound and fits. */
  lemma Passes(s: Store, trusted: Trust, q: Request, root: Id, additions: set<Id>, bytes: nat, external: set<Id>,
               id: Id)
    requires Halts(s, trusted, q, root, additions, bytes, external, id).None?
    ensures |additions| < RecordLimit(q) && RankOf(s, trusted, id) >= Floor(q) && Refusal(q, id).None?
    ensures !(id != root && id in OmitSet(q)) ==>
              ProofBytes(s, id) <= MAX_PROOF_BYTES && bytes + Cost(s, q, id) <= q.maximumBytes - Envelope(q)
  {
    hide ProofBytes, Cost, Envelope, RecordLimit, OmitSet;
  }

  lemma HaltIsTruthful(s: Store, trusted: Trust, q: Request, root: Id, have: set<Id>, additions: set<Id>, bytes: nat,
                       external: set<Id>, rest: seq<Id>, id: Id)
    requires Valid(s) && SoundRequest(s, trusted, q) && external <= OmitSet(q) && (q.boundary.Some? ==> q.complete)
    requires Collecting(s, trusted, q, root, have, external, additions, bytes, rest + [id])
    requires id !in additions && Halts(s, trusted, q, root, additions, bytes, external, id).Some?
    ensures Truthful(s, trusted, q, root, have, Halts(s, trusted, q, root, additions, bytes, external, id).value)
  {
    hide Collecting, Reach, RankOf, Total, TooLarge, Weak, Cost, Valid, RecordLimit, Envelope, SoundRequest,
      ProofBytes, RelationGraph, InClosure, WholeClosure;
    PendingReached(s, trusted, q, root, have, external, additions, bytes, rest, id);
    if |additions| >= RecordLimit(q) || bytes + Cost(s, q, id) > q.maximumBytes - Envelope(q) {
      OverBudget(s, trusted, q, root, have, external, additions, bytes, rest, id);
    }
    if RankOf(s, trusted, id) == 0 {
      WeakHere(s, trusted, root, id, 1);
    }
    if RankOf(s, trusted, id) < 2 {
      WeakHere(s, trusted, root, id, 2);
    }
    if Refusal(q, id).Some? {
      RefusedRightly(s, trusted, q, root, id);
    }
    if ProofBytes(s, id) > MAX_PROOF_BYTES {
      ProofIsOversized(s, id);
    }
    hide OversizedProof;
  }

  /** The walk from one root, with what the page has so far. */
  function WalkFrom(s: Store, trusted: Trust, q: Request, root: Id, have: set<Id>, external: set<Id>): Outcome {
    Walk(s, trusted, q, root, have, {}, 0, external, [root])
  }

  /** The inner loop of _changes: one root's relation closure, depth first. */
  method Collect(s: Store, trusted: Trust, q: Request, root: Id, have: set<Id>, external0: set<Id>)
    returns (o: Outcome)
    requires Valid(s) && SoundRequest(s, trusted, q) && RequestRefused(s, q).None?
    requires external0 <= OmitSet(q)
    ensures o == WalkFrom(s, trusted, q, root, have, external0) && Truthful(s, trusted, q, root, have, o)
  {
    hide Walk, Truthful, ProofBytes, RankOf, Cost, TargetSeq, Valid, RequestRefused, RecordLimit, Envelope,
      SoundRequest, Collecting;
    Budgets(s, q);
    CollectStart(s, trusted, q, root, have, external0);
    WalkIsTruthful(s, trusted, q, root, have, {}, 0, external0, [root]);
    var additions: set<Id>, bytes: nat, external := {}, 0, external0;
    var pending := [root];
    while pending != []
      invariant Walk(s, trusted, q, root, have, additions, bytes, external, pending)
                == WalkFrom(s, trusted, q, root, have, external0)
      decreases s.records.Keys - additions, OmitSet(q) - external, |pending|
    {
      var id, rest := pending[|pending| - 1], pending[..|pending| - 1];
      assert pending == rest + [id];
      WalkIs(s, trusted, q, root, have, additions, bytes, external, rest, id);
      if id in have || id in additions || (q.boundary.Some? && id != root && id in external) {
        pending := rest;
        continue;
      }
      if |additions| >= RecordLimit(q) {
        return Blocked(BudgetExceeded, external);
      }
      var refused := if q.boundary.Some? && id in q.boundary.value.refused
                     then Some(q.boundary.value.refused[id]) else None;
      if refused == Some(RevalidationRequired) {
        return Blocked(RevalidationRequired, external);
      }
      if RankOf(s, trusted, id) == 0 {
        return Blocked(NotAdmitted, external);
      }
      if q.requireVerified && RankOf(s, trusted, id) < 2 {
        return Blocked(Unsigned, external);
      }
      if refused.Some? {
        return Blocked(refused.value, external);
      }
      if id != root && id in OmitSet(q) && id !in external {
        external := external + {id};
        pending := rest;
        continue;
      }
      ReadableIsStored(s, trusted, id);
      if ProofBytes(s, id) > MAX_PROOF_BYTES {
        return Broken(StoredAttestationInvalid);
      }
      if bytes + Cost(s, q, id) > q.maximumBytes - Envelope(q) {
        return Blocked(BudgetExceeded, external);
      }
      additions, bytes, pending := additions + {id}, bytes + Cost(s, q, id), rest + TargetSeq(s.records[id]);
    }
    WalkEnds(s, trusted, q, root, have, additions, bytes, external);
    o := Whole(additions, bytes, external);
  }

  lemma ProofIsOversized(s: Store, id: Id)
    requires ProofBytes(s, id) > MAX_PROOF_BYTES
    ensures OversizedProof(s)
  {
  }

  lemma ReadableIsStored(s: Store, trusted: Trust, id: Id)
    requires Valid(s) && RankOf(s, trusted, id) > 0
    ensures id in s.records && id in s.rows
  {
  }

  // ----- the page -----

  /** The log indices of the first n rows from an index on whose record is readable. */
  function Rows(s: Store, trusted: Trust, from: nat, n: nat): (r: seq<nat>)
    requires from <= |s.log|
    ensures |r| <= n
    ensures forall k :: 0 <= k < |r| ==> from <= r[k] < |s.log| && RankOf(s, trusted, s.log[r[k]]) > 0
    decreases |s.log| - from
  {
    if n == 0 || from == |s.log| then []
    else if RankOf(s, trusted, s.log[from]) > 0 then [from] + Rows(s, trusted, from + 1, n - 1)
    else Rows(s, trusted, from + 1, n)
  }

  /** Every log entry between two indices is unreadable now. */
  ghost predicate Silent(s: Store, trusted: Trust, from: nat, to: nat) {
    forall i :: from <= i < to && i < |s.log| ==> RankOf(s, trusted, s.log[i]) == 0
  }

  /** Where the scan stands after k rows. */
  function After(from: nat, rows: seq<nat>, k: nat): nat
    requires k <= |rows|
  {
    if k == 0 then from else rows[k - 1] + 1
  }

  lemma AfterNone(from: nat, rows: seq<nat>)
    ensures After(from, rows, 0) == from
  {
  }

  lemma AfterNext(from: nat, rows: seq<nat>, k: nat)
    requires k < |rows|
    ensures After(from, rows, k + 1) == rows[k] + 1
  {
  }

  lemma ShiftSilent(s: Store, trusted: Trust, from: nat, to: nat)
    requires from < |s.log| && RankOf(s, trusted, s.log[from]) == 0 && Silent(s, trusted, from + 1, to)
    ensures Silent(s, trusted, from, to)
  {
  }

  /** Rows skips only unreadable entries, and stops short of n only at the end. */
  lemma {:induction false} RowsLeaveNothing(s: Store, trusted: Trust, from: nat, n: nat, k: nat)
    requires from <= |s.log| && k <= |Rows(s, trusted, from, n)|
    ensures var r := Rows(s, trusted, from, n);
      && from <= After(from, r, k) <= |s.log|
      && (k < |r| ==> After(from, r, k) <= r[k] && Silent(s, trusted, After(from, r, k), r[k]))
      && (k == |r| < n ==> Silent(s, trusted, After(from, r, k), |s.log|))
    decreases |s.log| - from
  {
    hide Silent, RankOf, Rows, After;
    var r := Rows(s, trusted, from, n);
    RowsAre(s, trusted, from, n);
    if n == 0 || from == |s.log| {
      EmptySilent(s, trusted);
      AfterNone(from, r);
    } else if RankOf(s, trusted, s.log[from]) > 0 {
      var rest := Rows(s, trusted, from + 1, n - 1);
      AfterFirst(from, rest, k);
      if k > 0 {
        RowsLeaveNothing(s, trusted, from + 1, n - 1, k - 1);
      } else {
        NoSilent(s, trusted, from);
      }
    } else {
      RowsLeaveNothing(s, trusted, from + 1, n, k);
      AfterLater(from, r, k);
      if k == 0 {
        AfterNone(from + 1, r);
        if |r| > 0 || |r| < n {
          ShiftSilent(s, trusted, from, if |r| > 0 then r[0] else |s.log|);
        }
      }
    }
  }

  lemma RowsAre(s: Store, trusted: Trust, from: nat, n: nat)
    requires from <= |s.log|
    ensures Rows(s, trusted, from, n) ==
            if n == 0 || from == |s.log| then []
            else if RankOf(s, trusted, s.log[from]) > 0 then [from] + Rows(s, trusted, from + 1, n - 1)
            else Rows(s, trusted, from + 1, n)
  {
    hide RankOf;
  }

  lemma AfterFirst(from: nat, rest: seq<nat>, k: nat)
    requires k <= |rest| + 1
    ensures After(from, [from] + rest, k) == if k == 0 then from else After(from + 1, rest, k - 1)
  {
  }

  lemma AfterLater(from: nat, rows: seq<nat>, k: nat)
    requires k <= |rows|
    ensures After(from, rows, k) == if k == 0 then from else After(from + 1, rows, k)
  {
  }

  lemma EmptySilent(s: Store, trusted: Trust)
    ensures Silent(s, trusted, |s.log|, |s.log|)
  {
  }

  lemma NoSilent(s: Store, trusted: Trust, from: nat)
    ensures Silent(s, trusted, from, from)
  {
  }

  ghost predicate Listed(blocked: seq<Disposition>, sequence: nat) {
    exists j :: 0 <= j < |blocked| && blocked[j].sequence == sequence
  }

  /** Every readable entry the cursor passes is sent or listed. */
  ghost predicate Covered(s: Store, trusted: Trust, have: set<Id>, blocked: seq<Disposition>, after: int, cursor: nat) {
    forall i :: 0 <= i && after <= i < cursor && i < |s.log| ==>
      RankOf(s, trusted, s.log[i]) == 0 || s.log[i] in have || Listed(blocked, i + 1)
  }

  ghost predicate ClosedPage(s: Store, q: Request, have: set<Id>) {
    have <= s.records.Keys
    && forall id, t :: id in have && t in Targets(s.records[id]) ==> t in have || t in OmitSet(q)
  }

  ghost predicate StrongPage(s: Store, trusted: Trust, q: Request, have: set<Id>) {
    forall id :: id in have ==> RankOf(s, trusted, id) >= Floor(q) && ProofBytes(s, id) <= MAX_PROOF_BYTES
  }

  ghost predicate BlockedOk(s: Store, trusted: Trust, q: Request, blocked: seq<Disposition>, after: int, cursor: nat) {
    forall j :: 0 <= j < |blocked| ==>
      var d := blocked[j];
      after < d.sequence <= cursor && d.sequence <= |s.log| && 0 < d.sequence && s.log[d.sequence - 1] == d.id
      && Why(s, trusted, q, d.id, d.reason)
  }

  ghost predicate WithinBudget(s: Store, q: Request, have: set<Id>, blocked: seq<Disposition>, used: nat) {
    used == Envelope(q) + Total(s, q, have) + DispositionBytes(q, blocked)
    && used <= q.maximumBytes && |have| <= RecordLimit(q)
  }

  /** Nothing travels that no passed row asked for. */
  ghost predicate Asked(s: Store, have: set<Id>, after: int, cursor: nat) {
    forall id :: id in have ==>
      exists i :: 0 <= i && after <= i < cursor && i < |s.log| && Reach(RelationGraph(s), s.log[i], id)
  }

  ghost predicate PageSoFar(s: Store, trusted: Trust, q: Request, have: set<Id>, blocked: seq<Disposition>,
                            used: nat, cursor: nat)
  {
    && Covered(s, trusted, have, blocked, q.after, cursor) && ClosedPage(s, q, have)
    && StrongPage(s, trusted, q, have) && BlockedOk(s, trusted, q, blocked, q.after, cursor)
    && WithinBudget(s, q, have, blocked, used) && Asked(s, have, q.after, cursor)
    && q.after <= cursor <= |s.log|
  }

  lemma PageStart(s: Store, trusted: Trust, q: Request)
    requires RequestRefused(s, q).None?
    ensures PageSoFar(s, trusted, q, {}, [], Envelope(q), q.after)
  {
  }

  lemma RowCovered(s: Store, trusted: Trust, have: set<Id>, more: set<Id>, blocked: seq<Disposition>,
                   after: int, cursor: nat, row: nat)
    requires Covered(s, trusted, have, blocked, after, cursor) && Silent(s, trusted, cursor, row)
    requires row < |s.log| && s.log[row] in have + more
    ensures Covered(s, trusted, have + more, blocked, after, row + 1)
  {
  }

  lemma RowClosed(s: Store, trusted: Trust, q: Request, root: Id, have: set<Id>, o: Outcome)
    requires ClosedPage(s, q, have) && StrongPage(s, trusted, q, have)
    requires o.Whole? && WholeClosure(s, trusted, q, root, have, o)
    ensures ClosedPage(s, q, have + o.additions) && StrongPage(s, trusted, q, have + o.additions)
  {
  }

  lemma RowAsked(s: Store, have: set<Id>, more: set<Id>, after: int, cursor: nat, row: nat)
    requires Asked(s, have, after, cursor) && after <= cursor <= row < |s.log|
    requires InClosure(s, s.log[row], more)
    ensures Asked(s, have + more, after, row + 1)
  {
    hide Reach;
    forall id | id in have + more
      ensures exists i :: 0 <= i && after <= i < row + 1 && i < |s.log| && Reach(RelationGraph(s), s.log[i], id)
    {
      if id in more {
        assert Reach(RelationGraph(s), s.log[row], id);
      } else {
        var i :| 0 <= i && after <= i < cursor && i < |s.log| && Reach(RelationGraph(s), s.log[i], id);
        assert Reach(RelationGraph(s), s.log[i], id);
      }
    }
  }

  lemma RowBudget(s: Store, q: Request, have: set<Id>, more: set<Id>, blocked: seq<Disposition>, used: nat)
    requires WithinBudget(s, q, have, blocked, used) && more !! have
    requires used + Total(s, q, more) <= q.maximumBytes && |have| + |more| <= RecordLimit(q)
    ensures WithinBudget(s, q, have + more, blocked, used + Total(s, q, more))
  {
    TotalUnion(s, q, have, more);
    UnionSize(have, more);
    hide Total, DispositionBytes, Envelope, RecordLimit, Cost;
  }

  lemma UnionSize(a: set<Id>, b: set<Id>)
    requires a !! b
    ensures |a + b| == |a| + |b|
  {
  }

  lemma AddRow(s: Store, trusted: Trust, q: Request, have: set<Id>, blocked: seq<Disposition>, used: nat,
               cursor: nat, row: nat, o: Outcome)
    requires PageSoFar(s, trusted, q, have, blocked, used, cursor) && cursor <= row < |s.log|
    requires Silent(s, trusted, cursor, row)
    requires o.Whole? && WholeClosure(s, trusted, q, s.log[row], have, o)
    requires used + o.bytes <= q.maximumBytes && |have| + |o.additions| <= RecordLimit(q)
    ensures PageSoFar(s, trusted, q, have + o.additions, blocked, used + o.bytes, row + 1)
  {
    hide Covered, ClosedPage, StrongPage, BlockedOk, WithinBudget, Asked, InClosure, Total, Silent;
    RowCovered(s, trusted, have, o.additions, blocked, q.after, cursor, row);
    RowClosed(s, trusted, q, s.log[row], have, o);
    RowAsked(s, have, o.additions, q.after, cursor, row);
    RowBudget(s, q, have, o.additions, blocked, used);
    BlockedLater(s, trusted, q, blocked, cursor, row + 1);
  }

  lemma BlockedLater(s: Store, trusted: Trust, q: Request, blocked: seq<Disposition>, cursor: nat, later: nat)
    requires BlockedOk(s, trusted, q, blocked, q.after, cursor) && cursor <= later
    ensures BlockedOk(s, trusted, q, blocked, q.after, later)
  {
    hide Why;
  }

  lemma BlockCovered(s: Store, trusted: Trust, have: set<Id>, blocked: seq<Disposition>, d: Disposition,
                     after: int, cursor: nat, row: nat)
    requires Covered(s, trusted, have, blocked, after, cursor) && Silent(s, trusted, cursor, row)
    requires row < |s.log| && d.sequence == row + 1
    ensures Covered(s, trusted, have, blocked + [d], after, row + 1)
  {
    var next := blocked + [d];
    forall i | 0 <= i && after <= i < row + 1 && i < |s.log|
      ensures RankOf(s, trusted, s.log[i]) == 0 || s.log[i] in have || Listed(next, i + 1)
    {
      if i == row {
        assert next[|blocked|].sequence == i + 1;
      } else if i < cursor && Listed(blocked, i + 1) {
        var j :| 0 <= j < |blocked| && blocked[j].sequence == i + 1;
        assert next[j].sequence == i + 1;
      }
    }
  }

  lemma AskedLater(s: Store, have: set<Id>, after: int, cursor: nat, later: nat)
    requires Asked(s, have, after, cursor) && cursor <= later
    ensures Asked(s, have, after, later)
  {
    hide Reach;
  }

  lemma BlockRow(s: Store, trusted: Trust, q: Request, have: set<Id>, blocked: seq<Disposition>, used: nat,
                 cursor: nat, row: nat, d: Disposition)
    requires PageSoFar(s, trusted, q, have, blocked, used, cursor) && cursor <= row < |s.log|
    requires Silent(s, trusted, cursor, row)
    requires d.id == s.log[row] && d.sequence == row + 1 && Why(s, trusted, q, d.id, d.reason)
    requires used + DispositionCost(q, d) <= q.maximumBytes
    ensures PageSoFar(s, trusted, q, have, blocked + [d], used + DispositionCost(q, d), row + 1)
  {
    hide Covered, ClosedPage, StrongPage, WithinBudget, Asked, Why, Silent, BlockedOk, DispositionCost;
    BlockBudget(s, q, have, blocked, used, d);
    BlockOk(s, trusted, q, blocked, d, cursor);
    BlockCovered(s, trusted, have, blocked, d, q.after, cursor, row);
    AskedLater(s, have, q.after, cursor, row + 1);
  }

  lemma BlockOk(s: Store, trusted: Trust, q: Request, blocked: seq<Disposition>, d: Disposition, cursor: nat)
    requires BlockedOk(s, trusted, q, blocked, q.after, cursor) && Why(s, trusted, q, d.id, d.reason)
    requires q.after <= cursor < d.sequence <= |s.log| && d.id == s.log[d.sequence - 1]
    ensures BlockedOk(s, trusted, q, blocked + [d], q.after, d.sequence)
  {
    hide Why;
  }

  lemma BlockBudget(s: Store, q: Request, have: set<Id>, blocked: seq<Disposition>, used: nat, d: Disposition)
    requires WithinBudget(s, q, have, blocked, used) && used + DispositionCost(q, d) <= q.maximumBytes
    ensures WithinBudget(s, q, have, blocked + [d], used + DispositionCost(q, d))
  {
    var next := blocked + [d];
    assert next[..|next| - 1] == blocked;
  }

  lemma FinishRow(s: Store, trusted: Trust, q: Request, have: set<Id>, blocked: seq<Disposition>, used: nat,
                  cursor: nat)
    requires PageSoFar(s, trusted, q, have, blocked, used, cursor) && Silent(s, trusted, cursor, |s.log|)
    ensures PageSoFar(s, trusted, q, have, blocked, used, |s.log|)
  {
    hide ClosedPage, StrongPage, WithinBudget, Why, Reach;
    AskedLater(s, have, q.after, cursor, |s.log|);
    BlockedLater(s, trusted, q, blocked, cursor, |s.log|);
  }

  /** A first row's disposition always fits beside the envelope. */
  lemma FirstDispositionFits(q: Request, d: Disposition)
    requires q.maximumBytes >= 4096 && d.sequence <= MAX_SEQUENCE
    ensures Envelope(q) + DispositionCost(q, d) <= q.maximumBytes
  {
    TenfoldOf19();
    DigitsBound(d.sequence, 19, MAX_SEQUENCE + 1);
  }

  lemma TenfoldOf19()
    ensures Tenfold(19) == 10_000_000_000_000_000_000
  {
    assert Tenfold(5) == 100_000;
    assert Tenfold(10) == 10_000_000_000;
    assert Tenfold(15) == 1_000_000_000_000_000;
  }

  ghost predicate OversizedProof(s: Store) {
    exists id :: id in s.rows && ProofBytes(s, id) > MAX_PROOF_BYTES
  }

  /** Some row past the cursor asks for more than any page of this request may hold. */
  ghost predicate OversizedRow(s: Store, q: Request) {
    exists i :: 0 <= i && q.after <= i < |s.log| && TooLarge(s, q, s.log[i])
  }

  ghost predicate SentFrom(s: Store, trusted: Trust, q: Request, page: Page) {
    && (forall id :: id in page.records ==> id in s.records && page.records[id] == s.records[id])
    && exists used :: PageSoFar(s, trusted, q, page.records.Keys, page.blocked, used, page.cursor)
  }

  /** The contract of a page. */
  ghost predicate PageOf(s: Store, trusted: Trust, q: Request, page: Page) {
    && RequestRefused(s, q).None? && page.after == q.after
    && SentFrom(s, trusted, q, page)
    && (page.more ==> page.cursor > page.after)
    && (!page.more ==> page.cursor == |s.log|)
    && Outside(page)
  }

  datatype Step = Stop | Refuse(error: Error)
    | Go(have: set<Id>, blocked: seq<Disposition>, used: nat, external: set<Id>)

  /** One turn of the outer loop: take in a row's closure, list it as blocked, stop the page before
      it, or refuse the call. */
  function RowStep(s: Store, trusted: Trust, q: Request, row: nat, have: set<Id>, blocked: seq<Disposition>,
                   used: nat, external: set<Id>): Step
    requires row < |s.log|
  {
    match WalkFrom(s, trusted, q, s.log[row], have, external)
    case Broken(e) => Refuse(e)
    case Blocked(reason, seen) =>
      if q.complete && (reason == BudgetExceeded || reason == RevalidationRequired) then
        if have != {} then Stop
        else Refuse(if reason == BudgetExceeded then DependencyBudgetExceeded else DependencyRevalidationRequired)
      else
        var d := Disposition(s.log[row], row + 1, reason);
        if used + DispositionCost(q, d) > q.maximumBytes then Stop
        else Go(have, blocked + [d], used + DispositionCost(q, d), seen)
    case Whole(additions, bytes, seen) =>
      if used + bytes > q.maximumBytes || |have| + |additions| > RecordLimit(q) then Stop
      else Go(have + additions, blocked, used + bytes, seen)
  }

  method TakeRow(s: Store, trusted: Trust, q: Request, row: nat, ghost cursor: nat, have: set<Id>,
                 blocked: seq<Disposition>, used: nat, external: set<Id>) returns (step: Step)
    requires Valid(s) && SoundRequest(s, trusted, q) && |s.log| <= MAX_SEQUENCE
    requires PageSoFar(s, trusted, q, have, blocked, used, cursor) && RequestRefused(s, q).None?
    requires external <= OmitSet(q) && cursor <= row < |s.log| && Silent(s, trusted, cursor, row)
    ensures step == RowStep(s, trusted, q, row, have, blocked, used, external)
    ensures step.Go? ==> PageSoFar(s, trusted, q, step.have, step.blocked, step.used, row + 1)
                         && step.external <= OmitSet(q)
    ensures step.Stop? ==> have != {} || blocked != []
    ensures step.Refuse? ==> q.complete || (step.error == StoredAttestationInvalid && OversizedProof(s))
    ensures step.Refuse? && step.error == DependencyBudgetExceeded ==> TooLarge(s, q, s.log[row])
  {
    hide PageSoFar, WholeClosure, Why, TooLarge, Silent, RankOf, Valid, SoundRequest, RequestRefused, WalkFrom,
      DispositionCost, Envelope, OversizedProof, RecordLimit, OmitSet;
    RequestInRange(s, q);
    var o := Collect(s, trusted, q, s.log[row], have, external);
    match o
    case Broken(e) => step := Refuse(e);
    case Blocked(reason, seen) =>
      if q.complete && (reason == BudgetExceeded || reason == RevalidationRequired) {
        if have != {} {
          return Stop;
        }
        return Refuse(if reason == BudgetExceeded then DependencyBudgetExceeded else DependencyRevalidationRequired);
      }
      var d := Disposition(s.log[row], row + 1, reason);
      if used + DispositionCost(q, d) > q.maximumBytes {
        FreshPage(s, trusted, q, have, blocked, used, cursor);
        FirstDispositionFits(q, d);
        return Stop;
      }
      BlockRow(s, trusted, q, have, blocked, used, cursor, row, d);
      step := Go(have, blocked + [d], used + DispositionCost(q, d), seen);
    case Whole(additions, bytes, seen) =>
      if used + bytes > q.maximumBytes || |have| + |additions| > RecordLimit(q) {
        FreshPage(s, trusted, q, have, blocked, used, cursor);
        FirstClosureFits(s, trusted, q, s.log[row], have, o);
        return Stop;
      }
      AddRow(s, trusted, q, have, blocked, used, cursor, row, o);
      WholeExternal(s, trusted, q, s.log[row], have, o);
      step := Go(have + additions, blocked, used + bytes, seen);
  }

  lemma FreshPage(s: Store, trusted: Trust, q: Request, have: set<Id>, blocked: seq<Disposition>, used: nat,
                  cursor: nat)
    requires PageSoFar(s, trusted, q, have, blocked, used, cursor)
    ensures have == {} && blocked == [] ==> used == Envelope(q)
  {
  }

  lemma FirstClosureFits(s: Store, trusted: Trust, q: Request, root: Id, have: set<Id>, o: Outcome)
    requires o.Whole? && WholeClosure(s, trusted, q, root, have, o)
    ensures Envelope(q) + o.bytes <= q.maximumBytes && |o.additions| <= RecordLimit(q)
  {
  }

  lemma WholeExternal(s: Store, trusted: Trust, q: Request, root: Id, have: set<Id>, o: Outcome)
    requires o.Whole? && WholeClosure(s, trusted, q, root, have, o)
    ensures o.external <= OmitSet(q)
  {
  }

  /** What the rows from one on leave of a page: refused, or filled up to a row, cut short before it
      or not. */
  datatype Filling = Refused(error: Error) | Filled(rows: nat, stopped: bool, have: set<Id>, blocked: seq<Disposition>)

  predicate RowsIn(s: Store, rows: seq<nat>) {
    forall k :: 0 <= k < |rows| ==> rows[k] < |s.log|
  }

  function Fill(s: Store, trusted: Trust, q: Request, rows: seq<nat>, k: nat, have: set<Id>,
                blocked: seq<Disposition>, used: nat, external: set<Id>): Filling
    requires k <= |rows| && RowsIn(s, rows)
    decreases |rows| - k
  {
    if k == |rows| || k >= q.limit then Filled(k, false, have, blocked)
    else
      match RowStep(s, trusted, q, rows[k], have, blocked, used, external)
      case Refuse(e) => Refused(e)
      case Stop => Filled(k, true, have, blocked)
      case Go(h, b, u, x) => Fill(s, trusted, q, rows, k + 1, h, b, u, x)
  }

  /** The rows a call asks for, one more than it may take. */
  function Asking(s: Store, trusted: Trust, q: Request): (rows: seq<nat>)
    requires RequestRefused(s, q).None?
    ensures RowsIn(s, rows)
  {
    Rows(s, trusted, q.after, q.limit + 1)
  }

  lemma AskingIs(s: Store, trusted: Trust, q: Request)
    requires RequestRefused(s, q).None?
    ensures 0 <= q.after <= |s.log| && q.limit >= 1
    ensures Asking(s, trusted, q) == Rows(s, trusted, q.after, q.limit + 1)
  {
    hide Rows;
  }

  function FillPage(s: Store, trusted: Trust, q: Request): Filling
    requires RequestRefused(s, q).None?
  {
    Fill(s, trusted, q, Asking(s, trusted, q), 0, {}, [], Envelope(q), {})
  }

  /** What a call within its ranges answers to how its page was filled. */
  ghost predicate Answers(s: Store, trusted: Trust, q: Request, filling: Filling, r: Result<Page>)
    requires RequestRefused(s, q).None?
  {
    match filling
    case Refused(e) => r == Failure(e)
    case Filled(n, stopped, have, blocked) =>
      if Uncertified(q) then r == Failure(DependencyRejected)
      else
        && r.Success? && r.value.records.Keys == have && r.value.blocked == blocked
        && r.value.more == (stopped || |Asking(s, trusted, q)| > q.limit)
        && (r.value.more ==>
              n <= |Asking(s, trusted, q)| && r.value.cursor == After(q.after, Asking(s, trusted, q), n))
  }

  lemma FillStep(s: Store, trusted: Trust, q: Request, rows: seq<nat>, k: nat, have: set<Id>, blocked: seq<Disposition>,
                 used: nat, external: set<Id>)
    requires k < |rows| && k < q.limit && RowsIn(s, rows)
    ensures Fill(s, trusted, q, rows, k, have, blocked, used, external)
            == match RowStep(s, trusted, q, rows[k], have, blocked, used, external)
               case Refuse(e) => Refused(e)
               case Stop => Filled(k, true, have, blocked)
               case Go(h, b, u, x) => Fill(s, trusted, q, rows, k + 1, h, b, u, x)
  {
    hide RowStep;
  }

  lemma FillEnds(s: Store, trusted: Trust, q: Request, rows: seq<nat>, k: nat, have: set<Id>, blocked: seq<Disposition>,
                 used: nat, external: set<Id>)
    requires k <= |rows| && RowsIn(s, rows) && (k == |rows| || k >= q.limit)
    ensures Fill(s, trusted, q, rows, k, have, blocked, used, external) == Filled(k, false, have, blocked)
  {
  }

  predicate Uncertified(q: Request) {
    q.boundary.Some? && !q.boundary.value.certified
  }

  /** _changes: one page after a cursor.  It fails exactly when a row refuses it or the boundary does
      not certify it in the end, and otherwise holds what its rows left. */
  method Changes(s: Store, trusted: Trust, q: Request) returns (r: Result<Page>)
    requires Valid(s) && SoundRequest(s, trusted, q) && |s.log| <= MAX_SEQUENCE
    ensures r.Success? ==> PageOf(s, trusted, q, r.value) && !Uncertified(q)
    ensures RequestRefused(s, q).Some? ==> r == Failure(RequestRefused(s, q).value)
    ensures RequestRefused(s, q).None? ==> Answers(s, trusted, q, FillPage(s, trusted, q), r)
    ensures RequestRefused(s, q).None? && !q.complete && !OversizedProof(s) ==> r.Success?
    ensures RequestRefused(s, q).None? && r.Failure? && !q.complete ==>
              r.error == StoredAttestationInvalid && OversizedProof(s)
    ensures r == Failure(DependencyBudgetExceeded) && RequestRefused(s, q).None? ==>
              OversizedRow(s, q)
  {
    hide PageSoFar, Silent, TooLarge, Rows, Valid, SoundRequest, OversizedProof, OversizedRow, RequestRefused,
      SentFrom, RankOf, Envelope, Outside, Seal, After, Targets, RowStep, Fill, RowsIn, Asking;
    if RequestRefused(s, q).Some? {
      return Failure(RequestRefused(s, q).value);
    }
    RequestInRange(s, q);
    var rows := Asking(s, trusted, q);
    AskingIs(s, trusted, q);
    RowsLeaveNothing(s, trusted, q.after, q.limit + 1, 0);
    var have: set<Id>, blocked: seq<Disposition>, used, external: set<Id> := {}, [], Envelope(q), {};
    var cursor: nat := q.after;
    assert cursor == After(q.after, rows, 0) by { AfterNone(q.after, rows); }
    var more, stopped := |rows| > q.limit, false;
    PageStart(s, trusted, q);
    var k := 0;
    while k < |rows| && k < q.limit
      invariant 0 <= k <= |rows| && k <= q.limit
      invariant Fill(s, trusted, q, rows, k, have, blocked, used, external) == FillPage(s, trusted, q)
      invariant PageSoFar(s, trusted, q, have, blocked, used, cursor)
      invariant cursor == After(q.after, rows, k)
      invariant external <= OmitSet(q)
      invariant k > 0 ==> cursor > q.after
      invariant k == 0 ==> have == {} && blocked == []
      invariant more == (|rows| > q.limit) && !stopped
      decreases |rows| - k
    {
      RowsLeaveNothing(s, trusted, q.after, q.limit + 1, k);
      FillStep(s, trusted, q, rows, k, have, blocked, used, external);
      var step := TakeRow(s, trusted, q, rows[k], cursor, have, blocked, used, external);
      match step {
        case Refuse(e) =>
          RowIsOversized(s, q, rows[k], e);
          return Failure(e);
        case Stop =>
          more, stopped := true, true;
          break;
        case Go(h, b, u, x) =>
          have, blocked, used, external := h, b, u, x;
          cursor := rows[k] + 1;
          AfterNext(q.after, rows, k);
          k := k + 1;
      }
    }
    if !stopped {
      FillEnds(s, trusted, q, rows, k, have, blocked, used, external);
    }
    if !more {
      RowsLeaveNothing(s, trusted, q.after, q.limit + 1, k);
      FinishRow(s, trusted, q, have, blocked, used, cursor);
      cursor := |s.log|;
    }
    if q.boundary.Some? && !q.boundary.value.certified {
      return Failure(DependencyRejected);
    }
    HaveStored(s, trusted, q, have, blocked, used, cursor);
    var page := Seal(s, q.after, cursor, more, have, blocked);
    SealPage(s, trusted, q, have, used, page);
    r := Success(page);
  }

  function Seal(s: Store, after: nat, cursor: nat, more: bool, have: set<Id>, blocked: seq<Disposition>): (page: Page)
    requires have <= s.records.Keys
    ensures page.after == after && page.cursor == cursor && page.more == more && page.blocked == blocked
    ensures page.records.Keys == have
    ensures forall id :: id in page.records ==> page.records[id] == s.records[id]
    ensures Outside(page)
  {
    Page(after, cursor, more, map id | id in have :: s.records[id], blocked,
         set id, t | id in have && t in Targets(s.records[id]) && t !in have :: t)
  }

  /** external is exactly what the sent records point at and the page leaves out. */
  ghost predicate Outside(page: Page) {
    forall t :: t in page.external <==>
      t !in page.records && exists id :: id in page.records && t in Targets(page.records[id])
  }

  lemma RequestInRange(s: Store, q: Request)
    requires RequestRefused(s, q).None?
    ensures 0 <= q.after <= |s.log| && 1 <= q.limit && (q.boundary.Some? ==> q.complete) && q.maximumBytes >= 4096
  {
  }

  lemma RowIsOversized(s: Store, q: Request, row: nat, e: Error)
    requires q.after <= row < |s.log|
    requires e == DependencyBudgetExceeded ==> TooLarge(s, q, s.log[row])
    ensures e == DependencyBudgetExceeded ==> OversizedRow(s, q)
  {
  }

  lemma HaveStored(s: Store, trusted: Trust, q: Request, have: set<Id>, blocked: seq<Disposition>, used: nat,
                   cursor: nat)
    requires PageSoFar(s, trusted, q, have, blocked, used, cursor)
    ensures have <= s.records.Keys
  {
  }

  lemma SealPage(s: Store, trusted: Trust, q: Request, have: set<Id>, used: nat, page: Page)
    requires PageSoFar(s, trusted, q, have, page.blocked, used, page.cursor)
    requires have <= s.records.Keys && page.records.Keys == have
    requires forall id :: id in page.records ==> page.records[id] == s.records[id]
    ensures SentFrom(s, trusted, q, page)
  {
  }
}
