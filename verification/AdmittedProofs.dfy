/** The sizes of admitted proofs.  The shape check bounds a signature in characters, the pages bound a
    proof in bytes; checked signatures are short enough for both. */
module AdmittedProofs {
  import opened Wrappers
  import opened Graphs
  import opened Sorting
  import opened VaultStore
  import opened Delivery
  import opened DeliveryRuns
  import opened DeliveryLimits
  import opened DeliveryWalks

  // ----- what every operation keeps -----

  /** Every verified row holds its proof, and every stored proof is an allowed one. */
  ghost predicate ProofsOk(s: Store, allowed: Allowed) {
    forall id :: id in s.rows ==>
      && (s.rows[id].state == Verified ==> s.rows[id].proof.Some?)
      && (s.rows[id].proof.Some? ==> allowed(s.rows[id].proof.value))
  }

  /** A committed operation that offers allowed proofs only. */
  ghost predicate OffersStep(s: Store, t: Store, trusted: Trust, allowed: Allowed) {
    OfferStep(s, t, trusted, allowed) || exists key :: QuarantineSigner(s, key) == t
  }

  lemma OfferKeeps(s: Store, trusted: Trust, record: Record, state: Admission, proof: Option<Attestation>,
                   allowed: Allowed)
    requires ProofsOk(s, allowed) && (proof.Some? ==> allowed(proof.value))
    requires SetAdmission(s, trusted, record, state, proof).Success?
    ensures ProofsOk(SetAdmission(s, trusted, record, state, proof).value.store, allowed)
  {
    hide Rank;
  }

  lemma OneKeeps(b: Batch, trusted: Trust, record: Record, state: Admission, proof: Option<Attestation>,
                 allowed: Allowed)
    requires ProofsOk(b.store, allowed) && (proof.Some? ==> allowed(proof.value))
    requires AdmitOne(b, trusted, record, state, proof).Success?
    ensures ProofsOk(AdmitOne(b, trusted, record, state, proof).value.store, allowed)
  {
    OfferKeeps(InsertRecord(b.store, record, true).value.store, trusted, record, state, proof, allowed);
    hide SetAdmission, ProofsOk;
  }

  lemma {:induction false} BatchKeeps(s: Store, trusted: Trust, records: seq<Record>, state: Admission,
                                      proofs: map<Id, Attestation>, n: nat, allowed: Allowed)
    requires n <= |records| && AllAllowed(proofs, allowed) && ProofsOk(s, allowed)
    requires AdmitBatch(s, trusted, records, state, proofs, n).Success?
    ensures ProofsOk(AdmitBatch(s, trusted, records, state, proofs, n).value.store, allowed)
  {
    hide AdmitOne, ProofsOk;
    if n > 0 {
      BatchKeeps(s, trusted, records, state, proofs, n - 1, allowed);
      var b := AdmitBatch(s, trusted, records, state, proofs, n - 1).value;
      OneKeeps(b, trusted, records[n - 1], state, ProofFor(proofs, records[n - 1].id), allowed);
    }
  }

  lemma SameRows(s: Store, t: Store, allowed: Allowed)
    requires ProofsOk(s, allowed) && s.rows == t.rows
    ensures ProofsOk(t, allowed)
  {
  }

  lemma IngestKeeps(s: Store, t: Store, trusted: Trust, records: seq<Record>, state: Admission,
                    proofs: map<Id, Attestation>, transfer: Option<Transfer>, validates: Option<Store -> bool>,
                    allowed: Allowed)
    requires ProofsOk(s, allowed) && AllAllowed(proofs, allowed)
    requires Ingest(s, trusted, records, state, proofs, transfer, validates) == Success(t)
    ensures ProofsOk(t, allowed)
  {
    hide AdmitBatch, IngestRefused, NoDangling, AllAllowed, ProofsOk;
    if AdmitBatch(s, trusted, records, state, proofs, |records|).Success? {
      BatchKeeps(s, trusted, records, state, proofs, |records|, allowed);
      var b := AdmitBatch(s, trusted, records, state, proofs, |records|).value;
      if t.rows == b.store.rows {
        SameRows(b.store, t, allowed);
      }
    }
  }

  lemma ImportKeeps(s: Store, t: Store, trusted: Trust, records: seq<Record>, accept: bool, allowed: Allowed)
    requires ProofsOk(s, allowed) && Import(s, trusted, records, accept) == Success(t)
    ensures ProofsOk(t, allowed)
  {
    hide AdmitBatch, NoDangling, ProofsOk;
    var state := if accept then AcceptedUnsigned else Quarantined;
    BatchKeeps(s, trusted, records, state, map[], |records|, allowed);
    SameRows(AdmitBatch(s, trusted, records, state, map[], |records|).value.store, t, allowed);
  }

  lemma RememberKeeps(s: Store, t: Store, trusted: Trust, record: Record, proof: Option<Attestation>, allowed: Allowed)
    requires ProofsOk(s, allowed) && (proof.Some? ==> allowed(proof.value))
    requires Remember(s, trusted, record, proof) == Success(t)
    ensures ProofsOk(t, allowed)
  {
    var i := InsertRecord(s, record, false).value;
    var state := if proof.Some? then Verified else LocalUnsigned;
    SameRows(s, i.store, allowed);
    OfferKeeps(i.store, trusted, record, state, proof, allowed);
    hide SetAdmission, NoDangling, ProofsOk;
    SameRows(SetAdmission(i.store, trusted, record, state, proof).value.store, t, allowed);
  }

  lemma QuarantineKeeps(s: Store, key: Key, allowed: Allowed)
    requires ProofsOk(s, allowed)
    ensures ProofsOk(QuarantineSigner(s, key), allowed)
  {
  }

  lemma RequeueKeeps(s: Store, t: Store, trusted: Trust, ids: set<Id>, allowed: Allowed)
    requires ProofsOk(s, allowed) && RequeueRecords(s, trusted, ids) == Success(t)
    ensures ProofsOk(t, allowed)
  {
    SameRows(s, t, allowed);
  }

  lemma OffersKeep(s: Store, t: Store, trusted: Trust, allowed: Allowed)
    requires ProofsOk(s, allowed) && OffersStep(s, t, trusted, allowed)
    ensures ProofsOk(t, allowed)
  {
    hide Ingest, Import, Remember, RequeueRecords, QuarantineSigner, ProofsOk, AllAllowed;
    if key :| QuarantineSigner(s, key) == t {
      QuarantineKeeps(s, key, allowed);
    } else if records, state, proofs, transfer, validates :|
         AllAllowed(proofs, allowed) && Ingest(s, trusted, records, state, proofs, transfer, validates) == Success(t) {
      IngestKeeps(s, t, trusted, records, state, proofs, transfer, validates, allowed);
    } else if records, accept :| Import(s, trusted, records, accept) == Success(t) {
      ImportKeeps(s, t, trusted, records, accept, allowed);
    } else if record, proof: Option<Attestation> :|
         (proof.Some? ==> allowed(proof.value)) && Remember(s, trusted, record, proof) == Success(t) {
      RememberKeeps(s, t, trusted, record, proof, allowed);
    } else {
      var ids :| RequeueRecords(s, trusted, ids) == Success(t);
      RequeueKeeps(s, t, trusted, ids, allowed);
    }
  }

  /** Stores reached from the empty one by such operations. */
  ghost predicate OfferedRun(run: seq<Store>, trusted: Trust, allowed: Allowed) {
    |run| > 0 && run[0] == EMPTY && forall i :: 0 <= i < |run| - 1 ==> OffersStep(run[i], run[i + 1], trusted, allowed)
  }

  lemma {:induction false} OfferedRunKeeps(run: seq<Store>, trusted: Trust, allowed: Allowed, i: nat)
    requires OfferedRun(run, trusted, allowed) && i < |run|
    ensures ProofsOk(run[i], allowed)
  {
    hide OffersStep;
    if i > 0 {
      OfferedRunKeeps(run, trusted, allowed, i - 1);
      assert OffersStep(run[i - 1], run[i - 1 + 1], trusted, allowed);
      hide ProofsOk;
      OffersKeep(run[i - 1], run[i], trusted, allowed);
    }
  }

  /** A signature of 64 bytes takes 88 characters in base 64, and that is what a signature check lets
      through. */
  const SIGNED_PROOF_BYTES: nat := 234 + 88

  /** Where every offered proof had its signature checked, no stored one is too large for a page, so
      no wire call within its ranges fails. */
  lemma CheckedProofsFit(run: seq<Store>, trusted: Trust, i: nat)
    requires OfferedRun(run, trusted, (a: Attestation) => a.bytes <= SIGNED_PROOF_BYTES) && i < |run|
    ensures !OversizedProof(run[i])
  {
    OfferedRunKeeps(run, trusted, (a: Attestation) => a.bytes <= SIGNED_PROOF_BYTES, i);
    hide OfferedRun;
  }

  // ----- a proof that stops the feed -----

  /** A page passes a deliverable record whose closure it has room for only if every proof in that
      closure is within the page's bound. */
  lemma PassedProofsFit(s: Store, trusted: Trust, q: Request, page: Page, i: nat, d: Id)
    requires PageOf(s, trusted, q, page) && q.boundary.None? && q.after <= i < page.cursor && i < |s.log|
    requires Deliverable(s, trusted, Floor(q), s.log[i]) && (q.complete || !TooLarge(s, q, s.log[i]))
    requires Reach(RelationGraph(s), s.log[i], d)
    ensures ProofBytes(s, d) <= MAX_PROOF_BYTES
  {
    PassedIsSent(s, trusted, q, page, i);
    PageHoldsClosures(s, trusted, q, page, s.log[i], d);
    PageProofsFit(s, trusted, q, page);
  }

  lemma PageProofsFit(s: Store, trusted: Trust, q: Request, page: Page)
    requires PageOf(s, trusted, q, page)
    ensures forall id :: id in page.records ==> ProofBytes(s, id) <= MAX_PROOF_BYTES
  {
    hide Covered, ClosedPage, BlockedOk, WithinBudget, Asked, Outside;
  }

  /** So where the next entry is such a record with a larger proof in its closure, there is no page at
      all, and the call that asks for one fails. */
  lemma LargeProofStopsFeed(s: Store, trusted: Trust, q: Request, page: Page, d: Id)
    requires q.boundary.None? && 0 <= q.after < |s.log|
    requires Deliverable(s, trusted, Floor(q), s.log[q.after]) && (q.complete || !TooLarge(s, q, s.log[q.after]))
    requires Reach(RelationGraph(s), s.log[q.after], d) && ProofBytes(s, d) > MAX_PROOF_BYTES
    ensures !PageOf(s, trusted, q, page)
  {
    hide Deliverable, TooLarge, Reach, SentFrom, Outside;
    if PageOf(s, trusted, q, page) {
      PassedProofsFit(s, trusted, q, page, q.after, d);
      assert false;
    }
  }

  ghost predicate LargeProofIn(s: Store, root: Id) {
    exists d :: Reach(RelationGraph(s), root, d) && ProofBytes(s, d) > MAX_PROOF_BYTES
  }

  /** Without a boundary and with nothing on the page yet, a root is clear exactly when its closure is
      deliverable, has room and holds no larger proof. */
  lemma ClearMeans(s: Store, trusted: Trust, q: Request, root: Id)
    requires Valid(s) && RequestRefused(s, q).None? && q.boundary.None?
    ensures Clear(s, trusted, q, {}, root) <==>
              Deliverable(s, trusted, Floor(q), root) && !TooLarge(s, q, root) && !LargeProofIn(s, root)
  {
    hide Met, Needed, NeededSet, DeliveryWalks.Allowed, Deliverable, LargeProofIn, TooLarge, Valid, Total, ProofBytes,
      RequestRefused;
    MetIsReached(s, trusted, q, root);
    if root in s.records {
      TooLargeMeans(s, q, root);
      AllNeeded(s, q, root);
    } else {
      RootIsReached(s, trusted, q, root);
    }
  }

  /** Without a boundary the walk meets, allows and needs the whole closure. */
  lemma MetIsReached(s: Store, trusted: Trust, q: Request, root: Id)
    requires q.boundary.None?
    ensures (forall id :: Met(s, q, {}, root, id) && id !in {} ==> DeliveryWalks.Allowed(s, trusted, q, id)) <==>
              Deliverable(s, trusted, Floor(q), root)
    ensures (forall id :: Needed(s, q, {}, root, id) ==> ProofBytes(s, id) <= MAX_PROOF_BYTES) <==>
              !LargeProofIn(s, root)
  {
    hide Reach, Cut, RelationGraph, ProofBytes, RankOf, Out;
    WholeGraph(s, q, root);
    NothingIsOut(q, root);
    var g := RelationGraph(s);
    assert forall id :: Met(s, q, {}, root, id) <==> Reach(g, root, id);
    assert forall id :: DeliveryWalks.Allowed(s, trusted, q, id) <==> RankOf(s, trusted, id) >= Floor(q);
  }

  lemma NothingIsOut(q: Request, root: Id)
    requires q.boundary.None?
    ensures forall id :: !Out(q, {}, root, id)
  {
  }

  lemma RootIsReached(s: Store, trusted: Trust, q: Request, root: Id)
    requires Valid(s) && root !in s.records
    ensures !Deliverable(s, trusted, Floor(q), root)
  {
    ReachSelf(RelationGraph(s), root);
    NotStored(s, trusted, root);
  }

  lemma WholeGraph(s: Store, q: Request, root: Id)
    requires q.boundary.None?
    ensures Cut(s, q, {}, root) == RelationGraph(s)
  {
  }

  lemma NotStored(s: Store, trusted: Trust, root: Id)
    requires Valid(s) && root !in s.records
    ensures RankOf(s, trusted, root) == 0
  {
  }

  lemma AllNeeded(s: Store, q: Request, root: Id)
    requires q.boundary.None?
    ensures NeededSet(s, q, {}, root) == Closure(s, root)
  {
    WholeGraph(s, q, root);
    hide Reach, Cut, RelationGraph;
  }

  /** On the wire, the walk through a deliverable closure with room breaks exactly when some proof in it
      is larger than the bound. */
  lemma WalkBreaks(s: Store, trusted: Trust, q: Request, root: Id)
    requires Valid(s) && RequestRefused(s, q).None? && !q.complete
    requires Deliverable(s, trusted, Floor(q), root) && !TooLarge(s, q, root)
    ensures WalkFrom(s, trusted, q, root, {}, {}).Broken? <==> LargeProofIn(s, root)
  {
    hide Walk, Valid, TooLarge, LargeProofIn, Clear, WalkFrom, RankOf, Reach, WholeClosure, RequestRefused;
    WireHasNoBoundary(s, q);
    ClearMeans(s, trusted, q, root);
    RootIsWhole(s, trusted, q, root, {}, {});
    RowIsTruthful(s, trusted, q, root, {}, {});
  }

  /** The first readable entry past a cursor. */
  ghost predicate NextRow(s: Store, trusted: Trust, after: int, i: nat) {
    0 <= after <= i < |s.log| && Silent(s, trusted, after, i) && RankOf(s, trusted, s.log[i]) > 0
  }

  lemma NextIsFirst(s: Store, trusted: Trust, q: Request, i: nat)
    requires RequestRefused(s, q).None? && NextRow(s, trusted, q.after, i)
    ensures Asking(s, trusted, q) != [] && Asking(s, trusted, q)[0] == i
  {
    AskingIs(s, trusted, q);
    var rows := Rows(s, trusted, q.after, q.limit + 1);
    RowsLeaveNothing(s, trusted, q.after, q.limit + 1, 0);
    AfterNone(q.after, rows);
    hide Rows, After, RankOf, Asking, RequestRefused;
  }

  /** A wire call for one row whose next readable entry is deliverable and has room fails exactly when
      some proof in that entry's closure is over the page bound. */
  lemma OneRowFails(s: Store, trusted: Trust, q: Request, i: nat)
    requires Valid(s) && RequestRefused(s, q).None? && !q.complete && q.limit == 1 && NextRow(s, trusted, q.after, i)
    requires Deliverable(s, trusted, Floor(q), s.log[i]) && !TooLarge(s, q, s.log[i])
    ensures FillPage(s, trusted, q).Refused? <==> LargeProofIn(s, s.log[i])
  {
    hide Valid, LargeProofIn, TooLarge, Deliverable, WalkFrom, Asking, RequestRefused, RecordLimit, Envelope,
      Silent;
    WalkBreaks(s, trusted, q, s.log[i]);
    NextIsFirst(s, trusted, q, i);
    OnlyRow(s, trusted, q, Asking(s, trusted, q));
  }

  lemma OnlyRow(s: Store, trusted: Trust, q: Request, rows: seq<nat>)
    requires RowsIn(s, rows) && rows != [] && q.limit == 1 && !q.complete
    ensures Fill(s, trusted, q, rows, 0, {}, [], Envelope(q), {}).Refused? <==>
              WalkFrom(s, trusted, q, s.log[rows[0]], {}, {}).Broken?
  {
    hide WalkFrom, RecordLimit, Envelope, Fill;
    FillStep(s, trusted, q, rows, 0, {}, [], Envelope(q), {});
    var step := RowStep(s, trusted, q, rows[0], {}, [], Envelope(q), {});
    if step.Go? {
      FillEnds(s, trusted, q, rows, 1, step.have, step.blocked, step.used, step.external);
    }
  }

  const HEAVY: Record := Record(1, 11, Episode, 0, [], 10)
  const HEAVY_PROOF: Attestation := Attestation(true, 7, 11, 1025)

  function HeavyStore(): Store {
    Store(map[1 := HEAVY], map[1 := 0], map[1 := AdmissionRow(Verified, Some(7), Some(HEAVY_PROOF))], map[1 := 7],
          [1], map[])
  }

  lemma HeavyIngested(trusted: Trust)
    ensures Ingest(EMPTY, trusted, [HEAVY], Verified, map[1 := HEAVY_PROOF], None, None) == Success(HeavyStore())
  {
    RequeueNothing(HeavyStore(), trusted);
    assert Targets(HEAVY) == {};
    var b := AdmitOne(Batch(EMPTY, {}, 0), trusted, HEAVY, Verified, Some(HEAVY_PROOF));
    assert b.value.store.ingest == map[1 := 0] && b.value.store.log == [1] && b.value.store.pins == map[1 := 7];
    assert b == Success(Batch(HeavyStore(), {}, 1));
    assert AdmitBatch(EMPTY, trusted, [HEAVY], Verified, map[1 := HEAVY_PROOF], 0) == Success(Batch(EMPTY, {}, 0));
    assert Ids([HEAVY]) == {1} && TotalBytes([HEAVY]) == 10;
    hide Requeue;
  }

  lemma HeavyCloses(trusted: Trust, d: Id)
    requires trusted(7) && Reach(RelationGraph(HeavyStore()), 1, d)
    ensures d == 1 && RankOf(HeavyStore(), trusted, d) == 2
  {
    var s := HeavyStore();
    assert Targets(HEAVY) == {};
    assert ClosedUnder(RelationGraph(s), {1});
    ReachStays(RelationGraph(s), {1}, 1, d);
  }

  lemma HeavyFits(trusted: Trust, q: Request)
    requires trusted(7) && RequestRefused(HeavyStore(), q).None? && !q.complete
    ensures !TooLarge(HeavyStore(), q, 1)
  {
    var s := HeavyStore();
    assert Targets(HEAVY) == {};
    forall d | d in Closure(s, 1)
      ensures d == 1
    {
      HeavyCloses(trusted, d);
    }
    assert Closure(s, 1) <= {1};
    TotalMore(s, q, Closure(s, 1), {1});
    TotalPlus(s, q, {}, 1);
    assert {} + {1} == {1};
    SmallClosuresFit(s, q, 1);
  }

  /** One record, offered with a proof that passes the shape check and is a byte over the page bound:
      it is in the store, deliverable and small, and no wire page past the start exists. */
  lemma HeavyProofStopsFeed(trusted: Trust, q: Request, page: Page)
    requires trusted(7) && q.after == 0 && !q.complete
    ensures StoreStep(EMPTY, HeavyStore(), trusted) && Deliverable(HeavyStore(), trusted, 2, 1)
    ensures !PageOf(HeavyStore(), trusted, q, page)
  {
    hide PageOf, StoreStep, TooLarge, Reach, HeavyStore, Deliverable, RequestRefused, RelationGraph, ProofBytes;
    HeavyIngested(trusted);
    HeavyStep(trusted);
    HeavyDelivers(trusted, 2);
    HeavyDelivers(trusted, Floor(q));
    if RequestRefused(HeavyStore(), q).None? {
      HeavyFits(trusted, q);
      WireHasNoBoundary(HeavyStore(), q);
      LargeProofStopsFeed(HeavyStore(), trusted, q, page, 1);
    } else {
      RefusedHasNoPage(HeavyStore(), trusted, q, page);
    }
  }

  lemma HeavyDelivers(trusted: Trust, k: nat)
    requires trusted(7) && k <= 2
    ensures Deliverable(HeavyStore(), trusted, k, 1) && HeavyStore().log == [1]
    ensures Reach(RelationGraph(HeavyStore()), 1, 1) && ProofBytes(HeavyStore(), 1) == 1025
  {
    forall d | Reach(RelationGraph(HeavyStore()), 1, d)
      ensures RankOf(HeavyStore(), trusted, d) >= k
    {
      HeavyCloses(trusted, d);
    }
    ReachSelf(RelationGraph(HeavyStore()), 1);
  }

  lemma HeavyStep(trusted: Trust)
    requires Ingest(EMPTY, trusted, [HEAVY], Verified, map[1 := HEAVY_PROOF], None, None) == Success(HeavyStore())
    ensures StoreStep(EMPTY, HeavyStore(), trusted)
  {
    hide Ingest, Import, Remember, RequeueRecords, QuarantineSigner, HeavyStore;
  }

  lemma RefusedHasNoPage(s: Store, trusted: Trust, q: Request, page: Page)
    requires RequestRefused(s, q).Some?
    ensures !PageOf(s, trusted, q, page)
  {
  }
}
