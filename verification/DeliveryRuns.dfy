/** What every vault transaction owes the delivery log, and what a subscriber that
    follows the pages can therefore never lose. */
module DeliveryRuns {
  import opened Wrappers
  import opened Graphs
  import opened Sorting
  import opened VaultStore
  import opened Delivery

  // ----- what a transaction owes the log -----

  ghost predicate Grows(s: Store, t: Store) {
    && (forall id :: id in s.records ==> id in t.records && t.records[id] == s.records[id])
    && PinsKept(s, t)
    && |s.log| <= |t.log| && t.log[..|s.log|] == s.log
  }

  function NewEntries(s: Store, t: Store): seq<Id> {
    if |s.log| <= |t.log| then t.log[|s.log|..] else []
  }

  ghost predicate Raised(s: Store, t: Store, trusted: Trust, id: Id) {
    RankOf(t, trusted, id) > RankOf(s, trusted, id)
  }

  /** Whatever became known or stronger is in the log again. */
  ghost predicate Announces(s: Store, t: Store, trusted: Trust) {
    forall id :: id in t.records && (id !in s.records || Raised(s, t, trusted, id)) ==> id in NewEntries(s, t)
  }

  /** Whatever depends on a record that became stronger is in the log again, if readable. */
  ghost predicate Unblocks(s: Store, t: Store, trusted: Trust) {
    forall d, r :: d in s.records && Raised(s, t, trusted, d) && r in Readable(t, trusted, Dependents(t, {d})) ==>
      r in NewEntries(s, t)
  }

  ghost predicate Txn(s: Store, t: Store, trusted: Trust) {
    Valid(t) && Grows(s, t) && Announces(s, t, trusted) && Unblocks(s, t, trusted)
  }

  // ----- the batch loop -----

  /** Part way through a batch. */
  ghost predicate Batching(s: Store, b: Batch) {
    ValidOpen(b.store) && Grows(s, b.store) && b.store.receipts == s.receipts
    && ChangesLogged(s, b.store, b.upgraded)
  }

  ghost predicate PinsKept(s: Store, t: Store) {
    forall id :: id in s.pins ==> id in t.pins && t.pins[id] == s.pins[id]
  }

  /** Each changed admission is logged, and counted as an upgrade when the record was
      already there. */
  ghost predicate ChangesLogged(s: Store, t: Store, upgraded: set<Id>) {
    forall id :: id in t.rows && (id !in s.rows || t.rows[id] != s.rows[id]) ==>
      id in NewEntries(s, t) && (id in s.rows ==> id in upgraded)
  }

  /** What one turn of the batch loop does to a store: it touches one id. */
  ghost predicate Touches(u: Store, t: Store, record: Record, upgraded: bool) {
    && t.records == u.records[record.id := record] && t.receipts == u.receipts
    && (record.id in u.records ==> u.records[record.id] == record)
    && t.rows.Keys == u.rows.Keys + {record.id}
    && (forall id :: id in u.rows && id != record.id ==> t.rows[id] == u.rows[id])
    && (t.log == u.log || t.log == u.log + [record.id])
    && PinsKept(u, t)
    && (record.id !in u.rows || t.rows[record.id] != u.rows[record.id] ==>
          t.log == u.log + [record.id] && (record.id in u.rows ==> upgraded))
    && (t.rows[record.id].signer.Some? ==> record.id in t.pins)
    && (t.rows[record.id].state == Verified ==> t.rows[record.id].signer.Some?)
  }

  ghost predicate RowIsPinned(s: Store, id: Id) {
    id in s.rows ==> (s.rows[id].signer.Some? ==> id in s.pins)
                     && (s.rows[id].state == Verified ==> s.rows[id].signer.Some?)
  }

  lemma SetAdmissionTouches(u: Store, trusted: Trust, record: Record, state: Admission, proof: Option<Attestation>)
    requires RowIsPinned(u, record.id) && record.id in u.records && u.records[record.id] == record
    requires SetAdmission(u, trusted, record, state, proof).Success?
    ensures var a := SetAdmission(u, trusted, record, state, proof).value;
            Touches(u, a.store, record, a.upgraded)
  {
    hide Rank;
    assert u.records == u.records[record.id := record];
  }

  lemma InsertThenTouch(u: Store, v: Store, t: Store, record: Record, up: bool)
    requires InsertRecord(u, record, true).Success? && v == InsertRecord(u, record, true).value.store
    requires Touches(v, t, record, up)
    ensures Touches(u, t, record, up)
  {
    assert v.records[record.id := record] == u.records[record.id := record];
  }

  lemma AdmitOneTouches(b: Batch, trusted: Trust, record: Record, state: Admission, proof: Option<Attestation>)
    requires RowIsPinned(b.store, record.id)
    requires AdmitOne(b, trusted, record, state, proof).Success?
    ensures var c := AdmitOne(b, trusted, record, state, proof).value;
            exists up :: Touches(b.store, c.store, record, up)
                         && c.upgraded == if up then b.upgraded + {record.id} else b.upgraded
  {
    hide SetAdmission, Touches;
    var i := InsertRecord(b.store, record, true).value;
    SetAdmissionTouches(i.store, trusted, record, state, proof);
    var a := SetAdmission(i.store, trusted, record, state, proof).value;
    InsertThenTouch(b.store, i.store, a.store, record, a.upgraded);
  }

  lemma TouchKeepsOpen(u: Store, t: Store, record: Record, up: bool)
    requires ValidOpen(u) && Touches(u, t, record, up)
    ensures ValidOpen(t)
  {
    assert forall id :: id in u.log + [record.id] <==> id in u.log || id == record.id;
  }

  lemma TouchKeepsLogged(s: Store, u: Store, t: Store, before: set<Id>, after: set<Id>, record: Record, up: bool)
    requires Grows(s, u) && ChangesLogged(s, u, before) && Touches(u, t, record, up)
    requires after == if up then before + {record.id} else before
    requires s.rows.Keys <= u.rows.Keys
    ensures Grows(s, t) && ChangesLogged(s, t, after)
  {
    NewEntriesGrow(s, u, t, record.id);
    forall id | id in t.rows && (id !in s.rows || t.rows[id] != s.rows[id])
      ensures id in NewEntries(s, t) && (id in s.rows ==> id in after)
    {
      if id != record.id {
        assert t.rows[id] == u.rows[id];
      }
    }
  }

  lemma TouchKeeps(s: Store, b: Batch, c: Batch, record: Record, up: bool)
    requires Valid(s) && Batching(s, b) && Touches(b.store, c.store, record, up)
    requires c.upgraded == if up then b.upgraded + {record.id} else b.upgraded
    ensures Batching(s, c)
  {
    assert c.store.receipts == s.receipts;
    assert s.rows.Keys <= b.store.rows.Keys;
    hide Touches, ValidOpen, Grows, ChangesLogged;
    TouchKeepsOpen(b.store, c.store, record, up);
    TouchKeepsLogged(s, b.store, c.store, b.upgraded, c.upgraded, record, up);
  }

  lemma NewEntriesGrow(s: Store, u: Store, t: Store, id: Id)
    requires |s.log| <= |u.log| && u.log[..|s.log|] == s.log
    requires t.log == u.log || t.log == u.log + [id]
    ensures |s.log| <= |t.log| && t.log[..|s.log|] == s.log
    ensures forall x :: x in NewEntries(s, u) ==> x in NewEntries(s, t)
    ensures t.log == u.log + [id] ==> id in NewEntries(s, t)
  {
    assert NewEntries(s, t) == NewEntries(s, u) || NewEntries(s, t) == NewEntries(s, u) + [id];
    assert t.log[..|s.log|] == u.log[..|s.log|];
  }

  lemma AdmitOneKeeps(s: Store, b: Batch, trusted: Trust, record: Record, state: Admission, proof: Option<Attestation>)
    requires Valid(s) && Batching(s, b) && AdmitOne(b, trusted, record, state, proof).Success?
    ensures Batching(s, AdmitOne(b, trusted, record, state, proof).value)
  {
    hide Touches, AdmitOne, Grows, ChangesLogged;
    AdmitOneTouches(b, trusted, record, state, proof);
    var c := AdmitOne(b, trusted, record, state, proof).value;
    var up :| Touches(b.store, c.store, record, up)
              && c.upgraded == if up then b.upgraded + {record.id} else b.upgraded;
    TouchKeeps(s, b, c, record, up);
  }

  lemma {:induction false} AdmitBatchKeeps(s: Store, trusted: Trust, records: seq<Record>, state: Admission,
                                           proofs: map<Id, Attestation>, n: nat)
    requires Valid(s) && n <= |records|
    ensures match AdmitBatch(s, trusted, records, state, proofs, n)
            case Failure(_) => true
            case Success(b) => Batching(s, b)
  {
    hide Batching, AdmitOne;
    if n == 0 {
      BatchStart(s);
    } else {
      AdmitBatchKeeps(s, trusted, records, state, proofs, n - 1);
      match AdmitBatch(s, trusted, records, state, proofs, n - 1)
      case Failure(_) =>
      case Success(b) =>
        if AdmitOne(b, trusted, records[n - 1], state, ProofFor(proofs, records[n - 1].id)).Success? {
          AdmitOneKeeps(s, b, trusted, records[n - 1], state, ProofFor(proofs, records[n - 1].id));
        }
    }
  }

  lemma BatchStart(s: Store)
    requires Valid(s)
    ensures Batching(s, Batch(s, {}, 0))
  {
    assert s.log[..|s.log|] == s.log;
  }

  /** Requeueing everything that was upgraded turns a finished batch into a transaction. */
  lemma BatchBecomesTxn(s: Store, b: Batch, trusted: Trust)
    requires Valid(s) && Batching(s, b) && NoDangling(b.store)
    ensures Txn(s, Requeue(b.store, trusted, b.upgraded), trusted)
  {
    var t := Requeue(b.store, trusted, b.upgraded);
    RequeueLog(s, b.store, trusted, b.upgraded);
    assert Announces(s, t, trusted) by {
      RaisedMeansChanged(s, b, trusted);
    }
    assert Unblocks(s, t, trusted) by {
      RequeueUnblocks(s, b, trusted);
    }
  }

  lemma RequeueLog(s: Store, u: Store, trusted: Trust, seeds: set<Id>)
    requires ValidOpen(u) && Grows(s, u)
    ensures var t := Requeue(u, trusted, seeds);
      && ValidOpen(t) && Grows(s, t)
      && (forall id :: id in NewEntries(s, u) ==> id in NewEntries(s, t))
      && (forall id :: id in Readable(u, trusted, Dependents(u, seeds)) ==> id in NewEntries(s, t))
  {
    var extra := SetToSorted(Readable(u, trusted, Dependents(u, seeds)));
    assert forall id :: id in extra ==> id in u.records;
    hide Readable, Dependents, ValidOpen, Grows, NewEntries;
    LoggedLater(s, u, extra);
  }

  /** Stored records logged once more. */
  lemma LoggedLater(s: Store, u: Store, extra: seq<Id>)
    requires ValidOpen(u) && Grows(s, u) && forall id :: id in extra ==> id in u.records
    ensures var t := u.(log := u.log + extra);
      ValidOpen(t) && Grows(s, t) && NewEntries(s, t) == NewEntries(s, u) + extra
  {
    LogLater(s.log, u.log, extra);
    assert forall id :: id in u.log + extra <==> id in u.log || id in extra;
  }

  lemma LogLater(before: seq<Id>, log: seq<Id>, extra: seq<Id>)
    requires |before| <= |log| && log[..|before|] == before
    ensures (log + extra)[..|before|] == before
    ensures (log + extra)[|before|..] == log[|before|..] + extra
  {
  }

  lemma RaisedMeansChanged(s: Store, b: Batch, trusted: Trust)
    requires Valid(s) && Batching(s, b)
    ensures Announces(s, b.store, trusted)
    ensures forall d :: d in s.records && Raised(s, b.store, trusted, d) ==> d in b.upgraded
  {
    assert forall id :: id in b.store.rows && id in s.rows && b.store.rows[id] == s.rows[id] ==>
             !Raised(s, b.store, trusted, id);
  }

  lemma RequeueUnblocks(s: Store, b: Batch, trusted: Trust)
    requires Valid(s) && Batching(s, b)
    ensures Unblocks(s, Requeue(b.store, trusted, b.upgraded), trusted)
  {
    var u, t := b.store, Requeue(b.store, trusted, b.upgraded);
    RaisedMeansChanged(s, b, trusted);
    RequeueLog(s, u, trusted, b.upgraded);
    hide Batching, ValidOpen, Grows, ChangesLogged, Readable, Dependents, NewEntries;
    forall d, r | d in s.records && Raised(s, t, trusted, d) && r in Readable(t, trusted, Dependents(t, {d}))
      ensures r in NewEntries(s, t)
    {
      assert Raised(s, u, trusted, d);
      DependentOfUpgraded(u, t, trusted, b.upgraded, d, r);
    }
  }

  lemma DependentOfUpgraded(u: Store, t: Store, trusted: Trust, upgraded: set<Id>, d: Id, r: Id)
    requires t == Requeue(u, trusted, upgraded) && d in upgraded
    requires r in Readable(t, trusted, Dependents(t, {d}))
    ensures r in Readable(u, trusted, Dependents(u, upgraded))
  {
    SameGraph(u, t, r, {d});
    MoreSeeds(u, r, {d}, upgraded);
  }

  lemma SameGraph(s: Store, t: Store, r: Id, seeds: set<Id>)
    requires s.records == t.records
    ensures LeadsTo(s, r, seeds) <==> LeadsTo(t, r, seeds)
  {
    assert RelationGraph(s) == RelationGraph(t);
  }

  lemma MoreSeeds(s: Store, r: Id, few: set<Id>, many: set<Id>)
    requires LeadsTo(s, r, few) && few <= many
    ensures LeadsTo(s, r, many)
  {
  }

  // ----- every operation is such a transaction -----

  lemma Unchanged(s: Store, trusted: Trust)
    requires Valid(s)
    ensures Txn(s, s, trusted)
  {
    assert s.log[..|s.log|] == s.log;
  }

  /** Receipts play no part in delivery. */
  lemma ReceiptKeepsTxn(s: Store, t: Store, trusted: Trust, transfer: Option<Transfer>, receipt: Receipt)
    requires Txn(s, t, trusted)
    ensures Txn(s, WithReceipt(t, transfer, receipt), trusted)
  {
    hide LeadsTo, Rank;
    var u := WithReceipt(t, transfer, receipt);
    assert NewEntries(s, u) == NewEntries(s, t);
    forall d, r | d in s.records && Raised(s, u, trusted, d) && r in Readable(u, trusted, Dependents(u, {d}))
      ensures r in NewEntries(s, u)
    {
      assert Raised(s, t, trusted, d);
      SameGraph(t, u, r, {d});
      assert r in Readable(t, trusted, Dependents(t, {d}));
    }
  }

  lemma IngestIsTxn(s: Store, trusted: Trust, records: seq<Record>, state: Admission, proofs: map<Id, Attestation>,
                    transfer: Option<Transfer>, validates: Option<Store -> bool>)
    requires Valid(s) && Ingest(s, trusted, records, state, proofs, transfer, validates).Success?
    ensures Txn(s, Ingest(s, trusted, records, state, proofs, transfer, validates).value, trusted)
  {
    hide Txn, Valid, Requeue, AdmitBatch, Batching, IngestRefused;
    Unchanged(s, trusted);
    AdmitBatchKeeps(s, trusted, records, state, proofs, |records|);
    var b := AdmitBatch(s, trusted, records, state, proofs, |records|);
    if b.Success? && NoDangling(b.value.store) {
      BatchBecomesTxn(s, b.value, trusted);
      ReceiptKeepsTxn(s, Requeue(b.value.store, trusted, b.value.upgraded), trusted, transfer,
                      Receipt(0, |records|, b.value.added, state));
    } else if b.Success? {
      RequeueRecordsSame(b.value.store, trusted, b.value.upgraded);
    }
  }

  lemma RequeueRecordsSame(s: Store, trusted: Trust, seeds: set<Id>)
    ensures Requeue(s, trusted, seeds).records == s.records
  {
  }

  lemma ImportIsTxn(s: Store, trusted: Trust, records: seq<Record>, accept: bool)
    requires Valid(s) && Import(s, trusted, records, accept).Success?
    ensures Txn(s, Import(s, trusted, records, accept).value, trusted)
  {
    hide Txn, Valid, Requeue, AdmitBatch, Batching;
    var state := if accept then AcceptedUnsigned else Quarantined;
    AdmitBatchKeeps(s, trusted, records, state, map[], |records|);
    var b := AdmitBatch(s, trusted, records, state, map[], |records|);
    RequeueRecordsSame(b.value.store, trusted, b.value.upgraded);
    BatchBecomesTxn(s, b.value, trusted);
  }

  /** A remembered record is a batch of one whose relations must already be stored. */
  lemma RememberIsTxn(s: Store, trusted: Trust, record: Record, proof: Option<Attestation>)
    requires Valid(s) && Remember(s, trusted, record, proof).Success?
    ensures Txn(s, Remember(s, trusted, record, proof).value, trusted)
  {
    hide Valid, Requeue, Batching, SetAdmission, Txn;
    var state := if proof.Some? then Verified else LocalUnsigned;
    BatchStart(s);
    var c := AdmitOne(Batch(s, {}, 0), trusted, record, state, proof).value;
    AdmitOneKeeps(s, Batch(s, {}, 0), trusted, record, state, proof);
    assert c.upgraded == {} || c.upgraded == {record.id};
    SameDangling(c.store, Requeue(c.store, trusted, c.upgraded)) by {
      RequeueRecordsSame(c.store, trusted, c.upgraded);
    }
    BatchBecomesTxn(s, c, trusted);
    if c.upgraded == {} {
      RequeueNothing(c.store, trusted);
    }
  }

  lemma RequeueNothing(s: Store, trusted: Trust)
    ensures Requeue(s, trusted, {}) == s
  {
    assert Dependents(s, {}) == {};
    assert Readable(s, trusted, {}) == {};
  }

  lemma QuarantineIsTxn(s: Store, trusted: Trust, key: Key)
    requires Valid(s)
    ensures Txn(s, QuarantineSigner(s, key), trusted)
  {
    var t := QuarantineSigner(s, key);
    assert t.log[..|s.log|] == s.log;
    assert forall id :: !Raised(s, t, trusted, id);
    SameDangling(s, t);
    QuarantinedOpen(s, key);
    hide NoDangling, Raised, Dependents, Readable, ValidOpen, NewEntries;
  }

  lemma QuarantinedOpen(s: Store, key: Key)
    requires ValidOpen(s)
    ensures ValidOpen(QuarantineSigner(s, key))
  {
  }

  /** Logging stored records once more. */
  lemma LogMore(s: Store, more: seq<Id>)
    requires Valid(s) && forall id :: id in more ==> id in s.records
    ensures Valid(s.(log := s.log + more)) && Grows(s, s.(log := s.log + more))
  {
    var u := s.(log := s.log + more);
    assert u.log[..|s.log|] == s.log;
    assert forall id :: id in u.log <==> id in s.log || id in more;
  }

  lemma SameRowsTxn(s: Store, t: Store, trusted: Trust)
    requires Valid(t) && Grows(s, t) && t.records == s.records && t.rows == s.rows
    ensures Txn(s, t, trusted)
  {
    hide NewEntries, Grows, Valid;
    assert forall id :: !Raised(s, t, trusted, id);
  }

  lemma RequeueRecordsIsTxn(s: Store, trusted: Trust, ids: set<Id>)
    requires Valid(s) && RequeueRecords(s, trusted, ids).Success?
    ensures Txn(s, RequeueRecords(s, trusted, ids).value, trusted)
  {
    hide Grows, ValidOpen, NewEntries, NoDangling;
    var more := SetToSorted(ids);
    forall id | id in more
      ensures id in s.records
    {
      assert RankOf(s, trusted, id) > 0;
      ReadableIsStored(s, trusted, id);
    }
    LogMore(s, more);
    var u := s.(log := s.log + more);
    RequeueLog(s, u, trusted, ids);
    var t := Requeue(u, trusted, ids);
    assert NoDangling(t) by { SameDangling(u, t); }
    SameRowsTxn(s, t, trusted);
  }

  lemma SameDangling(s: Store, t: Store)
    requires s.records == t.records
    ensures NoDangling(s) == NoDangling(t)
  {
  }

  // ----- runs -----

  /** Some committed operation of the store. */
  ghost predicate StoreStep(s: Store, t: Store, trusted: Trust) {
    || (exists records, state, proofs, transfer, validates ::
          Ingest(s, trusted, records, state, proofs, transfer, validates) == Success(t))
    || (exists records, accept :: Import(s, trusted, records, accept) == Success(t))
    || (exists record, proof :: Remember(s, trusted, record, proof) == Success(t))
    || (exists key :: QuarantineSigner(s, key) == t)
    || (exists ids :: RequeueRecords(s, trusted, ids) == Success(t))
  }

  type Allowed = Attestation -> bool

  predicate AllAllowed(proofs: map<Id, Attestation>, allowed: Allowed) {
    forall id :: id in proofs ==> allowed(proofs[id])
  }

  /** An operation that is no quarantine and offers allowed proofs only. */
  ghost predicate OfferStep(s: Store, t: Store, trusted: Trust, allowed: Allowed) {
    || (exists records, state, proofs, transfer, validates ::
          AllAllowed(proofs, allowed) && Ingest(s, trusted, records, state, proofs, transfer, validates) == Success(t))
    || (exists records, accept :: Import(s, trusted, records, accept) == Success(t))
    || (exists record, proof: Option<Attestation> ::
          (proof.Some? ==> allowed(proof.value)) && Remember(s, trusted, record, proof) == Success(t))
    || (exists ids :: RequeueRecords(s, trusted, ids) == Success(t))
  }

  lemma StoreStepIsTxn(s: Store, t: Store, trusted: Trust)
    requires Valid(s) && StoreStep(s, t, trusted)
    ensures Txn(s, t, trusted)
  {
    hide Ingest, Import, Remember, RequeueRecords, QuarantineSigner, Txn, Valid;
    if records, state, proofs, transfer, validates :|
         Ingest(s, trusted, records, state, proofs, transfer, validates) == Success(t) {
      IngestIsTxn(s, trusted, records, state, proofs, transfer, validates);
    } else if records, accept :| Import(s, trusted, records, accept) == Success(t) {
      ImportIsTxn(s, trusted, records, accept);
    } else if record, proof :| Remember(s, trusted, record, proof) == Success(t) {
      RememberIsTxn(s, trusted, record, proof);
    } else if key :| QuarantineSigner(s, key) == t {
      QuarantineIsTxn(s, trusted, key);
    } else {
      var ids :| RequeueRecords(s, trusted, ids) == Success(t);
      RequeueRecordsIsTxn(s, trusted, ids);
    }
  }

  /** A store and one subscriber that follows its pages: where its cursor stands, what it
      has been sent, and what it was told exceeds a page. */
  datatype World = World(store: Store, cursor: nat, sent: set<Id>, oversized: set<Id>)

  ghost function Oversized(page: Page): (r: set<Id>)
    ensures forall id :: id in r <==> exists d :: d in page.blocked && d.id == id && d.reason == BudgetExceeded
  {
    set d | d in page.blocked && d.reason == BudgetExceeded :: d.id
  }

  /** The subscriber asks from its cursor on and takes in the page. */
  ghost predicate PageStepBy(w: World, v: World, trusted: Trust, requireVerified: bool, q: Request, page: Page) {
    && q.after == w.cursor && q.requireVerified == requireVerified
    && PageOf(w.store, trusted, q, page) && SoundRequest(w.store, trusted, q)
    && v == World(w.store, page.cursor, w.sent + page.records.Keys, w.oversized + Oversized(page))
  }

  ghost predicate PageStepFor(w: World, v: World, trusted: Trust, requireVerified: bool, q: Request) {
    exists page :: PageStepBy(w, v, trusted, requireVerified, q, page)
  }

  ghost predicate PageStep(w: World, v: World, trusted: Trust, requireVerified: bool) {
    exists q :: PageStepFor(w, v, trusted, requireVerified, q)
  }

  ghost predicate Next(w: World, v: World, trusted: Trust, requireVerified: bool) {
    (StoreStep(w.store, v.store, trusted) && v == w.(store := v.store)) || PageStep(w, v, trusted, requireVerified)
  }

  ghost predicate Run(run: seq<World>, trusted: Trust, requireVerified: bool) {
    && |run| > 0 && run[0] == World(EMPTY, 0, {}, {})
    && forall i :: 0 <= i < |run| - 1 ==> Next(run[i], run[i + 1], trusted, requireVerified)
  }

  /** The whole closure of a record ranks at least k. */
  ghost predicate Deliverable(s: Store, trusted: Trust, k: nat, id: Id) {
    forall d :: Reach(RelationGraph(s), id, d) ==> RankOf(s, trusted, d) >= k
  }

  ghost function Ahead(s: Store, cursor: nat): seq<Id> {
    if cursor <= |s.log| then s.log[cursor..] else []
  }

  /** Nothing deliverable is behind the cursor unsent. */
  ghost predicate NothingLost(w: World, trusted: Trust, k: nat) {
    forall id :: id in w.store.records && Deliverable(w.store, trusted, k, id) ==>
      id in w.sent || id in w.oversized || id in Ahead(w.store, w.cursor)
  }

  ghost predicate Good(w: World, trusted: Trust, k: nat) {
    Valid(w.store) && w.cursor <= |w.store.log| && NothingLost(w, trusted, k)
  }

  /** The closure of an old record is the same before and after. */
  lemma SameClosure(s: Store, t: Store, id: Id, d: Id)
    requires Valid(s) && Grows(s, t) && id in s.records
    ensures Reach(RelationGraph(s), id, d) <==> Reach(RelationGraph(t), id, d)
    ensures Reach(RelationGraph(s), id, d) ==> d in s.records
  {
    var g, h, keep := RelationGraph(s), RelationGraph(t), s.records.Keys;
    assert ClosedUnder(g, keep);
    ReachAgrees(g, h, keep, id, d);
    if Reach(g, id, d) {
      ReachStays(g, keep, id, d);
    }
  }

  /** A record that a transaction makes deliverable is announced by that transaction. */
  lemma BecomesDeliverable(s: Store, t: Store, trusted: Trust, k: nat, id: Id)
    requires Valid(s) && Txn(s, t, trusted) && 1 <= k <= 2
    requires id in t.records && Deliverable(t, trusted, k, id)
    requires id in s.records ==> !Deliverable(s, trusted, k, id)
    ensures id in NewEntries(s, t)
  {
    hide RankOf, Reach, Valid, NewEntries, Dependents, Readable;
    if id in s.records {
      var d :| Reach(RelationGraph(s), id, d) && RankOf(s, trusted, d) < k;
      SameClosure(s, t, id, d);
      assert RankOf(t, trusted, d) >= k;
      assert Raised(s, t, trusted, d);
      if d != id {
        DependsOn(t, trusted, k, id, d);
      }
    }
  }

  lemma DependsOn(t: Store, trusted: Trust, k: nat, id: Id, d: Id)
    requires id in t.records && Reach(RelationGraph(t), id, d) && id != d && k >= 1
    requires Deliverable(t, trusted, k, id)
    ensures id in Readable(t, trusted, Dependents(t, {d}))
  {
    ReachFirstStep(RelationGraph(t), id, d);
    ReachSelf(RelationGraph(t), id);
    assert LeadsTo(t, id, {d});
  }

  lemma TxnLosesNothing(w: World, t: Store, trusted: Trust, k: nat)
    requires Good(w, trusted, k) && Txn(w.store, t, trusted) && 1 <= k <= 2
    ensures Good(w.(store := t), trusted, k)
  {
    var s := w.store;
    forall id | id in t.records && Deliverable(t, trusted, k, id)
      ensures id in w.sent || id in w.oversized || id in Ahead(t, w.cursor)
    {
      AheadGrows(s, t, w.cursor);
      if id !in s.records || !Deliverable(s, trusted, k, id) {
        BecomesDeliverable(s, t, trusted, k, id);
      }
    }
  }

  lemma AheadGrows(s: Store, t: Store, cursor: nat)
    requires Grows(s, t) && cursor <= |s.log|
    ensures forall id :: id in Ahead(s, cursor) ==> id in Ahead(t, cursor)
    ensures forall id :: id in NewEntries(s, t) ==> id in Ahead(t, cursor)
  {
    assert t.log[cursor..] == s.log[cursor..] + NewEntries(s, t) by {
      assert t.log == s.log + t.log[|s.log|..];
    }
  }

  /** A deliverable row the cursor passes was sent, or was listed as larger than a page. */
  lemma RowSettled(s: Store, trusted: Trust, q: Request, page: Page, i: nat)
    requires PageOf(s, trusted, q, page) && q.after <= i < page.cursor && i < |s.log|
    requires Deliverable(s, trusted, Floor(q), s.log[i])
    ensures s.log[i] in page.records || s.log[i] in Oversized(page)
  {
    hide Reach, Total, DispositionBytes, RankOf, WithinBudget, ClosedPage, StrongPage, Asked, RelationGraph, Outside;
    var id := s.log[i];
    var used :| PageSoFar(s, trusted, q, page.records.Keys, page.blocked, used, page.cursor);
    ReachSelf(RelationGraph(s), id);
    assert RankOf(s, trusted, id) >= Floor(q) >= 1;
    if id !in page.records {
      assert Listed(page.blocked, i + 1);
      var j :| 0 <= j < |page.blocked| && page.blocked[j].sequence == i + 1;
      var d := page.blocked[j];
      assert d in page.blocked && d.id == id && Why(s, trusted, q, id, d.reason);
    }
  }

  lemma PageLosesNothing(w: World, trusted: Trust, q: Request, page: Page)
    requires Good(w, trusted, Floor(q)) && q.after == w.cursor && PageOf(w.store, trusted, q, page)
    ensures Good(World(w.store, page.cursor, w.sent + page.records.Keys, w.oversized + Oversized(page)),
                 trusted, Floor(q))
  {
    hide PageSoFar, Deliverable, Outside;
    var s := w.store;
    CursorInLog(s, trusted, q, page);
    forall id | id in s.records && Deliverable(s, trusted, Floor(q), id)
      ensures id in w.sent + page.records.Keys || id in w.oversized + Oversized(page) || id in Ahead(s, page.cursor)
    {
      if id in Ahead(s, w.cursor) {
        var i :| 0 <= i < |s.log| - w.cursor && s.log[w.cursor..][i] == id;
        assert s.log[w.cursor + i] == id;
        if w.cursor + i < page.cursor {
          RowSettled(s, trusted, q, page, w.cursor + i);
        } else {
          assert Ahead(s, page.cursor)[w.cursor + i - page.cursor] == id;
        }
      }
    }
  }

  lemma CursorInLog(s: Store, trusted: Trust, q: Request, page: Page)
    requires PageOf(s, trusted, q, page)
    ensures page.cursor <= |s.log| && q.after <= page.cursor
  {
  }

  /** No lost delivery: in every state of every run, a record whose whole closure is
      admitted (verified, for a verified feed) has been sent, was reported as larger
      than a page, or has a log entry past the cursor. */
  lemma {:induction false} NoLostDelivery(run: seq<World>, trusted: Trust, requireVerified: bool, i: nat)
    requires Run(run, trusted, requireVerified) && i < |run|
    ensures Good(run[i], trusted, if requireVerified then 2 else 1)
  {
    hide Good, StoreStep, PageOf, SoundRequest;
    var k: nat := if requireVerified then 2 else 1;
    if i == 0 {
      assert Good(run[0], trusted, k) by { EmptyIsGood(trusted, k); }
    } else {
      NoLostDelivery(run, trusted, requireVerified, i - 1);
      var w, v := run[i - 1], run[i];
      assert Next(run[i - 1], run[i - 1 + 1], trusted, requireVerified);
      if StoreStep(w.store, v.store, trusted) && v == w.(store := v.store) {
        assert Valid(w.store) by { GoodIsValid(w, trusted, k); }
        StoreStepIsTxn(w.store, v.store, trusted);
        TxnLosesNothing(w, v.store, trusted, k);
      } else {
        var q :| PageStepFor(w, v, trusted, requireVerified, q);
        var page :| PageStepBy(w, v, trusted, requireVerified, q, page);
        PageLosesNothing(w, trusted, q, page);
      }
    }
  }

  lemma GoodIsValid(w: World, trusted: Trust, k: nat)
    requires Good(w, trusted, k)
    ensures Valid(w.store)
  {
  }

  lemma EmptyIsGood(trusted: Trust, k: nat)
    ensures Good(World(EMPTY, 0, {}, {}), trusted, k)
  {
  }

  /** At the head of the log a subscriber holds every deliverable record but those reported to it
      as oversized. */
  lemma CaughtUp(run: seq<World>, trusted: Trust, requireVerified: bool, i: nat, id: Id)
    requires Run(run, trusted, requireVerified) && i < |run|
    requires run[i].cursor == |run[i].store.log| && id !in run[i].oversized
    requires id in run[i].store.records
    requires Deliverable(run[i].store, trusted, if requireVerified then 2 else 1, id)
    ensures id in run[i].sent
  {
    NoLostDelivery(run, trusted, requireVerified, i);
    assert Ahead(run[i].store, run[i].cursor) == [];
  }

  /** The blocked record of the protocol: passed over at a cursor, deliverable later in the
      run, it is logged again past that cursor. */
  lemma {:induction false} BlockedIsLoggedAgain(run: seq<World>, trusted: Trust, requireVerified: bool,
                                                i: nat, j: nat, id: Id)
    requires Run(run, trusted, requireVerified) && i <= j < |run|
    requires id in run[i].store.records
    requires !Deliverable(run[i].store, trusted, if requireVerified then 2 else 1, id)
    requires Deliverable(run[j].store, trusted, if requireVerified then 2 else 1, id)
    ensures Grows(run[i].store, run[j].store)
    ensures id in NewEntries(run[i].store, run[j].store)
    decreases j - i
  {
    hide StoreStep, PageOf, SoundRequest, Deliverable, Good, Grows, NewEntries;
    var k: nat := if requireVerified then 2 else 1;
    assert Next(run[j - 1], run[j - 1 + 1], trusted, requireVerified);
    var s, t, u := run[i].store, run[j - 1].store, run[j].store;
    RunGrows(run, trusted, requireVerified, i, j - 1);
    RunGrows(run, trusted, requireVerified, i, j);
    NoLostDelivery(run, trusted, requireVerified, j - 1);
    GoodIsValid(run[j - 1], trusted, k);
    if StoreStep(t, u, trusted) {
      StoreStepIsTxn(t, u, trusted);
      TxnGrows(t, u, trusted);
      if Deliverable(t, trusted, k, id) {
        BlockedIsLoggedAgain(run, trusted, requireVerified, i, j - 1, id);
        LaterEntries(s, t, u, id);
      } else {
        assert id in u.records by { GrowsRecords(s, u, id); }
        BecomesDeliverable(t, u, trusted, k, id);
        LaterEntries(s, t, u, id);
      }
    } else {
      assert t == u;
      BlockedIsLoggedAgain(run, trusted, requireVerified, i, j - 1, id);
    }
  }

  lemma GrowsRecords(s: Store, t: Store, id: Id)
    requires Grows(s, t) && id in s.records
    ensures id in t.records
  {
  }

  lemma LaterEntries(s: Store, t: Store, u: Store, id: Id)
    requires Grows(s, t) && Grows(t, u)
    requires id in NewEntries(s, t) || id in NewEntries(t, u)
    ensures Grows(s, u) && id in NewEntries(s, u)
  {
    assert u.log[|s.log|..] == t.log[|s.log|..] + u.log[|t.log|..] by {
      assert u.log == t.log + u.log[|t.log|..];
    }
    assert u.log[..|s.log|] == t.log[..|s.log|];
  }

  lemma {:induction false} RunGrows(run: seq<World>, trusted: Trust, requireVerified: bool, i: nat, j: nat)
    requires Run(run, trusted, requireVerified) && i <= j < |run|
    ensures Grows(run[i].store, run[j].store)
    decreases j - i
  {
    hide StoreStep, PageOf, SoundRequest, Good, Txn;
    var s := run[i].store;
    if i == j {
      assert s.log[..|s.log|] == s.log;
    } else {
      RunGrows(run, trusted, requireVerified, i, j - 1);
      var t, u := run[j - 1].store, run[j].store;
      assert Next(run[j - 1], run[j - 1 + 1], trusted, requireVerified);
      if StoreStep(t, u, trusted) {
        NoLostDelivery(run, trusted, requireVerified, j - 1);
        GoodIsValid(run[j - 1], trusted, if requireVerified then 2 else 1);
        StoreStepIsTxn(t, u, trusted);
        TxnGrows(t, u, trusted);
        assert u.log[..|s.log|] == t.log[..|s.log|];
      }
    }
  }

  lemma TxnGrows(s: Store, t: Store, trusted: Trust)
    requires Txn(s, t, trusted)
    ensures Grows(s, t)
  {
  }

  // ----- pages -----

  /** Without a boundary a page holds the whole closure of each of its records, all of it
      admitted strongly enough. */
  lemma PageHoldsClosures(s: Store, trusted: Trust, q: Request, page: Page, id: Id, d: Id)
    requires PageOf(s, trusted, q, page) && OmitSet(q) == {}
    requires id in page.records && Reach(RelationGraph(s), id, d)
    ensures d in page.records && RankOf(s, trusted, d) >= Floor(q)
    ensures page.external == {}
  {
    hide Covered, BlockedOk, WithinBudget, Asked;
    assert ClosedUnder(RelationGraph(s), page.records.Keys);
    ReachStays(RelationGraph(s), page.records.Keys, id, d);
  }

  /** With a boundary it leaves out only what the boundary vouches for. */
  lemma PageLeavesOutMembers(s: Store, trusted: Trust, q: Request, page: Page)
    requires PageOf(s, trusted, q, page)
    ensures page.external <= OmitSet(q)
  {
    hide Covered, BlockedOk, WithinBudget, Asked;
  }

  /** Pages that follow each other over an unchanged log, all but the last with more to come. */
  ghost predicate Paging(s: Store, trusted: Trust, pages: seq<Page>) {
    && (forall i :: 0 <= i < |pages| ==> SomePage(s, trusted, pages[i]))
    && (forall i :: 0 <= i < |pages| - 1 ==> pages[i].more && pages[i + 1].after == pages[i].cursor)
  }

  ghost predicate SomePage(s: Store, trusted: Trust, page: Page) {
    exists q :: PageOf(s, trusted, q, page)
  }

  lemma PagingPrefix(s: Store, trusted: Trust, pages: seq<Page>)
    requires Paging(s, trusted, pages) && |pages| > 0
    ensures Paging(s, trusted, pages[..|pages| - 1])
  {
    hide SomePage;
    var init := pages[..|pages| - 1];
    forall i | 0 <= i < |init| - 1
      ensures init[i].more && init[i + 1].after == init[i].cursor
    {
      assert pages[i].more && pages[i + 1].after == pages[i].cursor;
    }
  }

  /** Following pages ends: each one moves on, and the last without more is at the head. */
  lemma {:induction false} PagingEnds(s: Store, trusted: Trust, pages: seq<Page>)
    requires Paging(s, trusted, pages) && |pages| > 0
    ensures |pages| - 1 <= pages[|pages| - 1].after - pages[0].after <= |s.log| - pages[0].after
    ensures !pages[|pages| - 1].more ==> pages[|pages| - 1].cursor == |s.log|
  {
    hide PageSoFar, Outside;
    var last := pages[|pages| - 1];
    var q :| PageOf(s, trusted, q, last);
    CursorInLog(s, trusted, q, last);
    if |pages| > 1 {
      var init := pages[..|pages| - 1];
      PagingPrefix(s, trusted, pages);
      PagingEnds(s, trusted, init);
      var before := pages[|pages| - 2];
      assert pages[|pages| - 2 + 1].after == before.cursor && before.more;
      var p :| PageOf(s, trusted, p, before);
    }
  }
}
