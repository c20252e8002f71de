/** What an accepted offer achieves: the rank of every record after each operation, when a batch is
    taken in at all, and what its receipt counts. */
module Admissions {
  import opened Wrappers
  import opened Graphs
  import opened Sorting
  import opened VaultStore
  import opened Delivery
  import opened DeliveryRuns
  import opened StateAuthority

  // ----- one offer -----

  /** A fitting offer that is no stronger than the row changes nothing; a stronger one ranks as
      offered, unless it is verified by a key the vault does not trust. */
  lemma OfferMeans(s: Store, trusted: Trust, record: Record, state: Admission, proof: Option<Attestation>)
    requires AttestationFits(record, state, proof)
    ensures SetAdmission(s, trusted, record, state, proof).Success?
    ensures RankAfter(s, trusted, record, state, proof)
            == if RankOf(s, trusted, record.id) >= Offered(state) then RankOf(s, trusted, record.id)
               else if state == Verified && !trusted(proof.value.key) then 0
               else Offered(state)
  {
  }

  /** A quarantined or revoked record is readable again after a fitting offer that is unsigned or
      verified by a trusted key, and a readable one never falls. */
  lemma OfferRaises(s: Store, trusted: Trust, record: Record, state: Admission, proof: Option<Attestation>)
    requires AttestationFits(record, state, proof) && (state == Verified ==> trusted(proof.value.key))
    ensures RankAfter(s, trusted, record, state, proof) == Max(RankOf(s, trusted, record.id), Offered(state))
  {
    OfferMeans(s, trusted, record, state, proof);
  }

  lemma OfferElsewhere(s: Store, trusted: Trust, record: Record, state: Admission, proof: Option<Attestation>, id: Id)
    requires SetAdmission(s, trusted, record, state, proof).Success? && id != record.id
    ensures RankOf(SetAdmission(s, trusted, record, state, proof).value.store, trusted, id) == RankOf(s, trusted, id)
  {
    hide Rank;
  }

  // ----- a batch -----

  /** The offered records are those stored under their ids, if any are, and each offer fits. */
  predicate BatchFits(s: Store, records: seq<Record>, state: Admission, proofs: map<Id, Attestation>) {
    forall r :: r in records ==>
      && (r.id in s.records ==> s.records[r.id] == r) && AttestationFits(r, state, ProofFor(proofs, r.id))
  }

  /** What the rank of a record is after a batch of trusted offers: the larger of old and offered for
      the records of the batch, the old one for all others. */
  ghost predicate Ranked(s: Store, t: Store, trusted: Trust, batch: set<Id>, state: Admission) {
    forall id :: RankOf(t, trusted, id)
                 == if id in batch then Max(RankOf(s, trusted, id), Offered(state)) else RankOf(s, trusted, id)
  }

  lemma OneRanks(b: Batch, trusted: Trust, record: Record, state: Admission, proof: Option<Attestation>)
    requires AdmitOne(b, trusted, record, state, proof).Success? && (proof.Some? ==> trusted(proof.value.key))
    ensures Ranked(b.store, AdmitOne(b, trusted, record, state, proof).value.store, trusted, {record.id}, state)
  {
    var u := InsertRecord(b.store, record, true).value.store;
    OfferRaises(u, trusted, record, state, proof);
    forall id | id != record.id
      ensures RankOf(SetAdmission(u, trusted, record, state, proof).value.store, trusted, id) == RankOf(u, trusted, id)
    {
      OfferElsewhere(u, trusted, record, state, proof, id);
    }
    hide SetAdmission, Rank;
  }

  lemma RankedMore(s: Store, t: Store, u: Store, trusted: Trust, batch: set<Id>, id: Id, state: Admission)
    requires Ranked(s, t, trusted, batch, state) && Ranked(t, u, trusted, {id}, state)
    ensures Ranked(s, u, trusted, batch + {id}, state)
  {
    hide RankOf;
  }

  lemma {:induction false} BatchRanks(s: Store, trusted: Trust, records: seq<Record>, state: Admission,
                                      proofs: map<Id, Attestation>, n: nat)
    requires n <= |records| && AllAllowed(proofs, ByTrusted(trusted))
    requires AdmitBatch(s, trusted, records, state, proofs, n).Success?
    ensures Ranked(s, AdmitBatch(s, trusted, records, state, proofs, n).value.store, trusted, Ids(records[..n]), state)
  {
    hide AdmitOne, Ranked;
    if n == 0 {
      NothingRanked(s, trusted, state);
      assert Ids(records[..0]) == {};
    } else {
      BatchRanks(s, trusted, records, state, proofs, n - 1);
      var b := AdmitBatch(s, trusted, records, state, proofs, n - 1).value;
      var r := records[n - 1];
      OneRanks(b, trusted, r, state, ProofFor(proofs, r.id));
      RankedMore(s, b.store, AdmitBatch(s, trusted, records, state, proofs, n).value.store, trusted,
                 Ids(records[..n - 1]), r.id, state);
      assert Ids(records[..n]) == Ids(records[..n - 1]) + {r.id} by { IdsMore(records, n - 1); }
    }
  }

  lemma NothingRanked(s: Store, trusted: Trust, state: Admission)
    ensures Ranked(s, s, trusted, {}, state)
  {
  }

  lemma IdsMore(records: seq<Record>, n: nat)
    requires n < |records|
    ensures Ids(records[..n + 1]) == Ids(records[..n]) + {records[n].id}
  {
    assert records[..n + 1] == records[..n] + [records[n]];
    assert forall x :: x in records[..n + 1] <==> x in records[..n] || x == records[n];
  }

  lemma SameRanks(s: Store, t: Store, u: Store, trusted: Trust, batch: set<Id>, state: Admission)
    requires Ranked(s, t, trusted, batch, state) && u.rows == t.rows
    ensures Ranked(s, u, trusted, batch, state)
  {
  }

  // ----- every operation -----

  /** The call files its transfer for the first time, or has none. */
  predicate NewTransfer(s: Store, transfer: Option<Transfer>) {
    transfer.None? || transfer.value.id !in s.receipts
  }

  /** After a committed ingest of proofs by trusted keys every record of the batch ranks at least as
      offered: verified ones 2, whether they were quarantined, revoked, unsigned or unknown before. */
  lemma IngestRanks(s: Store, t: Store, trusted: Trust, records: seq<Record>, state: Admission,
                    proofs: map<Id, Attestation>, transfer: Option<Transfer>, validates: Option<Store -> bool>)
    requires AllAllowed(proofs, ByTrusted(trusted)) && NewTransfer(s, transfer)
    requires Ingest(s, trusted, records, state, proofs, transfer, validates) == Success(t)
    ensures Ranked(s, t, trusted, Ids(records), state)
    ensures state == Verified ==> forall id :: id in Ids(records) ==> RankOf(t, trusted, id) == 2
  {
    hide AdmitBatch, IngestRefused, NoDangling, AllAllowed, Ranked, Ids;
    assert records[..|records|] == records;
    BatchRanks(s, trusted, records, state, proofs, |records|);
    var b := AdmitBatch(s, trusted, records, state, proofs, |records|).value;
    SameRanks(s, b.store, t, trusted, Ids(records), state);
    RankedTop(s, t, trusted, Ids(records), state);
  }

  lemma RankedTop(s: Store, t: Store, trusted: Trust, batch: set<Id>, state: Admission)
    requires Ranked(s, t, trusted, batch, state)
    ensures state == Verified ==> forall id :: id in batch ==> RankOf(t, trusted, id) == 2
  {
    hide RankOf;
  }

  /** An accepted import makes every record of it readable, a quarantined one none. */
  lemma ImportRanks(s: Store, t: Store, trusted: Trust, records: seq<Record>, accept: bool)
    requires Import(s, trusted, records, accept) == Success(t)
    ensures Ranked(s, t, trusted, Ids(records), if accept then AcceptedUnsigned else Quarantined)
  {
    hide AdmitBatch, NoDangling, Ranked, Ids;
    var state := if accept then AcceptedUnsigned else Quarantined;
    assert records[..|records|] == records;
    BatchRanks(s, trusted, records, state, map[], |records|);
    SameRanks(s, AdmitBatch(s, trusted, records, state, map[], |records|).value.store, t, trusted, Ids(records), state);
  }

  lemma RememberRanks(s: Store, t: Store, trusted: Trust, record: Record, proof: Option<Attestation>)
    requires (proof.Some? ==> trusted(proof.value.key)) && Remember(s, trusted, record, proof) == Success(t)
    ensures Ranked(s, t, trusted, {record.id}, if proof.Some? then Verified else LocalUnsigned)
  {
    hide SetAdmission, Ranked, NoDangling, Requeue, InsertRecord;
    var state := if proof.Some? then Verified else LocalUnsigned;
    PresentTargets(s, record);
    OneRanks(Batch(s, {}, 0), trusted, record, state, proof);
    var c := AdmitOne(Batch(s, {}, 0), trusted, record, state, proof).value;
    RequeueKeepsRows(c.store, trusted, {record.id});
    SameRanks(s, c.store, t, trusted, {record.id}, state);
  }

  lemma PresentTargets(s: Store, record: Record)
    requires InsertRecord(s, record, false).Success?
    ensures InsertRecord(s, record, true) == InsertRecord(s, record, false)
  {
  }

  lemma RequeueKeepsRows(s: Store, trusted: Trust, seeds: set<Id>)
    ensures Requeue(s, trusted, seeds).rows == s.rows && Requeue(s, trusted, seeds).receipts == s.receipts
  {
  }

  /** A quarantine hides exactly what its signer had verified, and changes nothing else. */
  lemma QuarantineRanks(s: Store, trusted: Trust, key: Key, id: Id)
    ensures RankOf(QuarantineSigner(s, key), trusted, id)
            == if id in s.rows && s.rows[id].signer == Some(key) && s.rows[id].state == Verified then 0
               else RankOf(s, trusted, id)
  {
  }

  lemma RequeueRanks(s: Store, t: Store, trusted: Trust, ids: set<Id>, id: Id)
    requires RequeueRecords(s, trusted, ids) == Success(t)
    ensures RankOf(t, trusted, id) == RankOf(s, trusted, id)
  {
  }

  /** The way back from quarantine: a record hidden before the ingest is logged and readable after it,
      and whatever readable depends on it is logged too. */
  lemma QuarantinedIsReadmitted(s: Store, t: Store, trusted: Trust, records: seq<Record>,
                                proofs: map<Id, Attestation>, transfer: Option<Transfer>,
                                validates: Option<Store -> bool>, id: Id)
    requires Valid(s) && AllAllowed(proofs, ByTrusted(trusted)) && NewTransfer(s, transfer)
    requires Ingest(s, trusted, records, Verified, proofs, transfer, validates) == Success(t)
    requires id in Ids(records) && id in s.records && RankOf(s, trusted, id) < 2
    ensures RankOf(t, trusted, id) == 2 && id in NewEntries(s, t)
    ensures forall r :: r in Readable(t, trusted, Dependents(t, {id})) ==> r in NewEntries(s, t)
  {
    IngestIsTxn(s, trusted, records, Verified, proofs, transfer, validates);
    hide Ingest, RankOf, Valid, Dependents, Readable, AllAllowed, NewEntries;
    IngestRanks(s, t, trusted, records, Verified, proofs, transfer, validates);
    assert Raised(s, t, trusted, id);
    TxnGrows(s, t, trusted);
  }

  // ----- when a batch is taken in -----

  /** Part way through a batch of distinct ids: the stored records are the old ones and those read. */
  ghost predicate Entered(s: Store, b: Batch, records: seq<Record>, n: nat) {
    && n <= |records| && Counted(s, b.store, b.added, Ids(records[..n]))
    && BodiesKept(s.records, b.store.records, records, n)
  }

  ghost predicate Counted(s: Store, t: Store, added: nat, batch: set<Id>) {
    t.records.Keys == s.records.Keys + batch && added == |t.records.Keys| - |s.records.Keys|
  }

  ghost predicate BodiesKept(a: map<Id, Record>, b: map<Id, Record>, records: seq<Record>, n: nat)
    requires n <= |records|
  {
    && (forall id :: id in a ==> id in b && b[id] == a[id])
    && (forall j :: 0 <= j < n ==> records[j].id in b && b[records[j].id] == records[j])
  }

  lemma OneEnters(s: Store, b: Batch, trusted: Trust, records: seq<Record>, n: nat, state: Admission,
                  proof: Option<Attestation>)
    requires DistinctIds(records) && n < |records| && Entered(s, b, records, n)
    ensures var r := records[n];
      var c := AdmitOne(b, trusted, r, state, proof);
      && (c.Success? <==> (r.id in s.records ==> s.records[r.id] == r) && AttestationFits(r, state, proof))
      && (c.Success? ==> Entered(s, c.value, records, n + 1))
  {
    hide Entered, Rank, InsertRecord, SetAdmission, AttestationFits, DistinctIds;
    var r := records[n];
    InsertEnters(s, b, records, n);
    if InsertRecord(b.store, r, true).Success? {
      var i := InsertRecord(b.store, r, true).value;
      OfferFits(i.store, trusted, r, state, proof);
      var c := AdmitOne(b, trusted, r, state, proof);
      if c.Success? {
        EnteredSame(s, WithInserted(b, i), c.value, records, n + 1);
      }
    }
  }

  lemma EnteredSame(s: Store, b: Batch, c: Batch, records: seq<Record>, n: nat)
    requires Entered(s, b, records, n) && c.store.records == b.store.records && c.added == b.added
    ensures Entered(s, c, records, n)
  {
  }

  function WithInserted(b: Batch, i: Inserted): Batch {
    b.(store := i.store, added := b.added + if i.created then 1 else 0)
  }

  lemma InsertEnters(s: Store, b: Batch, records: seq<Record>, n: nat)
    requires DistinctIds(records) && n < |records| && Entered(s, b, records, n)
    ensures var i := InsertRecord(b.store, records[n], true);
      && (i.Success? <==> (records[n].id in s.records ==> s.records[records[n].id] == records[n]))
      && (i.Success? ==> Entered(s, WithInserted(b, i.value), records, n + 1))
  {
    hide Ids, DistinctIds, BodiesKept, Counted, Entered, WithInserted;
    if records[n].id in b.store.records {
      KnownEnters(s, b, records, n);
    } else {
      NewEnters(s, b, records, n);
    }
  }

  lemma KnownEnters(s: Store, b: Batch, records: seq<Record>, n: nat)
    requires DistinctIds(records) && n < |records| && Entered(s, b, records, n)
    requires records[n].id in b.store.records
    ensures records[n].id in s.records && s.records[records[n].id] == b.store.records[records[n].id]
    ensures b.store.records[records[n].id] == records[n] ==>
              Entered(s, WithInserted(b, Inserted(b.store, false)), records, n + 1)
  {
    hide Ids, DistinctIds, BodiesKept, Counted, Entered;
    var r := records[n];
    EnteredParts(s, b, records, n);
    IdsMore(records, n);
    NotYetRead(records, n);
    InsertKeeps(s.records, b.store.records, records, n);
    SameCount(s, b.store, b.added, Ids(records[..n]), Ids(records[..n + 1]), r.id);
    if b.store.records[r.id] == r {
      EnteredFrom(s, WithInserted(b, Inserted(b.store, false)), records, n + 1);
    }
  }

  lemma NewEnters(s: Store, b: Batch, records: seq<Record>, n: nat)
    requires DistinctIds(records) && n < |records| && Entered(s, b, records, n)
    requires records[n].id !in b.store.records
    ensures records[n].id !in s.records && InsertRecord(b.store, records[n], true).Success?
    ensures Entered(s, WithInserted(b, InsertRecord(b.store, records[n], true).value), records, n + 1)
  {
    hide Ids, DistinctIds, BodiesKept, Counted, Entered, InsertRecord;
    var r := records[n];
    EnteredParts(s, b, records, n);
    IdsMore(records, n);
    InsertKeeps(s.records, b.store.records, records, n);
    CountedKeys(s, b.store, b.added, Ids(records[..n]));
    NewIsInserted(b.store, r);
    var i := InsertRecord(b.store, r, true).value;
    OneMore(b.store.records, r.id, r);
    NewCount(s, b.store, i.store, b.added, Ids(records[..n]), Ids(records[..n + 1]), r.id);
    EnteredFrom(s, WithInserted(b, i), records, n + 1);
  }

  lemma NewIsInserted(u: Store, r: Record)
    requires r.id !in u.records
    ensures var i := InsertRecord(u, r, true);
      i.Success? && i.value.created && i.value.store.records == u.records[r.id := r]
  {
  }

  lemma EnteredParts(s: Store, b: Batch, records: seq<Record>, n: nat)
    requires n <= |records| && Entered(s, b, records, n)
    ensures Counted(s, b.store, b.added, Ids(records[..n])) && BodiesKept(s.records, b.store.records, records, n)
  {
  }

  lemma EnteredFrom(s: Store, b: Batch, records: seq<Record>, n: nat)
    requires n <= |records| && Counted(s, b.store, b.added, Ids(records[..n]))
    requires BodiesKept(s.records, b.store.records, records, n)
    ensures Entered(s, b, records, n)
  {
  }

  lemma CountedKeys(s: Store, t: Store, added: nat, batch: set<Id>)
    requires Counted(s, t, added, batch)
    ensures forall id :: id in t.records <==> id in s.records || id in batch
  {
  }

  lemma SameCount(s: Store, t: Store, added: nat, before: set<Id>, after: set<Id>, id: Id)
    requires Counted(s, t, added, before) && after == before + {id} && id in t.records && id !in before
    ensures Counted(s, t, added, after) && id in s.records
  {
    assert s.records.Keys + after == s.records.Keys + before;
  }

  lemma NewCount(s: Store, t: Store, u: Store, added: nat, before: set<Id>, after: set<Id>, id: Id)
    requires Counted(s, t, added, before) && after == before + {id}
    requires u.records.Keys == t.records.Keys + {id} && |u.records.Keys| == |t.records.Keys| + 1
    ensures Counted(s, u, added + 1, after)
  {
  }

  lemma InsertKeeps(a: map<Id, Record>, b: map<Id, Record>, records: seq<Record>, n: nat)
    requires DistinctIds(records) && n < |records| && BodiesKept(a, b, records, n)
    ensures var r := records[n];
      && (r.id in a ==> r.id in b && b[r.id] == a[r.id])
      && (r.id !in b || b[r.id] == r ==> BodiesKept(a, b[r.id := r], records, n + 1))
      && (r.id in b && b[r.id] == r ==> BodiesKept(a, b, records, n + 1))
  {
  }

  lemma OneMore(m: map<Id, Record>, id: Id, r: Record)
    ensures m[id := r].Keys == m.Keys + {id}
    ensures |m[id := r].Keys| == |m.Keys| + if id in m then 0 else 1
  {
    assert m[id := r].Keys == m.Keys + {id};
    if id in m {
      assert m.Keys + {id} == m.Keys;
    }
  }

  lemma NotYetRead(records: seq<Record>, n: nat)
    requires DistinctIds(records) && n < |records|
    ensures records[n].id !in Ids(records[..n])
  {
  }

  lemma OfferFits(s: Store, trusted: Trust, record: Record, state: Admission, proof: Option<Attestation>)
    ensures SetAdmission(s, trusted, record, state, proof).Success? <==> AttestationFits(record, state, proof)
    ensures SetAdmission(s, trusted, record, state, proof).Success? ==>
              SetAdmission(s, trusted, record, state, proof).value.store.records == s.records
  {
  }

  lemma {:induction false} BatchEnters(s: Store, trusted: Trust, records: seq<Record>, state: Admission,
                                       proofs: map<Id, Attestation>, n: nat)
    requires DistinctIds(records) && n <= |records|
    ensures var b := AdmitBatch(s, trusted, records, state, proofs, n);
      && (b.Success? <==> BatchFits(s, records[..n], state, proofs))
      && (b.Success? ==> Entered(s, b.value, records, n))
  {
    hide AdmitOne, Entered, AttestationFits;
    if n == 0 {
      NoneEntered(s, records);
    } else {
      BatchEnters(s, trusted, records, state, proofs, n - 1);
      var r := records[n - 1];
      assert forall x :: x in records[..n] <==> x in records[..n - 1] || x == r by {
        assert records[..n] == records[..n - 1] + [r];
      }
      var b := AdmitBatch(s, trusted, records, state, proofs, n - 1);
      if b.Success? {
        OneEnters(s, b.value, trusted, records, n - 1, state, ProofFor(proofs, r.id));
      }
    }
  }

  lemma NoneEntered(s: Store, records: seq<Record>)
    ensures Entered(s, Batch(s, {}, 0), records, 0)
  {
    assert Ids(records[..0]) == {};
  }

  /** The base a chained transfer builds on is receipted. */
  predicate BaseHeld(s: Store, transfer: Option<Transfer>) {
    transfer.Some? && transfer.value.previous.Some? ==> HasReceipt(s, transfer.value.previous.value)
  }

  /** A new transfer that passes the early refusals commits exactly when its records agree with those
      stored, its proofs fit, the validator agrees and no relation is left dangling; its receipt counts
      the records it brought and those that were new. */
  lemma IngestAccepts(s: Store, trusted: Trust, records: seq<Record>, state: Admission, proofs: map<Id, Attestation>,
                      transfer: Option<Transfer>, validates: Option<Store -> bool>)
    requires Valid(s) && IngestRefused(records, state, proofs, transfer, validates.Some?).None?
    requires NewTransfer(s, transfer) && BaseHeld(s, transfer)
    ensures var i := Ingest(s, trusted, records, state, proofs, transfer, validates);
      var b := AdmitBatch(s, trusted, records, state, proofs, |records|);
      && (i.Success? <==>
            && BatchFits(s, records, state, proofs)
            && (validates.Some? ==> b.Success? && validates.value(b.value.store))
            && forall r :: r in records ==> Targets(r) <= s.records.Keys + Ids(records))
      && (i.Success? ==> i.value.records.Keys == s.records.Keys + Ids(records))
      && (i.Success? && transfer.Some? ==>
            && transfer.value.id in i.value.receipts
            && var receipt := i.value.receipts[transfer.value.id];
              && receipt.payload == transfer.value.payload && receipt.seen == |records| && receipt.admission == state
              && receipt.added + |s.records.Keys| == |i.value.records.Keys|)
  {
    assert records[..|records|] == records;
    DistinctWhenAccepted(records, state, proofs, transfer, validates.Some?);
    BatchEnters(s, trusted, records, state, proofs, |records|);
    hide AdmitBatch, IngestRefused, BatchFits, Valid, Requeue, NoDangling, Entered, Ids, Targets, WithReceipt,
      Committed;
    if AdmitBatch(s, trusted, records, state, proofs, |records|).Success? {
      var b := AdmitBatch(s, trusted, records, state, proofs, |records|).value;
      BatchDangles(s, b, records);
      Commits(b.store, trusted, b.upgraded, transfer, Receipt(0, |records|, b.added, state));
    }
  }

  /** A bundle of distinct ids is imported exactly when its records agree with those stored and all their
      targets are there. */
  lemma ImportAccepts(s: Store, trusted: Trust, records: seq<Record>, accept: bool)
    requires Valid(s) && DistinctIds(records)
    ensures Import(s, trusted, records, accept).Success? <==>
              && (forall r :: r in records && r.id in s.records ==> s.records[r.id] == r)
              && (forall r :: r in records ==> Targets(r) <= s.records.Keys + Ids(records))
  {
    var state := if accept then AcceptedUnsigned else Quarantined;
    assert records[..|records|] == records;
    BatchEnters(s, trusted, records, state, map[], |records|);
    UnsignedFits(s, records, state);
    hide AdmitBatch, BatchFits, Valid, Requeue, NoDangling, Entered, Ids, Targets, Committed;
    if AdmitBatch(s, trusted, records, state, map[], |records|).Success? {
      var b := AdmitBatch(s, trusted, records, state, map[], |records|).value;
      BatchDangles(s, b, records);
      CommitsBare(b.store, trusted, b.upgraded);
    }
  }

  /** One local record is remembered exactly when it is the one stored under its id or all its targets are
      there, and its proof fits. */
  lemma RememberAccepts(s: Store, trusted: Trust, record: Record, proof: Option<Attestation>)
    requires Valid(s)
    ensures Remember(s, trusted, record, proof).Success? <==>
              && (if record.id in s.records then s.records[record.id] == record
                  else Targets(record) <= s.records.Keys)
              && AttestationFits(record, if proof.Some? then Verified else LocalUnsigned, proof)
  {
    hide SetAdmission, AttestationFits, Requeue, NoDangling, Targets;
    var state := if proof.Some? then Verified else LocalUnsigned;
    if InsertRecord(s, record, false).Success? {
      var i := InsertRecord(s, record, false).value;
      InsertCloses(s, record);
      OfferFits(i.store, trusted, record, state, proof);
      if SetAdmission(i.store, trusted, record, state, proof).Success? {
        var u := SetAdmission(i.store, trusted, record, state, proof).value.store;
        SameRelations(i.store, u);
        SameRelations(i.store, Requeue(u, trusted, {record.id})) by { RequeueRecordsSame(u, trusted, {record.id}); }
      }
    }
  }

  lemma RequeueRecordsSame(s: Store, trusted: Trust, seeds: set<Id>)
    ensures Requeue(s, trusted, seeds).records == s.records
  {
  }

  lemma SameRelations(s: Store, t: Store)
    requires NoDangling(s) && t.records == s.records
    ensures NoDangling(t)
  {
  }

  lemma InsertCloses(s: Store, record: Record)
    requires Valid(s) && InsertRecord(s, record, false).Success?
    ensures NoDangling(InsertRecord(s, record, false).value.store)
  {
  }

  lemma UnsignedFits(s: Store, records: seq<Record>, state: Admission)
    requires state != Verified
    ensures BatchFits(s, records, state, map[]) <==>
              forall r :: r in records && r.id in s.records ==> s.records[r.id] == r
  {
  }

  lemma CommitsBare(u: Store, trusted: Trust, seeds: set<Id>)
    ensures Committed(Requeue(u, trusted, seeds)).Success? <==> NoDangling(u)
  {
    hide Targets;
  }

  lemma Commits(u: Store, trusted: Trust, seeds: set<Id>, transfer: Option<Transfer>, receipt: Receipt)
    ensures var c := Committed(WithReceipt(Requeue(u, trusted, seeds), transfer, receipt));
      && (c.Success? <==> NoDangling(u))
      && (c.Success? ==> c.value.records == u.records)
      && (c.Success? && transfer.Some? ==>
            transfer.value.id in c.value.receipts
            && c.value.receipts[transfer.value.id] == receipt.(payload := transfer.value.payload))
  {
    hide Targets;
  }

  lemma DistinctWhenAccepted(records: seq<Record>, state: Admission, proofs: map<Id, Attestation>,
                             transfer: Option<Transfer>, validating: bool)
    requires IngestRefused(records, state, proofs, transfer, validating).None?
    ensures DistinctIds(records)
  {
    hide TotalBytes;
  }

  lemma BatchDangles(s: Store, b: Batch, records: seq<Record>)
    requires Valid(s) && Entered(s, b, records, |records|)
    ensures b.store.records.Keys == s.records.Keys + Ids(records)
    ensures b.added == |b.store.records.Keys| - |s.records.Keys|
    ensures NoDangling(b.store) <==> forall r :: r in records ==> Targets(r) <= s.records.Keys + Ids(records)
  {
    assert records[..|records|] == records;
    hide ValidOpen, Targets, Ids;
    if forall r :: r in records ==> Targets(r) <= s.records.Keys + Ids(records) {
      forall id | id in b.store.records
        ensures Targets(b.store.records[id]) <= b.store.records.Keys
      {
        if id !in s.records {
          var r :| r in records && r.id == id;
          var j :| 0 <= j < |records| && records[j] == r;
          assert b.store.records[records[j].id] == records[j];
        }
      }
    }
    if NoDangling(b.store) {
      forall r | r in records
        ensures Targets(r) <= s.records.Keys + Ids(records)
      {
        var j :| 0 <= j < |records| && records[j] == r;
        assert b.store.records[records[j].id] == records[j];
      }
    }
  }
}
