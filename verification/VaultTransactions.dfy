/** The vault as the object its methods change: a committed state and the working
    state of the open transaction. */
module VaultTransactions {
  import opened Wrappers
  import opened Graphs
  import opened Sorting
  import opened VaultStore

  class Vault {
    const trusted: Trust
    var committed: Store
    var work: Store

    constructor (trusted: Trust)
      ensures this.trusted == trusted && committed == EMPTY && work == EMPTY
    {
      this.trusted := trusted;
      committed, work := EMPTY, EMPTY;
    }

    method Begin()
      modifies this
      ensures work == committed == old(committed)
    {
      work := committed;
    }

    method Rollback()
      modifies this
      ensures work == committed == old(committed)
    {
      work := committed;
    }

    /** The deferred foreign key is checked here; a failing commit rolls back. */
    method Commit() returns (r: Result<Store>)
      modifies this
      ensures r == Committed(old(work))
      ensures committed == (if r.Success? then old(work) else old(committed))
      ensures work == committed
    {
      r := Committed(work);
      if r.Success? {
        committed := work;
      } else {
        work := committed;
      }
    }

    method InsertOne(record: Record, allowPending: bool) returns (r: Result<bool>)
      modifies this`work
      ensures match InsertRecord(old(work), record, allowPending)
              case Failure(e) => r == Failure(e) && work == old(work)
              case Success(i) => r == Success(i.created) && work == i.store
    {
      if record.id in work.records {
        return if work.records[record.id] != record then Failure(MemoryIdentityConflict) else Success(false);
      }
      if !allowPending {
        for k := 0 to |record.relations|
          invariant forall j :: 0 <= j < k ==> record.relations[j].target in work.records
        {
          if record.relations[k].target !in work.records {
            assert record.relations[k].target in Targets(record);
            return Failure(DanglingRelation);
          }
        }
        assert Targets(record) <= work.records.Keys;
      }
      work := work.(records := work.records[record.id := record],
                    ingest := work.ingest[record.id := |work.records|]);
      r := Success(true);
    }

    method Admit(record: Record, state: Admission, proof: Option<Attestation>) returns (r: Result<bool>)
      modifies this`work
      ensures match SetAdmission(old(work), trusted, record, state, proof)
              case Failure(e) => r == Failure(e) && work == old(work)
              case Success(a) => r == Success(a.upgraded) && work == a.store
    {
      var key: Option<Key>, kept: Option<Attestation> := None, None;
      if state == Verified {
        if proof.None? || !proof.value.wellFormed || proof.value.digest != record.sha
           || proof.value.bytes > MAX_OFFERED_PROOF_BYTES {
          return Failure(InvalidAttestation);
        }
        key, kept := Some(proof.value.key), proof;
      } else if proof.Some? {
        return Failure(UnexpectedAttestation);
      }
      var known := record.id in work.rows;
      var author := if known && work.rows[record.id].signer.Some? then work.rows[record.id].signer else key;
      var before := work.rows;
      if author.Some? && record.id !in work.pins {
        work := work.(pins := work.pins[record.id := author.value]);
      }
      if known && Rank(trusted, before[record.id]) >= Offered(state) {
        return Success(false);
      }
      work := work.(rows := before[record.id := AdmissionRow(state, key, kept)], log := work.log + [record.id]);
      r := Success(known);
    }

    /** The recursive query as its working-set loop: each round adds the sources of
        relations into what the last round added. */
    method RequeueDependents(seeds: set<Id>)
      modifies this`work
      ensures work == Requeue(old(work), trusted, seeds)
    {
      hide Collecting, Uncollected, Dependents, SourcesInto, Readable, SetToSorted;
      var s := work;
      var recent := SourcesInto(s, seeds);
      var found := recent;
      StartCollecting(s, seeds);
      while recent != {}
        invariant Collecting(s, seeds, found, recent)
        decreases Uncollected(s, found), |recent|
      {
        var next := SourcesInto(s, recent) - found;
        CollectRound(s, seeds, found, recent, next);
        found := found + next;
        recent := next;
      }
      Collected(s, seeds, found);
      var readable := set id | id in found && RankOf(s, trusted, id) > 0;
      assert readable == Readable(s, trusted, Dependents(s, seeds)) by {
        ReadableIs(s, trusted, found);
      }
      work := s.(log := s.log + SetToSorted(readable));
    }

    /** One turn of the batch loop. */
    method AdmitNext(record: Record, state: Admission, proof: Option<Attestation>, b: Batch)
      returns (r: Result<Batch>)
      requires work == b.store
      modifies this`work
      ensures r == AdmitOne(b, trusted, record, state, proof)
      ensures r.Success? ==> work == r.value.store
    {
      hide InsertRecord, SetAdmission;
      var inserted := InsertOne(record, true);
      if inserted.Failure? {
        return Failure(inserted.error);
      }
      var raised := Admit(record, state, proof);
      if raised.Failure? {
        return Failure(raised.error);
      }
      r := Success(Batch(work, if raised.value then b.upgraded + {record.id} else b.upgraded,
                         b.added + if inserted.value then 1 else 0));
    }

    method AdmitAll(records: seq<Record>, state: Admission, proofs: map<Id, Attestation>)
      returns (r: Result<Batch>)
      modifies this`work
      ensures r == AdmitBatch(old(work), trusted, records, state, proofs, |records|)
      ensures r.Success? ==> work == r.value.store
    {
      hide AdmitOne;
      var b := Batch(work, {}, 0);
      for n := 0 to |records|
        invariant work == b.store
        invariant AdmitBatch(old(work), trusted, records, state, proofs, n) == Success(b)
      {
        var next := AdmitNext(records[n], state, ProofFor(proofs, records[n].id), b);
        if next.Failure? {
          FailureStays(old(work), trusted, records, state, proofs, n + 1, |records|);
          return next;
        }
        b := next.value;
      }
      r := Success(b);
    }

    /** ingest_records: one transaction, all or nothing. */
    method IngestRecords(records: seq<Record>, state: Admission, proofs: map<Id, Attestation>,
                         transfer: Option<Transfer>, validates: Option<Store -> bool>) returns (r: Result<Store>)
      modifies this
      ensures r == Ingest(old(committed), trusted, records, state, proofs, transfer, validates)
      ensures committed == (if r.Success? then r.value else old(committed)) && work == committed
    {
      hide AdmitBatch, Requeue, NoDangling;
      var refused := IngestRefused(records, state, proofs, transfer, validates.Some?);
      Begin();
      if refused.Some? {
        return Failure(refused.value);
      }
      if transfer.Some? && transfer.value.id in work.receipts {
        return if work.receipts[transfer.value.id].payload != transfer.value.payload
               then Failure(TransferReplayConflict) else Success(work);
      }
      if transfer.Some? && transfer.value.previous.Some? && !HasReceipt(work, transfer.value.previous.value) {
        return Failure(DependencyBaseReceiptMissing);
      }
      var b := AdmitAll(records, state, proofs);
      if b.Failure? {
        Rollback();
        return Failure(b.error);
      }
      if validates.Some? && !validates.value(work) {
        Rollback();
        return Failure(DependencyRejected);
      }
      RequeueDependents(b.value.upgraded);
      work := WithReceipt(work, transfer, Receipt(0, |records|, b.value.added, state));
      r := Commit();
    }

    method ImportBundle(records: seq<Record>, accept: bool) returns (r: Result<Store>)
      modifies this
      ensures r == Import(old(committed), trusted, records, accept)
      ensures committed == (if r.Success? then r.value else old(committed)) && work == committed
    {
      hide AdmitBatch, Requeue, NoDangling;
      Begin();
      var b := AdmitAll(records, if accept then AcceptedUnsigned else Quarantined, map[]);
      if b.Failure? {
        Rollback();
        return Failure(b.error);
      }
      RequeueDependents(b.value.upgraded);
      r := Commit();
    }

    method RememberRecord(record: Record, proof: Option<Attestation>) returns (r: Result<Store>)
      modifies this
      ensures r == Remember(old(committed), trusted, record, proof)
      ensures committed == (if r.Success? then r.value else old(committed)) && work == committed
    {
      hide Requeue, NoDangling;
      Begin();
      var inserted := InsertOne(record, false);
      if inserted.Failure? {
        Rollback();
        return Failure(inserted.error);
      }
      var raised := Admit(record, if proof.Some? then Verified else LocalUnsigned, proof);
      if raised.Failure? {
        Rollback();
        return Failure(raised.error);
      }
      if raised.value {
        RequeueDependents({record.id});
      }
      r := Commit();
    }

    method Quarantine(key: Key) returns (count: nat)
      modifies this
      ensures committed == work == QuarantineSigner(old(committed), key)
      ensures count == |set id | id in old(committed).rows && old(committed).rows[id] != committed.rows[id]|
    {
      Begin();
      var hit := set id | id in work.rows && work.rows[id].signer == Some(key) && work.rows[id].state == Verified;
      work := work.(rows := map id | id in work.rows ::
        if id in hit then work.rows[id].(state := Quarantined) else work.rows[id]);
      committed := work;
      assert hit == set id | id in old(committed).rows && old(committed).rows[id] != committed.rows[id];
      count := |hit|;
    }

    method RequeueExplicitly(ids: set<Id>) returns (r: Result<Store>)
      modifies this
      ensures r == RequeueRecords(old(committed), trusted, ids)
      ensures committed == (if r.Success? then r.value else old(committed)) && work == committed
    {
      hide Requeue;
      Begin();
      if ids == {} || |ids| > 256 {
        return Failure(InvalidLimit);
      }
      var selected := SetToSorted(ids);
      var s := work;
      for k := 0 to |selected|
        invariant committed == s && work == s.(log := s.log + selected[..k])
        invariant forall j :: 0 <= j < k ==> RankOf(s, trusted, selected[j]) > 0
      {
        if RankOf(s, trusted, selected[k]) == 0 {
          assert selected[k] in ids;
          Rollback();
          return Failure(RecordNotAdmitted);
        }
        work := work.(log := work.log + [selected[k]]);
      }
      assert selected[..|selected|] == selected;
      forall id | id in ids
        ensures RankOf(s, trusted, id) > 0
      {
        assert id in selected;
      }
      RequeueDependents(ids);
      committed := work;
      r := Success(work);
    }
  }

  lemma {:induction false} FailureStays(s: Store, trusted: Trust, records: seq<Record>, state: Admission,
                                        proofs: map<Id, Attestation>, n: nat, m: nat)
    requires n <= m <= |records| && AdmitBatch(s, trusted, records, state, proofs, n).Failure?
    ensures AdmitBatch(s, trusted, records, state, proofs, m) == AdmitBatch(s, trusted, records, state, proofs, n)
    decreases m - n
  {
    hide AdmitOne;
    if n < m {
      FailureStays(s, trusted, records, state, proofs, n, m - 1);
    }
  }

  // ----- the recursive query -----

  lemma ReadableIs(s: Store, trusted: Trust, ids: set<Id>)
    ensures Readable(s, trusted, ids) == set id | id in ids && RankOf(s, trusted, id) > 0
  {
  }

  /** found holds only dependents, and a source of a relation into the seeds or into
      an older find has been found. */
  ghost predicate Collecting(s: Store, seeds: set<Id>, found: set<Id>, recent: set<Id>) {
    && recent <= found <= s.records.Keys
    && (forall id :: id in found ==> LeadsTo(s, id, seeds))
    && SourcesInto(s, seeds + (found - recent)) <= found
  }

  ghost function Uncollected(s: Store, found: set<Id>): nat {
    |s.records.Keys - found|
  }

  lemma StartCollecting(s: Store, seeds: set<Id>)
    ensures Collecting(s, seeds, SourcesInto(s, seeds), SourcesInto(s, seeds))
  {
    var found := SourcesInto(s, seeds);
    forall id | id in found
      ensures LeadsTo(s, id, seeds)
    {
      var t :| t in Targets(s.records[id]) * seeds;
      ReachSelf(RelationGraph(s), t);
      assert t in Succ(RelationGraph(s), id);
    }
    assert seeds + (found - found) == seeds;
  }

  lemma LeadsOn(s: Store, id: Id, next: Id, seeds: set<Id>)
    requires next in Succ(RelationGraph(s), id) && LeadsTo(s, next, seeds)
    ensures LeadsTo(s, id, seeds)
  {
    var g := RelationGraph(s);
    var m, t :| m in Succ(g, next) && t in seeds && Reach(g, m, t);
    ReachEdge(g, next, m);
    ReachTrans(g, next, m, t);
  }

  lemma CollectRound(s: Store, seeds: set<Id>, found: set<Id>, recent: set<Id>, next: set<Id>)
    requires Collecting(s, seeds, found, recent) && next == SourcesInto(s, recent) - found
    ensures Collecting(s, seeds, found + next, next)
    ensures next != {} ==> Uncollected(s, found + next) < Uncollected(s, found)
    ensures next == {} ==> found + next == found
  {
    forall id | id in next
      ensures LeadsTo(s, id, seeds)
    {
      var t :| t in Targets(s.records[id]) * recent;
      LeadsOn(s, id, t, seeds);
    }
    assert found + next - next == found;
    forall id | id in SourcesInto(s, seeds + found)
      ensures id in found + next
    {
      var t :| t in Targets(s.records[id]) * (seeds + found);
      if t in recent {
        assert t in Targets(s.records[id]) * recent;
      } else {
        assert t in Targets(s.records[id]) * (seeds + (found - recent));
      }
    }
    if next != {} {
      var n :| n in next;
      assert s.records.Keys - (found + next) < s.records.Keys - found by {
        assert n in s.records.Keys - found;
      }
      SmallerSet(s.records.Keys - (found + next), s.records.Keys - found);
    }
  }

  lemma SmallerSet(a: set<Id>, b: set<Id>)
    requires a < b
    ensures |a| < |b|
  {
    assert b == a + (b - a);
    assert b - a != {};
  }

  /** Along a path to a seed, every node before the seed has been found. */
  lemma {:induction false} PathFound(s: Store, seeds: set<Id>, found: set<Id>, p: seq<Id>)
    requires Collecting(s, seeds, found, {})
    requires IsPath(RelationGraph(s), p) && p[|p| - 1] in seeds
    ensures p[0] in seeds + found
    decreases |p|
  {
    if |p| > 1 {
      var g := RelationGraph(s);
      var q := p[1..];
      assert IsPath(g, q) by {
        forall i | 0 <= i < |q| - 1
          ensures q[i + 1] in Succ(g, q[i])
        {
          assert p[i + 1 + 1] in Succ(g, p[i + 1]);
        }
      }
      PathFound(s, seeds, found, q);
      assert p[0 + 1] in Succ(g, p[0]);
      assert found - {} == found;
      assert q[0] in Targets(s.records[p[0]]) * (seeds + found);
    }
  }

  lemma Collected(s: Store, seeds: set<Id>, found: set<Id>)
    requires Collecting(s, seeds, found, {})
    ensures found == Dependents(s, seeds)
  {
    forall id | id in Dependents(s, seeds)
      ensures id in found
    {
      var g := RelationGraph(s);
      var m, t :| m in Succ(g, id) && t in seeds && Reach(g, m, t);
      var p :| IsPath(g, p) && p[0] == m && p[|p| - 1] == t;
      PathFound(s, seeds, found, p);
      assert found - {} == found;
      assert m in Targets(s.records[id]) * (seeds + found);
    }
  }
}
