/** The validator: full closure verification on one snapshot, cut short at certificates,
    while the trust registry may change under it. */
module DependencyValidation {
  import opened Wrappers
  import opened Graphs
  import opened VaultStore
  import opened DependencyEpoch
  import opened DependencyDemand

  /** The registry a validator meets at its n-th read.  Writers only move it forward. */
  type Readings = nat -> Registry

  ghost predicate Forward(f: Readings) {
    forall i: nat, j: nat :: i <= j ==>
      f(i).revision <= f(j).revision && (f(i).revision == f(j).revision ==> f(i) == f(j))
  }

  ghost predicate SteadyFrom(f: Readings, from: nat, to: nat, r: Registry) {
    forall k: nat :: from <= k < to ==> f(k) == r
  }

  /** Two equal readings leave no room for a change between them. */
  lemma NoChangeBetween(f: Readings, from: nat, to: nat)
    requires Forward(f) && from <= to && f(from) == f(to)
    ensures SteadyFrom(f, from, to, f(from))
  {
    forall k: nat | from <= k < to
      ensures f(k) == f(from)
    {
      assert f(from).revision <= f(k).revision <= f(to).revision;
    }
  }

  /** The identifiers to start with: each once, and only those not checked before. */
  function Unchecked(ids: seq<Id>, checked: set<Id>): (r: seq<Id>)
    ensures forall id :: id in r <==> id in ids && id !in checked
    ensures forall i, j :: 0 <= i < j < |r| ==> r[i] != r[j]
  {
    if ids == [] then []
    else
      var init, last := ids[..|ids| - 1], ids[|ids| - 1];
      assert ids == init + [last];
      var r := Unchecked(init, checked);
      if last in checked || last in r then r else r + [last]
  }

  // ----- the worklist -----

  /** Part way through a closure: each visited node is a cache hit, or has been verified
      (as long as the registry stood still) and had its targets taken up. */
  ghost predicate Tracing(d: Db, r: Registry, steady: bool, ids: seq<Id>, checked: set<Id>, visited: set<Id>,
                          candidates: map<Id, Record>, pending: seq<Id>)
  {
    && visited <= d.memories.Keys && candidates.Keys <= visited
    && (forall id :: id in candidates ==> candidates[id] == d.memories[id])
    && (forall id :: id in ids ==> id in checked || id in visited || id in pending)
    && (forall id :: id in visited && id !in candidates ==> ClosureGood(d, r, id))
    && (forall id, t :: id in candidates && t in Targets(d.memories[id]) ==>
          t in checked || t in visited || t in pending)
    && (steady ==> forall id :: id in candidates ==> RecordGood(d, r, id))
  }

  ghost predicate AllGood(d: Db, r: Registry, ids: set<Id>) {
    forall id :: id in ids ==> ClosureGood(d, r, id)
  }

  /** Along any path out of what was visited or checked, every record is good. */
  lemma {:induction false} TracedPath(d: Db, r: Registry, ids: seq<Id>, checked: set<Id>, visited: set<Id>,
                                      candidates: map<Id, Record>, p: seq<Id>)
    requires Tracing(d, r, true, ids, checked, visited, candidates, []) && AllGood(d, r, checked)
    requires IsPath(DependencyGraph(d), p) && p[0] in visited + checked
    ensures RecordGood(d, r, p[|p| - 1])
    decreases |p|
  {
    hide RecordGood, ClosureGood;
    var g := DependencyGraph(d);
    if p[0] in candidates && p[0] !in checked {
      if |p| > 1 {
        var q := p[1..];
        assert IsPath(g, q) by {
          forall i | 0 <= i < |q| - 1
            ensures q[i + 1] in Succ(g, q[i])
          {
            assert p[i + 1 + 1] in Succ(g, p[i + 1]);
          }
        }
        assert p[0 + 1] in Succ(g, p[0]);
        TracedPath(d, r, ids, checked, visited, candidates, q);
      }
    } else {
      assert ClosureGood(d, r, p[0]);
      assert Reach(g, p[0], p[|p| - 1]);
      GoodReach(d, r, p[0], p[|p| - 1]);
    }
  }

  lemma GoodReach(d: Db, r: Registry, id: Id, e: Id)
    requires ClosureGood(d, r, id) && Reach(DependencyGraph(d), id, e)
    ensures RecordGood(d, r, e)
  {
  }

  lemma TraceDone(d: Db, r: Registry, ids: seq<Id>, checked: set<Id>, visited: set<Id>, candidates: map<Id, Record>)
    requires Tracing(d, r, true, ids, checked, visited, candidates, []) && AllGood(d, r, checked)
    ensures AllGood(d, r, checked + visited)
  {
    hide RecordGood, Tracing, AllGood;
    forall id | id in checked + visited
      ensures ClosureGood(d, r, id)
    {
      forall e | Reach(DependencyGraph(d), id, e)
        ensures RecordGood(d, r, e)
      {
        var p :| IsPath(DependencyGraph(d), p) && p[0] == id && p[|p| - 1] == e;
        TracedPath(d, r, ids, checked, visited, candidates, p);
      }
    }
    assert AllGood(d, r, checked + visited) by { AllGoodIs(d, r, checked + visited); }
  }

  lemma AllGoodIs(d: Db, r: Registry, ids: set<Id>)
    requires forall id :: id in ids ==> ClosureGood(d, r, id)
    ensures AllGood(d, r, ids)
  {
  }

  lemma TraceStart(d: Db, r: Registry, steady: bool, ids: seq<Id>, checked: set<Id>)
    ensures Tracing(d, r, steady, ids, checked, {}, map[], Unchecked(ids, checked))
  {
  }

  lemma TraceSkip(d: Db, r: Registry, steady: bool, ids: seq<Id>, checked: set<Id>, visited: set<Id>,
                  candidates: map<Id, Record>, rest: seq<Id>, id: Id)
    requires Tracing(d, r, steady, ids, checked, visited, candidates, rest + [id])
    requires id in checked || id in visited
    ensures Tracing(d, r, steady, ids, checked, visited, candidates, rest)
  {
    hide ClosureGood, RecordGood;
    assert forall x :: x in rest + [id] <==> x in rest || x == id;
  }

  lemma TraceHit(d: Db, r: Registry, steady: bool, ids: seq<Id>, checked: set<Id>, visited: set<Id>,
                 candidates: map<Id, Record>, rest: seq<Id>, id: Id)
    requires Tracing(d, r, steady, ids, checked, visited, candidates, rest + [id])
    requires id in d.memories && id !in visited && ClosureGood(d, r, id)
    ensures Tracing(d, r, steady, ids, checked, visited + {id}, candidates, rest)
  {
    hide ClosureGood, RecordGood;
    assert forall x :: x in rest + [id] <==> x in rest || x == id;
  }

  lemma TraceVerified(d: Db, r: Registry, before: bool, after: bool, ids: seq<Id>, checked: set<Id>, visited: set<Id>,
                      candidates: map<Id, Record>, rest: seq<Id>, id: Id, more: seq<Id>)
    requires Tracing(d, r, before, ids, checked, visited, candidates, rest + [id]) && (after ==> before)
    requires id in d.memories && id !in visited && (after ==> RecordGood(d, r, id))
    requires forall t :: t in Targets(d.memories[id]) ==>
               t in checked || t in visited || t == id || t in rest || t in more
    ensures Tracing(d, r, after, ids, checked, visited + {id}, candidates[id := d.memories[id]], rest + more)
  {
    hide ClosureGood, RecordGood;
    assert forall x :: x in rest + [id] <==> x in rest || x == id;
    assert forall x :: x in rest + more <==> x in rest || x in more;
  }

  lemma TraceWeaker(d: Db, r: Registry, before: bool, after: bool, ids: seq<Id>, checked: set<Id>, visited: set<Id>,
                    candidates: map<Id, Record>, pending: seq<Id>)
    requires Tracing(d, r, before, ids, checked, visited, candidates, pending) && (after ==> before)
    ensures Tracing(d, r, after, ids, checked, visited, candidates, pending)
  {
    hide ClosureGood, RecordGood;
  }

  ghost function Unvisited(d: Db, visited: set<Id>): nat {
    |d.memories.Keys - visited|
  }

  lemma VisitOne(d: Db, visited: set<Id>, id: Id)
    requires id in d.memories && id !in visited
    ensures Unvisited(d, visited + {id}) < Unvisited(d, visited)
  {
    assert d.memories.Keys - (visited + {id}) == (d.memories.Keys - visited) - {id};
  }

  ghost function NewTargets(record: Record, rest: seq<Id>, visited: set<Id>, checked: set<Id>): set<Id> {
    set t | t in Targets(record) && t !in rest && t !in visited && t !in checked
  }

  /** What is queued, visited or checked, the new targets included, stays within the record bound. */
  ghost predicate WithinBound(record: Record, rest: seq<Id>, visited: set<Id>, checked: set<Id>) {
    var added := NewTargets(record, rest, visited, checked);
    added != {} ==> |(set id | id in rest) + added| + |visited| + |checked| <= MAX_BUNDLE_RECORDS
  }

  /** Part way through the relations of a record: those read are somewhere, and the new ones fit. */
  ghost predicate Taking(record: Record, rest: seq<Id>, visited: set<Id>, checked: set<Id>, k: nat, more: seq<Id>,
                         queued: set<Id>)
  {
    && k <= |record.relations| && queued == (set id | id in rest) + (set id | id in more)
    && (forall t :: t in more ==> t in NewTargets(record, rest, visited, checked))
    && (forall i, j :: 0 <= i < j < |more| ==> more[i] != more[j])
    && (forall j :: 0 <= j < k ==>
          var t := record.relations[j].target; t in checked || t in visited || t in queued)
    && (more == [] || |queued| + |visited| + |checked| <= MAX_BUNDLE_RECORDS)
  }

  lemma TakeStart(record: Record, rest: seq<Id>, visited: set<Id>, checked: set<Id>)
    ensures Taking(record, rest, visited, checked, 0, [], set id | id in rest)
  {
  }

  lemma TakeSkip(record: Record, rest: seq<Id>, visited: set<Id>, checked: set<Id>, k: nat, more: seq<Id>,
                 queued: set<Id>)
    requires Taking(record, rest, visited, checked, k, more, queued) && k < |record.relations|
    requires record.relations[k].target in checked + visited + queued
    ensures Taking(record, rest, visited, checked, k + 1, more, queued)
  {
    hide NewTargets;
  }

  lemma TargetIsNew(record: Record, rest: seq<Id>, visited: set<Id>, checked: set<Id>, k: nat, more: seq<Id>,
                    queued: set<Id>)
    requires Taking(record, rest, visited, checked, k, more, queued) && k < |record.relations|
    requires record.relations[k].target !in checked + visited + queued
    ensures record.relations[k].target in NewTargets(record, rest, visited, checked)
    ensures queued <= (set id | id in rest) + NewTargets(record, rest, visited, checked)
  {
  }

  lemma TakeOver(record: Record, rest: seq<Id>, visited: set<Id>, checked: set<Id>, k: nat, more: seq<Id>,
                 queued: set<Id>)
    requires Taking(record, rest, visited, checked, k, more, queued) && k < |record.relations|
    requires record.relations[k].target !in checked + visited + queued
    requires |queued| + |visited| + |checked| >= MAX_BUNDLE_RECORDS
    ensures !WithinBound(record, rest, visited, checked)
  {
    TargetIsNew(record, rest, visited, checked, k, more, queued);
    hide NewTargets, Taking;
    CountMonotone(queued + {record.relations[k].target},
                  (set id | id in rest) + NewTargets(record, rest, visited, checked));
  }

  lemma TakeNew(record: Record, rest: seq<Id>, visited: set<Id>, checked: set<Id>, k: nat, more: seq<Id>,
                queued: set<Id>)
    requires Taking(record, rest, visited, checked, k, more, queued) && k < |record.relations|
    requires record.relations[k].target !in checked + visited + queued
    requires |queued| + |visited| + |checked| < MAX_BUNDLE_RECORDS
    ensures Taking(record, rest, visited, checked, k + 1, more + [record.relations[k].target],
                   queued + {record.relations[k].target})
  {
    TargetIsNew(record, rest, visited, checked, k, more, queued);
    hide NewTargets;
    var target := record.relations[k].target;
    assert forall t :: t in more + [target] <==> t in more || t == target;
  }

  lemma TakeEnd(record: Record, rest: seq<Id>, visited: set<Id>, checked: set<Id>, more: seq<Id>, queued: set<Id>)
    requires Taking(record, rest, visited, checked, |record.relations|, more, queued)
    ensures forall t :: t in more <==> t in NewTargets(record, rest, visited, checked)
    ensures forall i, j :: 0 <= i < j < |more| ==> more[i] != more[j]
    ensures WithinBound(record, rest, visited, checked)
  {
    var added := NewTargets(record, rest, visited, checked);
    forall t | t in added
      ensures t in more
    {
      assert t in queued;
    }
    hide NewTargets;
    assert queued == (set id | id in rest) + added;
  }

  /** A node some identifier leads to. */
  ghost predicate Asked(d: Db, ids: seq<Id>, id: Id) {
    exists root :: root in ids && Reach(DependencyGraph(d), root, id)
  }

  ghost predicate AllAsked(d: Db, ids: seq<Id>, pending: seq<Id>) {
    forall id :: id in pending ==> Asked(d, ids, id)
  }

  lemma AskedStart(d: Db, ids: seq<Id>, pending: seq<Id>)
    requires forall id :: id in pending ==> id in ids
    ensures AllAsked(d, ids, pending)
  {
    forall id | id in pending
      ensures Asked(d, ids, id)
    {
      ReachSelf(DependencyGraph(d), id);
    }
  }

  lemma AskedNext(d: Db, ids: seq<Id>, rest: seq<Id>, id: Id, pending: seq<Id>)
    requires AllAsked(d, ids, rest + [id])
    requires forall t :: t in pending ==> t in rest || (id in d.memories && t in Targets(d.memories[id]))
    ensures AllAsked(d, ids, pending) && Asked(d, ids, id)
  {
    hide Reach;
    assert forall x :: x in rest + [id] <==> x in rest || x == id;
    assert id in rest + [id];
    forall t | t in pending
      ensures Asked(d, ids, t)
    {
      if t !in rest {
        var root :| root in ids && Reach(DependencyGraph(d), root, id);
        ReachEdge(DependencyGraph(d), id, t);
        ReachTrans(DependencyGraph(d), root, id, t);
      }
    }
  }

  /** The refusals that speak about a record, not about budgets or stored bytes. */
  predicate Speaks(e: Error) {
    e == DependencyNotAdmitted || e == UnsignedDependency || e == TrustRefused
  }

  /** What a refusal that names a record says about it: the vault does not show it or the registry
      does not trust its signer, it is not verified, or its proof does not hold. */
  predicate Unfit(d: Db, r: Registry, ranks: Trust, id: Id, e: Error) {
    match e
    case DependencyNotAdmitted =>
      || id !in d.memories || id !in d.rows || Rank(ranks, d.rows[id]) == 0
      || (d.rows[id].state == Verified && (d.rows[id].signer.None? || d.rows[id].signer.value !in r.trusted))
    case UnsignedDependency =>
      id in d.memories && id in d.rows && (d.rows[id].state != Verified || d.rows[id].proof.None?)
    case TrustRefused => !RecordGood(d, r, id)
    case _ => false
  }

  /** Full verification would refuse it too, or the vault does not show it. */
  lemma UnfitMeans(d: Db, r: Registry, ranks: Trust, id: Id, e: Error)
    requires Unfit(d, r, ranks, id, e)
    ensures !RecordGood(d, r, id) || Rank(ranks, d.rows[id]) == 0
  {
  }

  lemma UnfitRow(d: Db, r: Registry, ranks: Trust, id: Id)
    requires id in d.memories && id in d.rows
    ensures d.rows[id].state == Quarantined ==> Unfit(d, r, ranks, id, DependencyNotAdmitted)
    ensures d.rows[id].state != Verified || d.rows[id].proof.None? ==> Unfit(d, r, ranks, id, UnsignedDependency)
    ensures d.rows[id].state == Verified && (d.rows[id].signer.None? || d.rows[id].signer.value !in r.trusted) ==>
              Unfit(d, r, ranks, id, DependencyNotAdmitted)
  {
  }

  lemma UnfitProof(d: Db, r: Registry, ranks: Trust, id: Id, proof: Attestation)
    requires id in d.memories && id in d.rows && d.rows[id].proof == Some(proof)
    requires !(proof.wellFormed && proof.digest == d.memories[id].sha && proof.key in r.trusted)
    ensures Unfit(d, r, ranks, id, TrustRefused)
  {
  }

  ghost predicate SomeUnfit(d: Db, r: Registry, ranks: Trust, ids: seq<Id>, e: Error) {
    exists id :: Asked(d, ids, id) && Unfit(d, r, ranks, id, e)
  }

  /** A loaded record with a stored record's hash is that record. */
  ghost predicate LoadedHold(d: Db, loaded: map<Id, Record>) {
    forall id :: id in loaded && id in d.memories && loaded[id].sha == d.memories[id].sha ==>
      loaded[id] == d.memories[id]
  }

  ghost predicate Certify(d: Db, checked: set<Id>, certificates: map<Id, Record>) {
    forall id :: id in certificates ==> id in checked && id in d.memories && certificates[id] == d.memories[id]
  }

  lemma LoadedIs(d: Db, loaded: map<Id, Record>, id: Id)
    requires LoadedHold(d, loaded) && id in loaded && id in d.memories
    ensures loaded[id].sha == d.memories[id].sha ==> loaded[id] == d.memories[id]
  {
  }

  lemma CertifyMore(d: Db, checked: set<Id>, certificates: map<Id, Record>, visited: set<Id>,
                    candidates: map<Id, Record>)
    requires Certify(d, checked, certificates) && candidates.Keys <= visited
    requires forall id :: id in candidates ==> id in d.memories && candidates[id] == d.memories[id]
    ensures Certify(d, checked + visited, certificates + candidates)
  {
  }

  lemma LargeIsRefused(d: Db, r: Registry, ranks: Trust, id: Id)
    requires id in d.rows && d.rows[id].proof.Some? && d.rows[id].proof.value.bytes > MAX_STORED_PROOF_BYTES
    ensures !RowLoads(d, r, ranks, id)
  {
  }

  lemma ProofIs(d: Db, r: Registry, id: Id, proof: Attestation)
    requires id in d.memories && id in d.rows && d.rows[id].proof == Some(proof)
    ensures ProofHolds(d, r, id) <==>
              proof.wellFormed && proof.digest == d.memories[id].sha && proof.key in r.trusted
  {
  }

  lemma NewIs(record: Record, rest: seq<Id>, visited: set<Id>, checked: set<Id>)
    ensures forall t :: t in NewTargets(record, rest, visited, checked) <==>
              t in Targets(record) && t !in rest && t !in visited && t !in checked
  {
  }

  lemma OverBound(m: Demand, steady: bool, visited: set<Id>, rest: seq<Id>, id: Id, now: Holding)
    requires Underway(m, steady, visited, rest + [id], now) && id in m.db.memories && id !in m.hits
    requires m.checked <= m.held.rows && !WithinBound(m.db.memories[id], rest, visited + {id}, m.checked)
    ensures !Satisfied(m)
  {
    hide Underway, Targets;
    TargetsRefused(m, steady, visited, rest, id, now, (set x | x in rest),
                   NewTargets(m.db.memories[id], rest, visited + {id}, m.checked));
  }

  class Validator {
    const db: Db
    const cache: Option<Cache>
    const ranks: Trust
    const readings: Readings

    var epoch: Option<Epoch>
    var registry: Registry
    var loaded: map<Id, Record>
    var rows: set<Id>
    var checked: set<Id>
    var certificates: map<Id, Record>
    var bytesRead: nat
    var databaseBytes: nat
    var started: bool
    var complete: bool
    var reads_: nat
    ghost var begun: nat

    constructor (db: Db, cache: Option<Cache>, ranks: Trust, readings: Readings)
      requires cache.Some? ==> CacheSound(cache.value, db)
      ensures Valid() && !started && !complete && checked == {} && certificates == map[] && loaded == map[]
      ensures this.db == db && this.cache == cache && this.readings == readings
    {
      this.db, this.cache, this.ranks, this.readings := db, cache, ranks, readings;
      epoch, registry, loaded, rows := None, Registry(0, {}), map[], {};
      checked, certificates, bytesRead, databaseBytes := {}, map[], 0, 0;
      started, complete, reads_, begun := false, false, 0, 0;
    }

    /** The registry has stood still since begin. */
    ghost predicate Steady()
      reads this
    {
      SteadyFrom(readings, begun, reads_, registry)
    }

    ghost predicate Valid()
      reads this
    {
      && begun <= reads_ && Bounded()
      && (cache.Some? ==> CacheSound(cache.value, db))
      && (started ==> registry == readings(begun) && epoch == EpochOf(db))
      && (!started ==> checked == {} && certificates == map[] && !complete)
      && LoadedHold(db, loaded) && Certify(db, checked, certificates)
      && (Steady() ==> AllGood(db, registry, checked))
      && (complete ==> AllGood(db, registry, checked))
    }

    /** Whatever was checked was read, and both what is held and what is read stay within the
        bounds of a bundle. */
    ghost predicate Bounded()
      reads this
    {
      checked <= rows && WithinBudgets(Held())
    }

    function Held(): (h: Holding)
      reads this`rows, this`loaded, this`databaseBytes, this`bytesRead
    {
      Holding(rows, loaded, databaseBytes, bytesRead)
    }

    /** The ids a stored certificate answers for. */
    ghost function HitSet(): set<Id>
      reads this`epoch, this`registry
    {
      set id | id in db.memories && Cached(id)
    }

    /** What is asked of the validator as it stands. */
    ghost function Asking(ids: seq<Id>): Demand
      reads this`rows, this`loaded, this`databaseBytes, this`bytesRead, this`epoch, this`registry, this`checked
    {
      Demand(db, registry, ranks, HitSet(), checked, ids, Held())
    }

    /** The call is about the validator's own snapshot, registry, certificates and findings. */
    ghost predicate Answering(m: Demand)
      reads this`epoch, this`registry, this`checked
    {
      && m.db == db && m.registry == registry && m.ranks == ranks && m.hits == HitSet()
      && m.checked == checked && checked <= m.held.rows
    }

    method Begin()
      requires Valid()
      modifies this
      ensures Valid() && started && checked == old(checked) && certificates == old(certificates)
      ensures Held() == old(Held()) && complete == old(complete)
      ensures old(started) ==> begun == old(begun) && reads_ == old(reads_) && registry == old(registry)
                               && epoch == old(epoch)
      ensures !old(started) ==> epoch == EpochOf(db) && registry == readings(begun) && begun == old(reads_)
    {
      if started {
        return;
      }
      epoch := EpochOf(db);
      registry := readings(reads_);
      begun := reads_;
      reads_ := reads_ + 1;
      started := true;
    }

    /** A record met twice must be the same one; a new one must fit in the budgets. */
    method Touch(record: Record) returns (r: Result<()>)
      requires Valid()
      requires record.id in db.memories && record.sha == db.memories[record.id].sha ==> record == db.memories[record.id]
      modifies this`loaded, this`bytesRead
      ensures Valid()
      ensures match WithTouched(old(Held()), record)
        case Success(h) => r.Success? && Held() == h
        case Failure(e) => r == Failure(e)
      ensures r.Success? ==> record.id in loaded && loaded[record.id] == record
      ensures r.Failure? ==> loaded == old(loaded) && bytesRead == old(bytesRead) && !Speaks(r.error)
      ensures r.Success? ==> loaded == old(loaded)[record.id := record]
      ensures r.Success? ==> bytesRead == old(bytesRead) + if record.id in old(loaded) then 0 else record.bytes
      ensures r == Failure(MemoryIdentityConflict) <==> record.id in old(loaded) && old(loaded)[record.id] != record
      ensures record.id !in old(loaded) ==>
                (r.Success? <==>
                   |old(loaded)| < MAX_BUNDLE_RECORDS && old(bytesRead) + record.bytes <= MAX_BUNDLE_BYTES)
    {
      if record.id in loaded {
        if loaded[record.id] != record {
          return Failure(MemoryIdentityConflict);
        }
        assert loaded == loaded[record.id := record];
        return Success(());
      }
      if |loaded| >= MAX_BUNDLE_RECORDS || bytesRead + record.bytes > MAX_BUNDLE_BYTES {
        return Failure(DependencyRevalidationRequired);
      }
      loaded := loaded[record.id := record];
      bytesRead := bytesRead + record.bytes;
      r := Success(());
    }

    /** Each stored body is read at most once per snapshot; nothing for an unreadable id. */
    method ExportRow(id: Id) returns (r: Result<Option<AdmissionRow>>)
      requires Valid()
      modifies this`rows, this`databaseBytes
      ensures Valid()
      ensures r.Success? && r.value.Some? ==> id in db.memories && id in db.rows && r.value.value == db.rows[id]
      ensures r.Success? && r.value.None? ==> Unfit(db, registry, ranks, id, DependencyNotAdmitted)
      ensures r.Success? ==> (r.value.Some? <==> id in db.memories && id in db.rows && Rank(ranks, db.rows[id]) > 0)
      ensures id in old(rows) ==> r.Success? && rows == old(rows) && databaseBytes == old(databaseBytes)
      ensures id !in old(rows) && r.Success? ==>
                && rows == old(rows) + {id}
                && databaseBytes == old(databaseBytes) + if r.value.Some? then db.memories[id].bytes else 0
      ensures r.Failure? ==> !Speaks(r.error) && rows == old(rows) && databaseBytes == old(databaseBytes)
      ensures id !in old(rows) ==>
        var readable := id in db.memories && id in db.rows && Rank(ranks, db.rows[id]) > 0;
        var large := readable && db.rows[id].proof.Some? && db.rows[id].proof.value.bytes > MAX_STORED_PROOF_BYTES;
        var full := |old(rows)| >= MAX_BUNDLE_RECORDS;
        var heavy := readable && old(databaseBytes) + db.memories[id].bytes > MAX_BUNDLE_BYTES;
        && (r.Success? <==> !full && !large && !heavy)
        && (r.Failure? ==>
              r.error == if !full && large then StoredAttestationInvalid else DependencyRevalidationRequired)
    {
      var readable := id in db.memories && id in db.rows && Rank(ranks, db.rows[id]) > 0;
      if id in rows {
        return Success(if readable then Some(db.rows[id]) else None);
      }
      if |rows| >= MAX_BUNDLE_RECORDS {
        return Failure(DependencyRevalidationRequired);
      }
      if !readable {
        rows := rows + {id};
        return Success(None);
      }
      if db.rows[id].proof.Some? && db.rows[id].proof.value.bytes > MAX_STORED_PROOF_BYTES {
        return Failure(StoredAttestationInvalid);
      }
      if databaseBytes + db.memories[id].bytes > MAX_BUNDLE_BYTES {
        return Failure(DependencyRevalidationRequired);
      }
      rows, databaseBytes := rows + {id}, databaseBytes + db.memories[id].bytes;
      r := Success(Some(db.rows[id]));
    }

    /** The row of _load: readable, verified, and signed by a key the registry trusts at this read. */
    method LoadRow(id: Id) returns (r: Result<AdmissionRow>)
      requires Valid() && started
      modifies this`rows, this`databaseBytes, this`reads_
      ensures begun <= old(reads_) <= reads_
      ensures Valid() && old(rows) <= rows
      ensures r.Success? ==>
        && id in db.memories && id in db.rows && r.value == db.rows[id]
        && r.value.state == Verified && r.value.proof.Some? && r.value.signer.Some?
        && reads_ == old(reads_) + 1 && r.value.signer.value in readings(old(reads_)).trusted
        && rows == old(rows) + {id}
        && databaseBytes == old(databaseBytes) + if id in old(rows) then 0 else db.memories[id].bytes
      ensures r.Failure? && Speaks(r.error) && Steady() ==> Unfit(db, registry, ranks, id, r.error)
      ensures Steady() && r.Failure? ==>
                !RowLoads(db, registry, ranks, id) || !RoomForRow(db, old(Held()), id)
      ensures r.Success? ==> RoomForRow(db, old(Held()), id)
      ensures Steady() && r.Success? && r.value.proof.value.bytes <= MAX_STORED_PROOF_BYTES ==>
                RowLoads(db, registry, ranks, id)
    {
      hide AllGood, CacheSound, Unfit, Rank, LoadedHold, Certify;
      var row := ExportRow(id);
      if row.Failure? {
        return Failure(row.error);
      }
      if row.value.None? || row.value.value.state == Quarantined {
        if row.value.Some? {
          UnfitRow(db, registry, ranks, id);
        }
        return Failure(DependencyNotAdmitted);
      }
      var found := row.value.value;
      UnfitRow(db, registry, ranks, id);
      if found.state != Verified || found.proof.None? {
        return Failure(UnsignedDependency);
      }
      var trusted := found.signer.Some? && found.signer.value in readings(reads_).trusted;
      Tick();
      r := if trusted then Success(found) else Failure(DependencyNotAdmitted);
    }

    /** The body of _load: the record held under the id, or the stored one if none is. */
    method LoadBody(id: Id) returns (r: Result<Record>)
      requires Valid() && id in db.memories
      modifies this`loaded, this`bytesRead
      ensures Valid()
      ensures r.Success? <==> BodyLoads(db, old(loaded), id) && RoomForBody(db, old(Held()), id)
      ensures r.Success? ==>
        && r.value == db.memories[id] && loaded == old(loaded)[id := db.memories[id]]
        && bytesRead == old(bytesRead) + if id in old(loaded) then 0 else db.memories[id].bytes
      ensures r.Failure? ==> !Speaks(r.error)
    {
      hide AllGood, CacheSound, Rank, Certify;
      if id !in loaded {
        var stored := db.memories[id];
        if stored.id != id {
          return Failure(StoredRecordInvalid);
        }
        var touched := Touch(stored);
        if touched.Failure? {
          return Failure(touched.error);
        }
      }
      LoadedIs(db, loaded, id);
      if loaded[id].sha != db.memories[id].sha {
        return Failure(StoredRecordInvalid);
      }
      assert loaded == old(loaded)[id := db.memories[id]];
      r := Success(loaded[id]);
    }

    /** _load: under a steady registry it succeeds exactly when the record can be loaded and there is
        room, and it holds one record more. */
    method Load(id: Id) returns (r: Result<(Record, Attestation)>)
      requires Valid() && started
      modifies this`loaded, this`bytesRead, this`rows, this`databaseBytes, this`reads_
      ensures begun <= old(reads_) <= reads_
      ensures Valid() && old(rows) <= rows && (r.Success? ==> id in rows)
      ensures r.Success? ==>
        && id in db.memories && id in db.rows && r.value.0 == db.memories[id]
        && db.rows[id].state == Verified && db.rows[id].proof == Some(r.value.1)
        && db.rows[id].signer.Some?
        && reads_ == old(reads_) + 1 && db.rows[id].signer.value in readings(old(reads_)).trusted
      ensures r.Failure? && Speaks(r.error) && Steady() ==> Unfit(db, registry, ranks, id, r.error)
      ensures r.Success? ==> id in db.memories && Held() == WithOne(db, old(Held()), id)
      ensures Steady() ==>
                (r.Success? <==> Loads(db, registry, ranks, old(loaded), id) && Room(db, old(Held()), id))
    {
      hide Valid, Unfit, RowLoads, BodyLoads, RoomForRow, SteadyFrom;
      var row := LoadRow(id);
      if row.Failure? {
        return Failure(row.error);
      }
      var body := LoadBody(id);
      if body.Failure? {
        return Failure(body.error);
      }
      var proof := row.value.proof.value;
      if proof.bytes > MAX_STORED_PROOF_BYTES {
        assert !RowLoads(db, registry, ranks, id) by { LargeIsRefused(db, registry, ranks, id); }
        return Failure(StoredAttestationInvalid);
      }
      r := Success((body.value, proof));
    }

    /** One read of the registry. */
    method Tick()
      requires Valid() && started
      modifies this`reads_
      ensures Valid() && reads_ == old(reads_) + 1
      ensures Steady() ==> old(Steady()) && readings(old(reads_)) == registry
    {
      reads_ := reads_ + 1;
      assert Steady() ==> SteadyFrom(readings, begun, reads_ - 1, registry);
    }

    /** verify_record: the key must be trusted at this read and the signature must hold. */
    method Verify(record: Record, proof: Attestation) returns (ok: bool)
      requires Valid() && started
      modifies this`reads_
      ensures Valid() && reads_ == old(reads_) + 1
      ensures Steady() ==> old(Steady()) && readings(old(reads_)) == registry
      ensures ok <==> proof.wellFormed && proof.digest == record.sha && proof.key in readings(old(reads_)).trusted
    {
      ok := proof.wellFormed && proof.digest == record.sha && proof.key in readings(reads_).trusted;
      Tick();
    }

    /** _cached */
    predicate Cached(id: Id)
      reads this`epoch, this`registry
    {
      cache.Some? && epoch.Some? && Hits(cache.value, db, registry, id)
    }

    /** The targets of a verified record that are not yet anywhere: all of them, or a refusal when
        they would take the worklist past the record bound. */
    method TakeTargets(record: Record, rest: seq<Id>, visited: set<Id>) returns (r: Result<seq<Id>>)
      ensures r.Success? ==> forall t :: t in r.value <==> t in NewTargets(record, rest, visited, checked)
      ensures r.Success? ==> forall i, j :: 0 <= i < j < |r.value| ==> r.value[i] != r.value[j]
      ensures r.Success? <==> WithinBound(record, rest, visited, checked)
      ensures r.Failure? ==> !Speaks(r.error)
    {
      hide Taking, WithinBound, NewTargets;
      var more: seq<Id> := [];
      var queued := set id | id in rest;
      TakeStart(record, rest, visited, checked);
      for k := 0 to |record.relations|
        invariant Taking(record, rest, visited, checked, k, more, queued)
      {
        var target := record.relations[k].target;
        if target !in queued && target !in visited && target !in checked {
          if |queued| + |visited| + |checked| >= MAX_BUNDLE_RECORDS {
            TakeOver(record, rest, visited, checked, k, more, queued);
            return Failure(DependencyRevalidationRequired);
          }
          TakeNew(record, rest, visited, checked, k, more, queued);
          queued := queued + {target};
          more := more + [target];
        } else {
          TakeSkip(record, rest, visited, checked, k, more, queued);
        }
      }
      TakeEnd(record, rest, visited, checked, more, queued);
      r := Success(more);
    }

    /** One turn of the worklist on an id not met before. */
    method VisitNew(ids: seq<Id>, visited0: set<Id>, candidates0: map<Id, Record>, rest: seq<Id>, id: Id,
                    ghost m: Demand)
      returns (r: Result<()>, visited: set<Id>, candidates: map<Id, Record>, pending: seq<Id>)
      requires Valid() && started && id !in visited0
      requires Answering(m) && Underway(m, Steady(), visited0, rest + [id], Held())
      requires Tracing(db, registry, Steady(), ids, checked, visited0, candidates0, rest + [id])
      modifies this`loaded, this`bytesRead, this`rows, this`databaseBytes, this`reads_
      ensures Valid() && old(rows) <= rows && (r.Success? ==> visited == visited0 + {id})
      ensures visited == visited0 || (visited == visited0 + {id} && id in rows)
      ensures r.Success? ==> Tracing(db, registry, Steady(), ids, checked, visited, candidates, pending)
                             && Unvisited(db, visited) < Unvisited(db, visited0)
      ensures r.Success? ==> forall t :: t in pending ==>
                t in rest || (id in db.memories && t in Targets(db.memories[id]))
      ensures r.Failure? && Speaks(r.error) && Steady() ==> Unfit(db, registry, ranks, id, r.error)
      ensures r.Success? ==> Underway(m, Steady(), visited, pending, Held())
      ensures r.Failure? && Steady() ==> !Satisfied(m)
    {
      hide AllGood, Tracing, CacheSound, Unvisited, Valid, SteadyFrom, ClosureGood, Unfit, Targets;
      hide Underway, Loads, Room, WithOne, ProofHolds, WithinBound, NewTargets;
      visited, candidates, pending := visited0, candidates0, rest;
      label before:
      var found := Load(id);
      if found.Failure? {
        if Steady() {
          LoadRefused(m, old(Steady()), visited0, rest, id, old(Held()));
        }
        return Failure(found.error), visited, candidates, pending;
      }
      var (record, proof) := found.value;
      assert Steady() ==> old@before(Steady()) && readings(old@before(reads_)) == registry by {
        if Steady() {
          SteadyEarlier(readings, begun, old@before(reads_), reads_, registry);
        }
      }
      VisitOne(db, visited0, id);
      if Cached(id) {
        CachedIsGood(id);
        TraceWeaker(db, registry, old@before(Steady()), Steady(), ids, checked, visited0, candidates0, rest + [id]);
        TraceHit(db, registry, Steady(), ids, checked, visited0, candidates0, rest, id);
        UnderwayHit(m, old@before(Steady()), Steady(), visited0, rest, id, old@before(Held()));
        visited := visited0 + {id};
        return Success(()), visited, candidates, pending;
      }
      label loaded_:
      var ok := Verify(record, proof);
      if !ok {
        if Steady() {
          UnfitProof(db, registry, ranks, id, proof);
          assert !ProofHolds(db, registry, id) by { ProofIs(db, registry, id, proof); }
          ProofRefused(m, old@before(Steady()), visited0, rest, id, old@before(Held()));
        }
        return Failure(TrustRefused), visited, candidates, pending;
      }
      visited, candidates := visited0 + {id}, candidates0[id := record];
      var more := TakeTargets(record, rest, visited);
      if more.Failure? {
        OverBound(m, old@before(Steady()), visited0, rest, id, old@before(Held()));
        return Failure(more.error), visited, candidates, pending;
      }
      assert Steady() ==> ProofHolds(db, registry, id) by { ProofIs(db, registry, id, proof); }
      NewIs(record, rest, visited, checked);
      UnderwayOpened(m, old@before(Steady()), Steady(), visited0, rest, id, old@before(Held()), more.value);
      TraceVerified(db, registry, old@before(Steady()), Steady(), ids, checked, visited0, candidates0, rest, id,
                    more.value);
      pending := rest + more.value;
      r := Success(());
    }

    lemma CachedIsGood(id: Id)
      requires Valid() && started && Cached(id)
      ensures ClosureGood(db, registry, id)
    {
    }

    /** require: success means that everything reachable from the identifiers is good under the
        registry of begin, provided it stood still; a failure keeps every earlier finding, and a
        refusal that names a record is one full verification would give.  While the registry stands
        still it succeeds exactly when everything it has to read passes and fits. */
    method Require(ids: seq<Id>) returns (r: Result<()>)
      requires Valid() && !complete
      modifies this
      ensures Valid() && started && !complete
      ensures r.Failure? ==> checked == old(checked) && certificates == old(certificates)
      ensures checked <= rows && |checked| <= MAX_BUNDLE_RECORDS
      ensures r.Success? ==> old(checked) <= checked && forall id :: id in ids ==> id in checked
      ensures old(started) ==> registry == old(registry) && epoch == old(epoch) && begun == old(begun)
      ensures r.Failure? && Speaks(r.error) && Steady() ==> SomeUnfit(db, registry, ranks, ids, r.error)
      ensures var m := Demand(db, registry, ranks, HitSet(), old(checked), ids, old(Held()));
        && (Steady() ==> (r.Success? <==> Satisfied(m)))
        && (r.Success? ==> checked == old(checked) + NeedSet(m))
    {
      hide SomeUnfit, Tracing, SteadyFrom, Valid, Bounded, Satisfied, NeedSet;
      Begin();
      var visited, candidates;
      r, visited, candidates := TraceAll(ids);
      if r.Success? {
        Settle(ids, visited, candidates);
      }
      CheckedAreBounded();
    }

    lemma CheckedAreBounded()
      requires Valid()
      ensures checked <= rows && |checked| <= MAX_BUNDLE_RECORDS && WithinBudgets(Held())
    {
      CountMonotone(checked, rows);
    }

    /** Only when nothing is pending does what was visited become a reusable finding. */
    method Settle(ids: seq<Id>, visited: set<Id>, candidates: map<Id, Record>)
      requires Valid() && started && !complete && visited <= rows
      requires Tracing(db, registry, Steady(), ids, checked, visited, candidates, [])
      modifies this`checked, this`certificates
      ensures Valid() && forall id :: id in ids ==> id in checked
      ensures checked == old(checked) + visited && certificates == old(certificates) + candidates
    {
      hide AllGood, Tracing, CacheSound, SteadyFrom, Certify, LoadedHold;
      TraceCovers(db, registry, Steady(), ids, checked, visited, candidates);
      if Steady() {
        TraceDone(db, registry, ids, checked, visited, candidates);
      }
      CertifyMore(db, checked, certificates, visited, candidates);
      checked := checked + visited;
      certificates := certificates + candidates;
    }

    /** The worklist: visits until nothing is pending or something refuses. */
    method TraceAll(ids: seq<Id>) returns (r: Result<()>, visited: set<Id>, candidates: map<Id, Record>)
      requires Valid() && started
      modifies this`loaded, this`bytesRead, this`rows, this`databaseBytes, this`reads_
      ensures Valid() && visited <= rows
      ensures Steady() ==> (r.Success? <==> Satisfied(old(Asking(ids))))
      ensures r.Success? ==> visited == NeedSet(old(Asking(ids)))
      ensures r.Success? ==> Tracing(db, registry, Steady(), ids, checked, visited, candidates, [])
      ensures r.Failure? && Speaks(r.error) && Steady() ==> SomeUnfit(db, registry, ranks, ids, r.error)
    {
      hide AllGood, Tracing, CacheSound, Unvisited, ClosureGood, Valid, SteadyFrom, Asked, Unfit, Targets, AllAsked;
      hide Underway, Satisfied, NeedSet;
      ghost var m := Asking(ids);
      assert Answering(m) by { CheckedAreBounded(); }
      var pending := Unchecked(ids, checked);
      UnderwayStart(m, Steady(), pending);
      visited, candidates := {}, map[];
      TraceStart(db, registry, Steady(), ids, checked);
      AskedStart(db, ids, pending);
      while pending != []
        invariant AllAsked(db, ids, pending) && visited <= rows
        invariant Answering(m) && Underway(m, Steady(), visited, pending, Held())
        invariant Valid() && Tracing(db, registry, Steady(), ids, checked, visited, candidates, pending)
        decreases Unvisited(db, visited), |pending|
      {
        var id, rest := pending[|pending| - 1], pending[..|pending| - 1];
        assert pending == rest + [id];
        if id in checked || id in visited {
          TraceSkip(db, registry, Steady(), ids, checked, visited, candidates, rest, id);
          UnderwaySkip(m, Steady(), visited, rest, id, Held());
          AskedNext(db, ids, rest, id, rest);
          pending := rest;
          continue;
        }
        AskedNext(db, ids, rest, id, []);
        r, visited, candidates, pending := VisitNew(ids, visited, candidates, rest, id, m);
        if r.Failure? {
          return;
        }
        AskedNext(db, ids, rest, id, pending);
      }
      VisitedAll(m, Steady(), visited, Held());
      CheckedAreBounded();
      if Steady() {
        WalkSatisfies(m, visited, Held());
      }
      r := Success(());
    }

    /** finish: the registry read now must be the one read at begin; then all that was checked is
        good in this snapshot under it. */
    method Finish() returns (r: Result<()>)
      requires Valid() && started && !complete && Forward(readings)
      modifies this
      ensures Valid() && started && checked == old(checked) && certificates == old(certificates)
      ensures registry == old(registry) && epoch == old(epoch)
      ensures r.Success? <==> complete
      ensures r.Success? ==> AllGood(db, registry, checked)
      ensures r.Success? <==> readings(old(reads_)) == registry
      ensures Steady() ==> old(Steady()) && r.Success?
    {
      hide AllGood;
      var now := readings(reads_);
      assert now == registry ==> SteadyFrom(readings, begun, reads_, registry) by {
        if now == registry {
          NoChangeBetween(readings, begun, reads_);
        }
      }
      Tick();
      if now != registry || EpochOf(db) != epoch {
        return Failure(DependencyValidationChanged);
      }
      complete := true;
      r := Success(());
    }

    /** The batch is held beside what was held before, and what it asks for can be answered. */
    ghost predicate Validates(records: seq<Record>, before: set<Id>, held: Holding)
      reads this`epoch, this`registry
    {
      match WithAllTouched(held, records)
      case Failure(_) => false
      case Success(h) => Satisfied(Demand(db, registry, ranks, HitSet(), before, IdList(records), h))
    }

    /** validate: the closing call of an import, on the state about to commit.  While the registry
        stands still it passes exactly when the records of the batch fit and everything they lead to
        passes and fits beside them. */
    method Validate(records: seq<Record>) returns (r: Result<()>)
      requires Valid() && !complete && Forward(readings)
      requires forall x :: x in records && x.id in db.memories && x.sha == db.memories[x.id].sha ==>
                 x == db.memories[x.id]
      modifies this
      ensures Valid() && started
      ensures r.Success? ==> complete && forall x :: x in records ==> ClosureGood(db, registry, x.id)
      ensures Steady() ==> (r.Success? <==> Validates(records, old(checked), old(Held())))
    {
      hide AllGood, ClosureGood, CacheSound, SteadyFrom, Satisfied, NeedSet, Valid;
      Begin();
      r := TouchAll(records);
      if r.Failure? {
        return;
      }
      var ids := IdList(records);
      r := Require(ids);
      if r.Failure? {
        return;
      }
      r := Finish();
      if r.Success? {
        AllAreGood(db, registry, checked, records, ids);
      }
    }

    method TouchAll(records: seq<Record>) returns (r: Result<()>)
      requires Valid()
      requires forall x :: x in records && x.id in db.memories && x.sha == db.memories[x.id].sha ==>
                 x == db.memories[x.id]
      modifies this`loaded, this`bytesRead
      ensures Valid()
      ensures match WithAllTouched(old(Held()), records)
        case Success(h) => r.Success? && Held() == h
        case Failure(e) => r.Failure?
    {
      hide Valid, WithTouched;
      for k := 0 to |records|
        invariant Valid() && WithAllTouched(old(Held()), records[..k]) == Success(Held())
      {
        TouchedPrefix(old(Held()), records, k);
        assert records[k] in records;
        var touched := Touch(records[k]);
        if touched.Failure? {
          TouchedFails(old(Held()), records, k + 1);
          return touched;
        }
      }
      assert records[..|records|] == records;
      r := Success(());
    }

    /** persist: what it stores is what the runs of the cache expect of a finished validation. */
    method Persist(index: Cache) returns (stored: Cache)
      requires Valid()
      ensures complete && epoch.Some? && cache.Some? ==>
        && Certified(db, Pending(certificates, epoch.value, registry))
        && stored == Stored(index, Pending(certificates, epoch.value, registry))
      ensures !(complete && epoch.Some? && cache.Some?) ==> stored == index
    {
      hide CacheSound, ClosureGood;
      if cache.None? || epoch.None? || !complete {
        return index;
      }
      stored := Stored(index, Pending(certificates, epoch.value, registry));
      forall id | id in certificates
        ensures ClosureGood(db, registry, id)
      {
        GoodOf(db, registry, checked, id);
      }
    }
  }

  lemma GoodOf(d: Db, r: Registry, ids: set<Id>, id: Id)
    requires AllGood(d, r, ids) && id in ids
    ensures ClosureGood(d, r, id)
  {
  }

  lemma AllAreGood(d: Db, r: Registry, checked: set<Id>, records: seq<Record>, ids: seq<Id>)
    requires AllGood(d, r, checked) && ids == IdList(records) && forall id :: id in ids ==> id in checked
    ensures forall x :: x in records ==> ClosureGood(d, r, x.id)
  {
    hide ClosureGood;
    forall x | x in records
      ensures ClosureGood(d, r, x.id)
    {
      var i :| 0 <= i < |records| && records[i] == x;
      assert ids[i] in ids;
    }
  }

  lemma SteadyEarlier(f: Readings, from: nat, to: nat, later: nat, r: Registry)
    requires from <= to <= later && SteadyFrom(f, from, later, r)
    ensures SteadyFrom(f, from, to, r) && (to < later ==> f(to) == r)
  {
  }

  lemma TraceCovers(d: Db, r: Registry, steady: bool, ids: seq<Id>, checked: set<Id>, visited: set<Id>,
                    candidates: map<Id, Record>)
    requires Tracing(d, r, steady, ids, checked, visited, candidates, [])
    ensures forall id :: id in ids ==> id in checked + visited
    ensures candidates.Keys <= visited
    ensures forall id :: id in candidates ==> id in d.memories && candidates[id] == d.memories[id]
  {
    hide ClosureGood, RecordGood;
  }
}
