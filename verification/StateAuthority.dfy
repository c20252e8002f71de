/** Who may change the state of a memory: author pins, effective relations, and the
    status they give a record. */
module StateAuthority {
  import opened Wrappers
  import opened Graphs
  import opened Sorting
  import opened VaultStore
  import opened Delivery
  import opened DeliveryRuns

  /** The local author-match rule: the source's signer is the source's pin and the target's, where an
      unpinned record stands with the signer of its own row, if it has one. */
  predicate AuthorMatch(s: Store, source: Id, target: Id) {
    source in s.rows && target in s.rows &&
    var a, b := s.rows[source], s.rows[target];
    || (a.signer.Some?
        && a.signer == (if source in s.pins then Some(s.pins[source]) else a.signer)
        && a.signer == (if target in s.pins then Some(s.pins[target]) else b.signer))
    || (a.state == LocalUnsigned && b.state == LocalUnsigned)
  }

  predicate HasRelation(s: Store, source: Id, kind: RelationKind, target: Id) {
    source in s.records && target in s.records && Relation(kind, target) in s.records[source].relations
  }

  /** A supersedes or resolves relation that takes effect. */
  predicate Replaces(s: Store, trusted: Trust, source: Id, kind: RelationKind, target: Id) {
    && HasRelation(s, source, kind, target) && (kind == Supersedes || kind == Resolves)
    && RankOf(s, trusted, source) >= RankOf(s, trusted, target) && AuthorMatch(s, source, target)
  }

  /** The sources that replace a target through one kind of relation. */
  function Replacers(s: Store, trusted: Trust, kind: RelationKind, target: Id): (r: set<Id>)
    ensures forall id :: id in r <==> Replaces(s, trusted, id, kind, target)
  {
    set id | id in s.records && Replaces(s, trusted, id, kind, target)
  }

  datatype Status = QuarantinedStatus | Resolved | Superseded | Conflicted | Current

  /** A conflict edge with no endpoint explicitly resolved by a strong enough, matching record. */
  predicate OpenConflict(s: Store, trusted: Trust, source: Id, target: Id, rank: nat) {
    && HasRelation(s, source, ConflictsWith, target)
    && RankOf(s, trusted, source) >= rank && RankOf(s, trusted, target) > 0
    && forall resolver, endpoint ::
         resolver in s.records && endpoint in {source, target} && HasRelation(s, resolver, Resolves, endpoint)
         && RankOf(s, trusted, resolver) >= Max(RankOf(s, trusted, source), RankOf(s, trusted, target)) ==>
           !AuthorMatch(s, resolver, endpoint)
  }

  function Max(a: nat, b: nat): nat { if a >= b then a else b }

  /** _memory_status, in its order of precedence. */
  function MemoryStatus(s: Store, trusted: Trust, id: Id): Status {
    var rank := RankOf(s, trusted, id);
    if rank == 0 then QuarantinedStatus
    else if Replacers(s, trusted, Resolves, id) != {} then Resolved
    else if Replacers(s, trusted, Supersedes, id) != {} then Superseded
    else if exists a, b :: a in s.records && b in s.records && (a == id || b == id)
                           && OpenConflict(s, trusted, a, b, rank) then Conflicted
    else Current
  }

  predicate Historical(s: Store, trusted: Trust, id: Id) {
    Replacers(s, trusted, Supersedes, id) + Replacers(s, trusted, Resolves, id) != {}
  }

  /** _historical_memory_ids: the candidates in batches of 400. */
  method HistoricalIds(s: Store, trusted: Trust, candidates: set<Id>) returns (r: set<Id>)
    ensures forall id :: id in r <==> id in candidates && Historical(s, trusted, id)
  {
    hide Historical;
    var values := SetToSorted(candidates);
    r := {};
    var offset := 0;
    while offset < |values|
      invariant 0 <= offset
      invariant forall id :: id in r <==>
                  Historical(s, trusted, id) && id in values[..if offset < |values| then offset else |values|]
      decreases |values| - offset
    {
      var end := if offset + 400 < |values| then offset + 400 else |values|;
      var batch := values[offset..end];
      assert values[..end] == values[..offset] + batch;
      r := r + set id | id in batch && Historical(s, trusted, id);
      offset := offset + 400;
    }
    assert values[..|values|] == values;
  }

  /** For an admitted record the batched classification and the status agree. */
  lemma HistoricalIsStatus(s: Store, trusted: Trust, id: Id)
    requires RankOf(s, trusted, id) > 0
    ensures Historical(s, trusted, id) <==>
              MemoryStatus(s, trusted, id) == Resolved || MemoryStatus(s, trusted, id) == Superseded
  {
    hide Replacers, OpenConflict;
    var a, b := Replacers(s, trusted, Supersedes, id), Replacers(s, trusted, Resolves, id);
    assert a + b != {} <==> a != {} || b != {};
  }

  // ----- authorship -----

  /** The source is signed by the key both records are pinned to, or both are local and unsigned. */
  predicate SharedAuthor(s: Store, source: Id, target: Id) {
    && source in s.rows && target in s.rows
    && (|| (source in s.pins && target in s.pins && s.rows[source].signer == Some(s.pins[source])
            && s.pins[target] == s.pins[source])
        || (s.rows[source].state == LocalUnsigned && s.rows[target].state == LocalUnsigned))
  }

  /** In a store that pinned every signer it saw, the match means just that: no row's own signer
      ever stands in for a pin. */
  lemma MatchMeansPins(s: Store, source: Id, target: Id)
    requires Valid(s)
    ensures AuthorMatch(s, source, target) <==> SharedAuthor(s, source, target)
  {
  }

  /** Some stored record, at least as strong and by the same author, has that relation to it. */
  ghost predicate Settled(s: Store, trusted: Trust, kind: RelationKind, id: Id) {
    exists source :: source in s.records && HasRelation(s, source, kind, id)
                     && RankOf(s, trusted, source) >= RankOf(s, trusted, id) && SharedAuthor(s, source, id)
  }

  /** Which status a record has: a resolution comes before a replacement, and both before a conflict. */
  lemma StatusMeans(s: Store, trusted: Trust, id: Id)
    requires Valid(s)
    ensures MemoryStatus(s, trusted, id) == QuarantinedStatus <==> RankOf(s, trusted, id) == 0
    ensures MemoryStatus(s, trusted, id) == Resolved <==>
              RankOf(s, trusted, id) > 0 && Settled(s, trusted, Resolves, id)
    ensures MemoryStatus(s, trusted, id) == Superseded <==>
              RankOf(s, trusted, id) > 0 && !Settled(s, trusted, Resolves, id) && Settled(s, trusted, Supersedes, id)
  {
    hide OpenConflict, SharedAuthor, Valid, Settled, Replacers;
    SettledIs(s, trusted, Resolves, id);
    SettledIs(s, trusted, Supersedes, id);
  }

  lemma SettledIs(s: Store, trusted: Trust, kind: RelationKind, id: Id)
    requires Valid(s) && (kind == Resolves || kind == Supersedes)
    ensures RankOf(s, trusted, id) > 0 ==> (Settled(s, trusted, kind, id) <==> Replacers(s, trusted, kind, id) != {})
  {
    hide Valid, AuthorMatch, SharedAuthor, HasRelation;
    forall source
      ensures AuthorMatch(s, source, id) <==> SharedAuthor(s, source, id)
    {
      MatchMeansPins(s, source, id);
    }
    if Settled(s, trusted, kind, id) {
      var source :| source in s.records && HasRelation(s, source, kind, id)
                    && RankOf(s, trusted, source) >= RankOf(s, trusted, id) && SharedAuthor(s, source, id);
      assert source in Replacers(s, trusted, kind, id);
    }
  }

  /** Pins survive every run unchanged. */
  lemma PinsNeverChange(run: seq<World>, trusted: Trust, requireVerified: bool, i: nat, j: nat, id: Id)
    requires Run(run, trusted, requireVerified) && i <= j < |run| && id in run[i].store.pins
    ensures id in run[j].store.pins && run[j].store.pins[id] == run[i].store.pins[id]
  {
    RunGrows(run, trusted, requireVerified, i, j);
  }

  /** Re-attesting does not take over an author: once a source and a target are pinned to
      different keys, no later admission of either makes the replacement effective, unless
      both records become local and unsigned. */
  lemma ReattestingGainsNothing(run: seq<World>, trusted: Trust, requireVerified: bool, i: nat, j: nat,
                                source: Id, kind: RelationKind, target: Id)
    requires Run(run, trusted, requireVerified) && i <= j < |run|
    requires source in run[i].store.pins && target in run[i].store.pins
    requires run[i].store.pins[source] != run[i].store.pins[target]
    requires Replaces(run[j].store, trusted, source, kind, target)
    ensures run[j].store.rows[source].state == LocalUnsigned && run[j].store.rows[target].state == LocalUnsigned
  {
    hide Run;
    PinsNeverChange(run, trusted, requireVerified, i, j, source);
    PinsNeverChange(run, trusted, requireVerified, i, j, target);
    NoLostDelivery(run, trusted, requireVerified, j);
    GoodIsValid(run[j], trusted, if requireVerified then 2 else 1);
    MatchMeansPins(run[j].store, source, target);
  }

  /** In every state of every run a supersedes or resolves relation takes effect exactly when its
      source is at least as strong as its target and signed by the key both are pinned to, or both
      are local and unsigned. */
  lemma ReplacementsAreAuthored(run: seq<World>, trusted: Trust, requireVerified: bool, i: nat,
                                source: Id, kind: RelationKind, target: Id)
    requires Run(run, trusted, requireVerified) && i < |run| && (kind == Supersedes || kind == Resolves)
    ensures var s := run[i].store;
      Replaces(s, trusted, source, kind, target) <==>
        && HasRelation(s, source, kind, target)
        && RankOf(s, trusted, source) >= RankOf(s, trusted, target) && SharedAuthor(s, source, target)
  {
    hide Run, SharedAuthor, AuthorMatch, HasRelation, RankOf;
    NoLostDelivery(run, trusted, requireVerified, i);
    GoodIsValid(run[i], trusted, if requireVerified then 2 else 1);
    MatchMeansPins(run[i].store, source, target);
  }

  /** An imported record nobody has signed has no author: until some verified offer pins it, no
      relation changes its state, however strong the source. */
  lemma UnsignedImportsStand(run: seq<World>, trusted: Trust, requireVerified: bool, i: nat, target: Id)
    requires Run(run, trusted, requireVerified) && i < |run| && target in run[i].store.rows
    requires target !in run[i].store.pins && run[i].store.rows[target].state != LocalUnsigned
    ensures !Historical(run[i].store, trusted, target)
  {
    hide Run, Replaces;
    var s := run[i].store;
    forall source, kind | kind == Supersedes || kind == Resolves
      ensures !Replaces(s, trusted, source, kind, target)
    {
      ReplacementsAreAuthored(run, trusted, requireVerified, i, source, kind, target);
    }
  }

  // ----- ranks -----

  function RankAfter(s: Store, trusted: Trust, record: Record, state: Admission, proof: Option<Attestation>): nat {
    match SetAdmission(s, trusted, record, state, proof)
    case Failure(_) => RankOf(s, trusted, record.id)
    case Success(a) => RankOf(a.store, trusted, record.id)
  }

  /** An offer lowers a rank exactly when it is a well-formed verified one, signed by a key
      the vault does not trust, for a record readable unsigned. */
  lemma WhenAdmissionLowers(s: Store, trusted: Trust, record: Record, state: Admission, proof: Option<Attestation>)
    ensures RankAfter(s, trusted, record, state, proof) < RankOf(s, trusted, record.id) <==>
              state == Verified && AttestationFits(record, state, proof) && !trusted(proof.value.key)
              && RankOf(s, trusted, record.id) == 1
  {
  }

  // ----- ranks over runs -----

  /** Proofs by keys the vault itself trusts. */
  function ByTrusted(trusted: Trust): Allowed {
    (a: Attestation) => trusted(a.key)
  }

  /** A committed operation whose verified offers are all by trusted keys; cut off is the signer
      it quarantines, if that is what it does. */
  ghost predicate TrustedStep(s: Store, t: Store, trusted: Trust, cutOff: Option<Key>) {
    match cutOff
    case Some(key) => t == QuarantineSigner(s, key)
    case None => OfferStep(s, t, trusted, ByTrusted(trusted))
  }

  ghost predicate TrustedRun(run: seq<Store>, cuts: seq<Option<Key>>, trusted: Trust) {
    && |run| == |cuts| + 1 && run[0] == EMPTY
    && forall i :: 0 <= i < |cuts| ==> TrustedStep(run[i], run[i + 1], trusted, cuts[i])
  }

  ghost predicate RanksHold(s: Store, t: Store, trusted: Trust) {
    forall id :: RankOf(t, trusted, id) >= RankOf(s, trusted, id)
  }

  lemma OfferHolds(s: Store, trusted: Trust, record: Record, state: Admission, proof: Option<Attestation>)
    requires proof.Some? ==> trusted(proof.value.key)
    requires SetAdmission(s, trusted, record, state, proof).Success?
    ensures RanksHold(s, SetAdmission(s, trusted, record, state, proof).value.store, trusted)
  {
    WhenAdmissionLowers(s, trusted, record, state, proof);
  }

  lemma {:induction false} BatchHolds(s: Store, trusted: Trust, records: seq<Record>, state: Admission,
                                      proofs: map<Id, Attestation>, n: nat)
    requires n <= |records| && AllAllowed(proofs, ByTrusted(trusted))
    requires AdmitBatch(s, trusted, records, state, proofs, n).Success?
    ensures RanksHold(s, AdmitBatch(s, trusted, records, state, proofs, n).value.store, trusted)
  {
    hide AdmitOne, RankOf;
    if n > 0 {
      BatchHolds(s, trusted, records, state, proofs, n - 1);
      var b := AdmitBatch(s, trusted, records, state, proofs, n - 1).value;
      OneHolds(b, trusted, records[n - 1], state, ProofFor(proofs, records[n - 1].id));
    }
  }

  lemma OneHolds(b: Batch, trusted: Trust, record: Record, state: Admission, proof: Option<Attestation>)
    requires proof.Some? ==> trusted(proof.value.key)
    requires AdmitOne(b, trusted, record, state, proof).Success?
    ensures RanksHold(b.store, AdmitOne(b, trusted, record, state, proof).value.store, trusted)
  {
    OfferHolds(InsertRecord(b.store, record, true).value.store, trusted, record, state, proof);
    hide SetAdmission, Rank;
  }

  lemma IngestHolds(s: Store, t: Store, trusted: Trust, records: seq<Record>, state: Admission,
                    proofs: map<Id, Attestation>, transfer: Option<Transfer>, validates: Option<Store -> bool>)
    requires AllAllowed(proofs, ByTrusted(trusted))
             && Ingest(s, trusted, records, state, proofs, transfer, validates) == Success(t)
    ensures RanksHold(s, t, trusted)
  {
    hide AdmitBatch, IngestRefused, NoDangling, Rank, AllAllowed;
    if AdmitBatch(s, trusted, records, state, proofs, |records|).Success? {
      BatchHolds(s, trusted, records, state, proofs, |records|);
    }
  }

  lemma ImportHolds(s: Store, t: Store, trusted: Trust, records: seq<Record>, accept: bool)
    requires Import(s, trusted, records, accept) == Success(t)
    ensures RanksHold(s, t, trusted)
  {
    hide AdmitBatch, NoDangling, Rank;
    BatchHolds(s, trusted, records, if accept then AcceptedUnsigned else Quarantined, map[], |records|);
  }

  lemma RememberHolds(s: Store, t: Store, trusted: Trust, record: Record, proof: Option<Attestation>)
    requires (proof.Some? ==> trusted(proof.value.key)) && Remember(s, trusted, record, proof) == Success(t)
    ensures RanksHold(s, t, trusted)
  {
    var i := InsertRecord(s, record, false).value;
    OfferHolds(i.store, trusted, record, if proof.Some? then Verified else LocalUnsigned, proof);
    hide SetAdmission, NoDangling, Rank;
  }

  /** Without a quarantine no rank falls; a quarantine lowers only what its signer had verified. */
  lemma StepHolds(s: Store, t: Store, trusted: Trust, cutOff: Option<Key>, id: Id)
    requires TrustedStep(s, t, trusted, cutOff) && RankOf(t, trusted, id) < RankOf(s, trusted, id)
    ensures cutOff.Some? && id in s.rows && s.rows[id].signer == cutOff && s.rows[id].state == Verified
  {
    hide Ingest, Import, Remember, RequeueRecords, AllAllowed;
    if cutOff.None? {
      StepWithoutCut(s, t, trusted);
      assert false;
    }
  }

  lemma StepWithoutCut(s: Store, t: Store, trusted: Trust)
    requires TrustedStep(s, t, trusted, None)
    ensures RanksHold(s, t, trusted)
  {
    hide Ingest, Import, Remember, RanksHold, AllAllowed, RequeueRecords;
    if records, state, proofs, transfer, validates :|
         AllAllowed(proofs, ByTrusted(trusted))
         && Ingest(s, trusted, records, state, proofs, transfer, validates) == Success(t) {
      IngestHolds(s, t, trusted, records, state, proofs, transfer, validates);
    } else if records, accept :| Import(s, trusted, records, accept) == Success(t) {
      ImportHolds(s, t, trusted, records, accept);
    } else if record, proof: Option<Attestation> :|
         (proof.Some? ==> ByTrusted(trusted)(proof.value)) && Remember(s, trusted, record, proof) == Success(t) {
      RememberHolds(s, t, trusted, record, proof);
    } else {
      var ids :| RequeueRecords(s, trusted, ids) == Success(t);
      RequeueHolds(s, t, trusted, ids);
    }
  }

  lemma RequeueHolds(s: Store, t: Store, trusted: Trust, ids: set<Id>)
    requires RequeueRecords(s, trusted, ids) == Success(t)
    ensures RanksHold(s, t, trusted)
  {
  }

  /** When every verified offer is by a trusted key, a rank falls over a run only because the signer
      that had verified the record was quarantined in between. */
  lemma {:induction false} OnlyQuarantineLowers(run: seq<Store>, cuts: seq<Option<Key>>, trusted: Trust, i: nat,
                                                j: nat, id: Id)
    returns (k: nat)
    requires TrustedRun(run, cuts, trusted) && i <= j < |run|
             && RankOf(run[j], trusted, id) < RankOf(run[i], trusted, id)
    ensures i <= k < j && cuts[k].Some? && id in run[k].rows
    ensures run[k].rows[id].signer == cuts[k] && run[k].rows[id].state == Verified
  {
    hide RankOf, TrustedStep;
    if RankOf(run[j], trusted, id) < RankOf(run[j - 1], trusted, id) {
      assert TrustedStep(run[j - 1], run[j - 1 + 1], trusted, cuts[j - 1]);
      StepHolds(run[j - 1], run[j], trusted, cuts[j - 1], id);
      k := j - 1;
    } else {
      k := OnlyQuarantineLowers(run, cuts, trusted, i, j - 1, id);
    }
  }

  // ----- a rank that falls -----

  const EARLIER: Record := Record(1, 11, Episode, 0, [], 10)
  const SIGNATURE: Attestation := Attestation(true, 7, 11, 64)

  function Imported(): Store {
    Store(map[1 := EARLIER], map[1 := 0], map[1 := AdmissionRow(AcceptedUnsigned, None, None)], map[], [1], map[])
  }

  function Hidden(): Store {
    Store(map[1 := EARLIER], map[1 := 0], map[1 := AdmissionRow(Verified, Some(7), Some(SIGNATURE))], map[1 := 7],
          [1, 1], map[])
  }

  /** From the empty store: an unsigned import, then the same record verified by another's key. */
  function LoweringRun(): seq<World> {
    [World(EMPTY, 0, {}, {}), World(Imported(), 0, {}, {}), World(Hidden(), 0, {}, {})]
  }

  lemma NothingDepends(s: Store, trusted: Trust, seeds: set<Id>)
    requires forall id :: id in s.records ==> Targets(s.records[id]) == {}
    ensures Requeue(s, trusted, seeds) == s
  {
    assert Dependents(s, seeds) == {};
    assert Readable(s, trusted, {}) == {};
    assert s.log + SetToSorted({}) == s.log;
  }

  lemma ImportsEarlier(trusted: Trust)
    ensures Import(EMPTY, trusted, [EARLIER], true) == Success(Imported())
  {
    assert Targets(EARLIER) == {};
    NothingDepends(Imported(), trusted, {});
    var b := AdmitOne(Batch(EMPTY, {}, 0), trusted, EARLIER, AcceptedUnsigned, None);
    assert b.value.store.ingest == map[1 := 0] && b.value.store.log == [1] && b.value.store.pins == map[];
    assert b == Success(Batch(Imported(), {}, 1));
    assert AdmitBatch(EMPTY, trusted, [EARLIER], AcceptedUnsigned, map[], 0) == Success(Batch(EMPTY, {}, 0));
    hide Requeue;
  }

  lemma IngestsAgain(trusted: Trust)
    ensures Ingest(Imported(), trusted, [EARLIER], Verified, map[1 := SIGNATURE], None, None) == Success(Hidden())
  {
    assert Targets(EARLIER) == {};
    NothingDepends(Hidden(), trusted, {1});
    var s := Imported();
    var b := AdmitOne(Batch(s, {}, 0), trusted, EARLIER, Verified, Some(SIGNATURE));
    assert b.value.store.log == [1, 1] && b.value.store.pins == map[1 := 7];
    assert b.value.store.rows == Hidden().rows;
    assert b.value.upgraded == {1};
    assert b == Success(Batch(Hidden(), {1}, 0));
    assert AdmitBatch(s, trusted, [EARLIER], Verified, map[1 := SIGNATURE], 0) == Success(Batch(s, {}, 0));
    assert Ids([EARLIER]) == {1};
    assert TotalBytes([EARLIER]) == 10;
    hide Requeue;
  }

  lemma LoweringSteps(trusted: Trust)
    ensures StoreStep(EMPTY, Imported(), trusted) && StoreStep(Imported(), Hidden(), trusted)
  {
    hide Import, Ingest, Remember, RequeueRecords, QuarantineSigner, Hidden, Imported;
    ImportsEarlier(trusted);
    IngestsAgain(trusted);
  }

  /** An accepted import whose row a verified offer by an unknown key then takes over, in a run from
      the empty store: what could be read no longer can. */
  lemma AdmissionCanLower(trusted: Trust, requireVerified: bool)
    requires !trusted(7)
    ensures Run(LoweringRun(), trusted, requireVerified)
    ensures RankOf(LoweringRun()[1].store, trusted, 1) == 1 && RankOf(LoweringRun()[2].store, trusted, 1) == 0
  {
    assert RankOf(Imported(), trusted, 1) == 1 && RankOf(Hidden(), trusted, 1) == 0;
    hide StoreStep, PageStep, Hidden, Imported;
    LoweringSteps(trusted);
    var run := LoweringRun();
    forall i | 0 <= i < 2
      ensures Next(run[i], run[i + 1], trusted, requireVerified)
    {
      assert i == 0 || i == 1;
    }
  }
}
