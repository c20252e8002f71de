/** The append-only memory store: records, relations, admissions, author pins, the
    delivery log and transfer receipts, and the transactions that change them. */
module VaultStore {
  import opened Wrappers
  import opened Graphs
  import opened Sorting

  type Id = Node
  type Key = nat

  datatype Admission = LocalUnsigned | AcceptedUnsigned | Verified | Quarantined

  datatype RelationKind = Supersedes | Resolves | ConflictsWith | OtherRelation(name: nat)

  const DERIVED_FROM: RelationKind := OtherRelation(0)
  const CONTINUES: RelationKind := OtherRelation(1)

  datatype Kind = Episode | Continuity | OtherKind(name: nat)

  datatype Relation = Relation(kind: RelationKind, target: Id)

  /** A validated record.  Its hash stands for its canonical bytes, its id for the
      shortened hash, so equal ids with different hashes can still meet. */
  datatype Record = Record(id: Id, sha: nat, kind: Kind, created: nat, relations: seq<Relation>, bytes: nat)

  datatype Attestation = Attestation(wellFormed: bool, key: Key, digest: nat, bytes: nat)

  datatype AdmissionRow = AdmissionRow(state: Admission, signer: Option<Key>, proof: Option<Attestation>)

  datatype Receipt = Receipt(payload: nat, seen: nat, added: nat, admission: Admission)

  datatype Store = Store(
    records: map<Id, Record>, ingest: map<Id, nat>, rows: map<Id, AdmissionRow>,
    pins: map<Id, Key>, log: seq<Id>, receipts: map<nat, Receipt>)

  const EMPTY: Store := Store(map[], map[], map[], map[], [], map[])

  const MAX_BUNDLE_RECORDS: nat := 100_000
  const MAX_BUNDLE_BYTES: nat := 64 * 1024 * 1024

  type Trust = Key -> bool

  /** vault_admitted: 0 unreadable, 1 unsigned, 2 signed by a key trusted now. */
  function Rank(trusted: Trust, row: AdmissionRow): (r: nat)
    ensures r <= 2
  {
    match row.state
    case Quarantined => 0
    case LocalUnsigned => 1
    case AcceptedUnsigned => 1
    case Verified => if row.signer.Some? && trusted(row.signer.value) then 2 else 0
  }

  function RankOf(s: Store, trusted: Trust, id: Id): (r: nat)
    ensures r <= 2
  {
    if id in s.rows then Rank(trusted, s.rows[id]) else 0
  }

  function Targets(r: Record): set<Id> {
    set e | e in r.relations :: e.target
  }

  /** The bytes of a set of stored records. */
  ghost function SizeOf(records: map<Id, Record>, ids: set<Id>): nat
    requires ids <= records.Keys
  {
    if ids == {} then 0
    else
      var id :| id in ids;
      records[id].bytes + SizeOf(records, ids - {id})
  }

  lemma {:induction false} SizeWith(records: map<Id, Record>, ids: set<Id>, id: Id)
    requires ids <= records.Keys && id in records && id !in ids
    ensures SizeOf(records, ids + {id}) == SizeOf(records, ids) + records[id].bytes
    decreases |ids|
  {
    var all := ids + {id};
    var first :| first in all && SizeOf(records, all) == records[first].bytes + SizeOf(records, all - {first});
    if first == id {
      assert all - {first} == ids;
    } else {
      var rest := ids - {first};
      assert all - {first} == rest + {id} && rest + {first} == ids;
      SizeWith(records, rest, id);
      SizeWith(records, rest, first);
    }
  }

  lemma {:induction false} SizeMonotone(records: map<Id, Record>, a: set<Id>, b: set<Id>)
    requires a <= b <= records.Keys
    ensures SizeOf(records, a) <= SizeOf(records, b)
    decreases |b - a|
  {
    if id :| id in b && id !in a {
      assert b - (a + {id}) == (b - a) - {id};
      SizeWith(records, a, id);
      SizeMonotone(records, a + {id}, b);
    } else {
      assert a == b;
    }
  }

  lemma {:induction false} CountMonotone(a: set<Id>, b: set<Id>)
    requires a <= b
    ensures |a| <= |b|
  {
    assert b == a + (b - a);
  }

  function RelationGraph(s: Store): (g: Graph)
    ensures g.Keys == s.records.Keys
  {
    map id | id in s.records :: Targets(s.records[id])
  }

  /** Every relation points at a stored record: the deferred foreign key. */
  predicate NoDangling(s: Store) {
    forall id :: id in s.records ==> Targets(s.records[id]) <= s.records.Keys
  }

  /** What every committed state keeps. */
  ghost predicate Valid(s: Store) {
    NoDangling(s) && ValidOpen(s)
  }

  /** What an open transaction keeps while relations may still be pending. */
  ghost predicate ValidOpen(s: Store) {
    && s.rows.Keys == s.records.Keys
    && (forall id :: id in s.records ==> s.records[id].id == id)
    && (forall id :: id in s.log ==> id in s.records)
    && (forall id :: id in s.rows && s.rows[id].signer.Some? ==> id in s.pins)
    && (forall id :: id in s.rows && s.rows[id].state == Verified ==> s.rows[id].signer.Some?)
  }

  // ----- inserting -----

  datatype Inserted = Inserted(store: Store, created: bool)

  /** _insert_record: bytes are never replaced; a new record enters with its relations. */
  function InsertRecord(s: Store, record: Record, allowPending: bool): Result<Inserted> {
    if record.id in s.records then
      if s.records[record.id] != record then Failure(MemoryIdentityConflict) else Success(Inserted(s, false))
    else if !allowPending && !(Targets(record) <= s.records.Keys) then Failure(DanglingRelation)
    else
      Success(Inserted(s.(records := s.records[record.id := record],
                          ingest := s.ingest[record.id := |s.records|]), true))
  }

  // ----- admitting -----

  datatype Admitted = Admitted(store: Store, upgraded: bool)

  function Offered(state: Admission): nat {
    if state == Verified then 2 else if state == Quarantined then 0 else 1
  }

  function RowFor(state: Admission, proof: Option<Attestation>): AdmissionRow {
    if state == Verified && proof.Some? then AdmissionRow(state, Some(proof.value.key), proof)
    else AdmissionRow(state, None, None)
  }

  /** Pin the first signed identity this store has seen for the record. */
  function Pin(s: Store, id: Id, offered: Option<Key>): Store {
    var author := if id in s.rows && s.rows[id].signer.Some? then s.rows[id].signer else offered;
    if author.Some? && id !in s.pins then s.(pins := s.pins[id := author.value]) else s
  }

  /** The longest canonical proof the shape check lets through: a signature of 256 characters, each of
      up to six bytes when escaped. */
  const MAX_OFFERED_PROOF_BYTES: nat := 234 + 6 * 256

  predicate AttestationFits(record: Record, state: Admission, proof: Option<Attestation>) {
    if state == Verified then
      && proof.Some? && proof.value.wellFormed && proof.value.digest == record.sha
      && proof.value.bytes <= MAX_OFFERED_PROOF_BYTES
    else proof.None?
  }

  /** _set_admission: an offer that is not stronger than the current rank changes only the pin. */
  function SetAdmission(s: Store, trusted: Trust, record: Record, state: Admission,
                        proof: Option<Attestation>): Result<Admitted>
  {
    if !AttestationFits(record, state, proof) then
      Failure(if state == Verified then InvalidAttestation else UnexpectedAttestation)
    else
      var row := RowFor(state, proof);
      var pinned := Pin(s, record.id, row.signer);
      if record.id in s.rows && Rank(trusted, s.rows[record.id]) >= Offered(state) then
        Success(Admitted(pinned, false))
      else
        Success(Admitted(pinned.(rows := s.rows[record.id := row], log := s.log + [record.id]), record.id in s.rows))
  }

  // ----- dependents -----

  /** Records with a relation path of at least one edge to a seed. */
  ghost function Dependents(s: Store, seeds: set<Id>): (r: set<Id>)
    ensures forall id :: id in r <==> id in s.records && LeadsTo(s, id, seeds)
  {
    set id | id in s.records && LeadsTo(s, id, seeds)
  }

  ghost predicate LeadsTo(s: Store, id: Id, seeds: set<Id>) {
    exists m, t :: m in Succ(RelationGraph(s), id) && t in seeds && Reach(RelationGraph(s), m, t)
  }

  ghost function Readable(s: Store, trusted: Trust, ids: set<Id>): (r: set<Id>)
    ensures forall id :: id in r <==> id in ids && RankOf(s, trusted, id) > 0
  {
    set id | id in ids && RankOf(s, trusted, id) > 0
  }

  /** _requeue_dependents: log every readable dependent again, in id order. */
  ghost function Requeue(s: Store, trusted: Trust, seeds: set<Id>): Store {
    s.(log := s.log + SetToSorted(Readable(s, trusted, Dependents(s, seeds))))
  }

  /** Sources of relations into the given targets. */
  function SourcesInto(s: Store, targets: set<Id>): (r: set<Id>)
    ensures forall id :: id in r <==> id in s.records && Targets(s.records[id]) * targets != {}
  {
    set id | id in s.records && Targets(s.records[id]) * targets != {}
  }

  // ----- whole transactions -----

  datatype Batch = Batch(store: Store, upgraded: set<Id>, added: nat)

  function ProofFor(proofs: map<Id, Attestation>, id: Id): Option<Attestation> {
    if id in proofs then Some(proofs[id]) else None
  }

  /** Insert and admit one record of a batch. */
  function AdmitOne(b: Batch, trusted: Trust, record: Record, state: Admission,
                    proof: Option<Attestation>): Result<Batch>
  {
    match InsertRecord(b.store, record, true)
    case Failure(e) => Failure(e)
    case Success(i) =>
      match SetAdmission(i.store, trusted, record, state, proof)
      case Failure(e) => Failure(e)
      case Success(a) =>
        Success(Batch(a.store, if a.upgraded then b.upgraded + {record.id} else b.upgraded,
                      b.added + if i.created then 1 else 0))
  }

  /** The loop of ingest_records and import_bundle over the first n records. */
  function AdmitBatch(s: Store, trusted: Trust, records: seq<Record>, state: Admission,
                      proofs: map<Id, Attestation>, n: nat): Result<Batch>
    requires n <= |records|
  {
    if n == 0 then Success(Batch(s, {}, 0))
    else
      match AdmitBatch(s, trusted, records, state, proofs, n - 1)
      case Failure(e) => Failure(e)
      case Success(b) => AdmitOne(b, trusted, records[n - 1], state, ProofFor(proofs, records[n - 1].id))
  }

  datatype Transfer = Transfer(id: nat, payload: nat, previous: Option<nat>)

  function TotalBytes(records: seq<Record>): nat {
    if records == [] then 0 else records[0].bytes + TotalBytes(records[1..])
  }

  function Ids(records: seq<Record>): (r: set<Id>)
    ensures forall id :: id in r <==> exists x :: x in records && x.id == id
  {
    set x | x in records :: x.id
  }

  predicate DistinctIds(records: seq<Record>) {
    forall i, j :: 0 <= i < j < |records| ==> records[i].id != records[j].id
  }

  /** The refusals of ingest_records before its transaction opens. */
  function IngestRefused(records: seq<Record>, state: Admission, proofs: map<Id, Attestation>,
                         transfer: Option<Transfer>, validating: bool): Option<Error>
  {
    if state == LocalUnsigned then Some(InvalidAdmission)
    else if !DistinctIds(records) then Some(DuplicateBundleRecord)
    else if |records| > MAX_BUNDLE_RECORDS || TotalBytes(records) > MAX_BUNDLE_BYTES then Some(BundleTooLarge)
    else if state == Verified && proofs.Keys != Ids(records) then Some(MissingAttestation)
    else if state != Verified && proofs != map[] then Some(UnexpectedAttestation)
    else if transfer.Some? && transfer.value.previous.Some? && (state != Verified || !validating) then
      Some(InvalidDependencyBoundary)
    else None
  }

  /** ingest_records: the committed state after the call, or the refusal that left it alone.
      validates answers for the dependency validator on the state about to commit. */
  ghost function Ingest(s: Store, trusted: Trust, records: seq<Record>, state: Admission,
                        proofs: map<Id, Attestation>, transfer: Option<Transfer>,
                        validates: Option<Store -> bool>): Result<Store>
  {
    var refused := IngestRefused(records, state, proofs, transfer, validates.Some?);
    if refused.Some? then Failure(refused.value)
    else if transfer.Some? && transfer.value.id in s.receipts then
      if s.receipts[transfer.value.id].payload != transfer.value.payload then Failure(TransferReplayConflict)
      else Success(s)
    else if transfer.Some? && transfer.value.previous.Some? && !HasReceipt(s, transfer.value.previous.value) then
      Failure(DependencyBaseReceiptMissing)
    else
      match AdmitBatch(s, trusted, records, state, proofs, |records|)
      case Failure(e) => Failure(e)
      case Success(b) =>
        if validates.Some? && !validates.value(b.store) then Failure(DependencyRejected)
        else Committed(WithReceipt(Requeue(b.store, trusted, b.upgraded), transfer,
                                   Receipt(0, |records|, b.added, state)))
  }

  /** A receipt is filed under its own payload digest. */
  predicate HasReceipt(s: Store, digest: nat) {
    digest in s.receipts && s.receipts[digest].payload == digest
  }

  function WithReceipt(s: Store, transfer: Option<Transfer>, receipt: Receipt): Store {
    if transfer.None? then s
    else s.(receipts := s.receipts[transfer.value.id := receipt.(payload := transfer.value.payload)])
  }

  function Committed(s: Store): Result<Store> {
    if NoDangling(s) then Success(s) else Failure(DanglingRelation)
  }

  /** import_bundle: every imported record is unsigned. */
  ghost function Import(s: Store, trusted: Trust, records: seq<Record>, accept: bool): Result<Store> {
    match AdmitBatch(s, trusted, records, if accept then AcceptedUnsigned else Quarantined, map[], |records|)
    case Failure(e) => Failure(e)
    case Success(b) => Committed(Requeue(b.store, trusted, b.upgraded))
  }

  /** _remember: one locally built record, signed when the vault has a signer. */
  ghost function Remember(s: Store, trusted: Trust, record: Record, proof: Option<Attestation>): Result<Store> {
    match InsertRecord(s, record, false)
    case Failure(e) => Failure(e)
    case Success(i) =>
      match SetAdmission(i.store, trusted, record, if proof.Some? then Verified else LocalUnsigned, proof)
      case Failure(e) => Failure(e)
      case Success(a) => Committed(if a.upgraded then Requeue(a.store, trusted, {record.id}) else a.store)
  }

  /** quarantine_signer keeps bytes, signers and proofs. */
  function QuarantineSigner(s: Store, key: Key): Store {
    s.(rows := map id | id in s.rows ::
         if s.rows[id].signer == Some(key) && s.rows[id].state == Verified
         then s.rows[id].(state := Quarantined) else s.rows[id])
  }

  /** requeue_records: an explicit delivery retry for readable records. */
  ghost function RequeueRecords(s: Store, trusted: Trust, ids: set<Id>): Result<Store> {
    if ids == {} || |ids| > 256 then Failure(InvalidLimit)
    else if exists id :: id in ids && RankOf(s, trusted, id) == 0 then Failure(RecordNotAdmitted)
    else Success(Requeue(s.(log := s.log + SetToSorted(ids)), trusted, ids))
  }
}
