/** Frozen capture plans: per scope, a chain of plans that each name the one before. */
module CapturePlans {
  import opened Wrappers
  import opened Sorting
  import opened VaultStore

  type Job = nat
  type Scope = nat

  const MAX_JOBS: nat := 100_000
  const MAX_PENDING: nat := 256
  const MAX_PENDING_BYTES: nat := 32 * 1024 * 1024
  const MAX_RECORDS: nat := 64
  const MAX_LINE: nat := 2 * 1024 * 1024
  const MAX_SEQUENCE: nat := 9223372036854775807
  const FRAGMENT_PROFILE: nat := 0
  const TURN_PROFILE: nat := 1

  /** A visible text; its hash is held as the text. */
  datatype Text = Text(content: nat, bytes: nat)

  /** What the input hash of a job covers. */
  datatype Input = Input(user: Option<Text>, assistant: Option<Text>)

  datatype Ref = Ref(id: Id, sha: nat)

  /** The predecessor's job key, continuity id and record hash: all there or none. */
  datatype Previous = Previous(job: Job, continuity: Ref)

  /** What the projection hash covers; the hash is held as this value. */
  datatype Projection = Projection(profile: nat, created: nat, previous: Option<Ref>, episode: Id, continuity: Id,
                                   records: seq<Record>)

  datatype Header = Header(job: Job, scope: Scope, sequence: nat, profile: nat, input: Input, created: nat,
                           previous: Option<Previous>, episode: Id, continuity: Id, projection: Projection,
                           request: nat, saved: bool, count: nat)

  datatype Row = Row(ref: Ref, body: Option<Record>)

  /** A capture_jobs row with its capture_records in ordinal order. */
  datatype Entry = Entry(header: Header, rows: seq<Row>)

  datatype Head = Head(sequence: nat, job: Job)

  datatype Journal = Journal(jobs: map<Job, Entry>, heads: map<Scope, Head>)

  datatype Plan = Plan(header: Header, records: seq<Record>, refs: seq<Ref>)

  function RefOf(r: Record): Ref {
    Ref(r.id, r.sha)
  }

  function RefsOf(records: seq<Record>): (refs: seq<Ref>)
    ensures |refs| == |records| && forall i :: 0 <= i < |refs| ==> refs[i] == RefOf(records[i])
  {
    seq(|records|, i requires 0 <= i < |records| => RefOf(records[i]))
  }

  // ----- checking one plan -----

  /** validate_capture_header */
  predicate HeaderFits(h: Header) {
    && h.episode != h.continuity && 1 <= h.sequence <= MAX_SEQUENCE && 2 <= h.count <= MAX_RECORDS
    && (h.previous.Some? ==> h.previous.value.job != h.job && h.previous.value.continuity.id != h.continuity)
  }

  function PreviousRef(h: Header): Option<Ref> {
    if h.previous.Some? then Some(h.previous.value.continuity) else None
  }

  /** capture_digest */
  function Digest(h: Header, records: seq<Record>): Projection {
    Projection(h.profile, h.created, PreviousRef(h), h.episode, h.continuity, records)
  }

  /** The continuity record derives from its episode and continues the predecessor. */
  function Links(h: Header): seq<Relation> {
    [Relation(DERIVED_FROM, h.episode)]
    + if h.previous.Some? then [Relation(CONTINUES, h.previous.value.continuity.id)] else []
  }

  predicate SameEdges(a: seq<Relation>, b: seq<Relation>) {
    (forall e :: e in a ==> e in b) && (forall e :: e in b ==> e in a)
  }

  predicate TurnShape(h: Header, records: seq<Record>) {
    && |records| == h.count && DistinctIds(records)
    && (exists r :: r in records && r.id == h.episode)
    && (exists r :: r in records && r.id == h.continuity)
    && (forall r :: r in records ==>
          && r.created == h.created
          && r.kind == (if r.id == h.continuity then Continuity else Episode)
          && (r.id == h.continuity ==> SameEdges(r.relations, Links(h)))
          && (forall e :: e in r.relations ==>
                e.target in Ids(records) || (r.id == h.continuity && h.previous.Some?
                                             && e == Relation(CONTINUES, h.previous.value.continuity.id))))
  }

  /** The one-sided hook pair; its episode may supplement an earlier fragment. */
  predicate FragmentShape(h: Header, records: seq<Record>) {
    && |records| == 2 == h.count
    && records[0].id == h.episode && records[1].id == h.continuity
    && records[0].created == h.created && records[1].created == h.created
    && records[0].kind == Episode && records[1].kind == Continuity && records[1].relations == Links(h)
    && (records[0].relations == []
        || (|records[0].relations| == 1 && records[0].relations[0].kind == DERIVED_FROM
            && records[0].relations[0].target !in {h.episode, h.continuity}))
  }

  /** validate_capture_projection */
  function ProjectionRefused(h: Header, records: seq<Record>): Option<Error> {
    if !HeaderFits(h) then Some(InvalidCaptureState)
    else if !(if h.profile == FRAGMENT_PROFILE then FragmentShape(h, records) else TurnShape(h, records)) then
      Some(InvalidCaptureProjection)
    else if Digest(h, records) != h.projection then Some(CaptureProjectionChanged)
    else None
  }

  function RowRefused(row: Row, saved: bool): Option<Error> {
    if row.body.None? then if saved then None else Some(InvalidCaptureProjection)
    else if row.body.value.bytes > MAX_LINE then Some(CaptureProjectionLimit)
    else if RefOf(row.body.value) != row.ref then Some(CaptureProjectionChanged)
    else None
  }

  function RowsRefused(rows: seq<Row>, saved: bool): Option<Error> {
    if rows == [] then None
    else
      var earlier := RowsRefused(rows[..|rows| - 1], saved);
      if earlier.Some? then earlier else RowRefused(rows[|rows| - 1], saved)
  }

  function RowRefs(rows: seq<Row>): (refs: seq<Ref>)
    ensures |refs| == |rows| && forall i :: 0 <= i < |refs| ==> refs[i] == rows[i].ref
  {
    seq(|rows|, i requires 0 <= i < |rows| => rows[i].ref)
  }

  function Bodies(rows: seq<Row>): seq<Record> {
    if rows == [] then []
    else
      var r := rows[|rows| - 1];
      Bodies(rows[..|rows| - 1]) + if r.body.Some? then [r.body.value] else []
  }

  predicate DistinctRefs(refs: seq<Ref>) {
    forall i, j :: 0 <= i < j < |refs| ==> refs[i].id != refs[j].id
  }

  predicate Names(refs: seq<Ref>, id: Id) {
    exists r :: r in refs && r.id == id
  }

  /** load_capture, past the lookup. */
  function LoadEntry(e: Entry): Result<Plan> {
    var h, refs, records := e.header, RowRefs(e.rows), Bodies(e.rows);
    if !HeaderFits(h) then Failure(InvalidCaptureState)
    else if |e.rows| != h.count then Failure(InvalidCaptureProjection)
    else if RowsRefused(e.rows, h.saved).Some? then Failure(RowsRefused(e.rows, h.saved).value)
    else if !DistinctRefs(refs) || !Names(refs, h.episode) || !Names(refs, h.continuity) then
      Failure(InvalidCaptureProjection)
    else if records == [] then Success(Plan(h, [], refs))
    else if |records| != |refs| then Failure(InvalidCaptureProjection)
    else if ProjectionRefused(h, records).Some? then Failure(ProjectionRefused(h, records).value)
    else Success(Plan(h, records, refs))
  }

  function Load(j: Journal, job: Job): Result<Option<Plan>> {
    if job !in j.jobs then Success(None)
    else
      match LoadEntry(j.jobs[job])
      case Failure(e) => Failure(e)
      case Success(p) => Success(Some(p))
  }

  // ----- freezing -----

  datatype Ask = Ask(scope: Scope, job: Job, input: Input, profile: nat, request: nat, created: Option<nat>)

  datatype Built = Built(records: seq<Record>, episode: Id, continuity: Id)

  type Builder = (nat, Option<Ref>) -> Built

  function BodyBytes(rows: seq<Row>): nat {
    if rows == [] then 0
    else
      var r := rows[|rows| - 1];
      BodyBytes(rows[..|rows| - 1]) + if r.body.Some? then r.body.value.bytes else 0
  }

  function RecordBytes(records: seq<Record>): nat {
    if records == [] then 0 else RecordBytes(records[..|records| - 1]) + records[|records| - 1].bytes
  }

  function PendingJobs(j: Journal): (jobs: set<Job>)
    ensures forall job :: job in jobs <==> job in j.jobs && !j.jobs[job].header.saved
  {
    set job | job in j.jobs && !j.jobs[job].header.saved
  }

  function Occupied(jobs: map<Job, Entry>, some: set<Job>): nat
    requires some <= jobs.Keys
  {
    if some == {} then 0 else BodyBytes(jobs[MinOf(some)].rows) + Occupied(jobs, some - {MinOf(some)})
  }

  predicate SameAsk(h: Header, ask: Ask) {
    && h.scope == ask.scope && h.input == ask.input && h.profile == ask.profile && h.request == ask.request
    && (ask.created.Some? ==> h.created == ask.created.value)
  }

  function RefNamed(refs: seq<Ref>, id: Id): (r: Ref)
    requires Names(refs, id)
    ensures r in refs && r.id == id
  {
    if refs[|refs| - 1].id == id then refs[|refs| - 1]
    else
      assert forall r :: r in refs ==> r in refs[..|refs| - 1] || r == refs[|refs| - 1];
      RefNamed(refs[..|refs| - 1], id)
  }

  lemma LoadNames(e: Entry)
    requires LoadEntry(e).Success?
    ensures Names(LoadEntry(e).value.refs, LoadEntry(e).value.header.continuity)
    ensures LoadEntry(e).value.header == e.header && LoadEntry(e).value.refs == RowRefs(e.rows)
    ensures LoadEntry(e).value.records == Bodies(e.rows)
  {
  }

  /** The predecessor a new plan of this scope must name. */
  function Parent(j: Journal, scope: Scope): Result<Option<Previous>> {
    if scope !in j.heads then Success(None)
    else
      var head := j.heads[scope];
      if !(1 <= head.sequence < MAX_SEQUENCE) then Failure(InvalidCaptureState)
      else
        match Load(j, head.job)
        case Failure(e) => Failure(e)
        case Success(None) => Failure(InvalidCaptureHead)
        case Success(Some(p)) =>
          if p.header.scope != scope || p.header.sequence != head.sequence then Failure(InvalidCaptureHead)
          else
            LoadNames(j.jobs[head.job]);
            Success(Some(Previous(p.header.job, RefNamed(p.refs, p.header.continuity))))
  }

  function NextSequence(j: Journal, scope: Scope): nat {
    if scope in j.heads then j.heads[scope].sequence + 1 else 1
  }

  function Drafted(j: Journal, ask: Ask, previous: Option<Previous>, created: nat, b: Built): Header {
    var h := Header(ask.job, ask.scope, NextSequence(j, ask.scope), ask.profile, ask.input, created, previous,
                    b.episode, b.continuity, Projection(0, 0, None, 0, 0, []), ask.request, false, |b.records|);
    h.(projection := Digest(h, b.records))
  }

  function Staged(records: seq<Record>): (rows: seq<Row>)
    ensures |rows| == |records|
    ensures forall i :: 0 <= i < |rows| ==> rows[i] == Row(RefOf(records[i]), Some(records[i]))
  {
    seq(|records|, i requires 0 <= i < |records| => Row(RefOf(records[i]), Some(records[i])))
  }

  datatype Draft = Draft(header: Header, records: seq<Record>)

  /** What the builder makes of the frozen time and the predecessor. */
  function DraftOf(j: Journal, ask: Ask, now: nat, build: Builder, previous: Option<Previous>): Draft {
    var created := if ask.created.Some? then ask.created.value else now;
    var b := build(created, if previous.Some? then Some(previous.value.continuity) else None);
    Draft(Drafted(j, ask, previous, created, b), b.records)
  }

  datatype Frozen = Frozen(journal: Journal, plan: Plan)

  /** freeze_capture: the journal after the caller's transaction commits, and the plan. */
  function Freeze(j: Journal, ask: Ask, now: nat, build: Builder): Result<Frozen> {
    match Load(j, ask.job)
    case Failure(e) => Failure(e)
    case Success(Some(p)) =>
      if SameAsk(p.header, ask) then Success(Frozen(j, p)) else Failure(CaptureRequestConflict)
    case Success(None) =>
      if |j.jobs| >= MAX_JOBS then Failure(CaptureHistoryLimit)
      else if |PendingJobs(j)| >= MAX_PENDING then Failure(CapturePendingLimit)
      else
        match Parent(j, ask.scope)
        case Failure(e) => Failure(e)
        case Success(previous) =>
          var d := DraftOf(j, ask, now, build, previous);
          if !(2 <= |d.records| <= MAX_RECORDS) then Failure(CaptureProjectionLimit)
          else if Occupied(j.jobs, PendingJobs(j)) + RecordBytes(d.records) > MAX_PENDING_BYTES then
            Failure(CapturePendingBytesLimit)
          else Accept(j, d.header, d.records)
  }

  function Accept(j: Journal, h: Header, records: seq<Record>): Result<Frozen> {
    if ProjectionRefused(h, records).Some? then Failure(ProjectionRefused(h, records).value)
    else
      var k := Journal(j.jobs[h.job := Entry(h, Staged(records))], j.heads[h.scope := Head(h.sequence, h.job)]);
      match LoadEntry(k.jobs[h.job])
      case Failure(e) => Failure(e)
      case Success(p) => Success(Frozen(k, p))
  }

  function Cleared(rows: seq<Row>): (bare: seq<Row>)
    ensures |bare| == |rows| && forall i :: 0 <= i < |rows| ==> bare[i] == rows[i].(body := None)
  {
    seq(|rows|, i requires 0 <= i < |rows| => rows[i].(body := None))
  }

  /** mark_capture_saved */
  function MarkSaved(j: Journal, job: Job): Result<Journal> {
    match Load(j, job)
    case Failure(e) => Failure(e)
    case Success(None) => Failure(UnknownCaptureJob)
    case Success(Some(_)) =>
      var e := j.jobs[job];
      Success(j.(jobs := j.jobs[job := Entry(e.header.(saved := true), Cleared(e.rows))]))
  }

  // ----- what validate_capture_state demands -----

  predicate Loads(j: Journal) {
    forall job :: job in j.jobs ==> j.jobs[job].header.job == job && LoadEntry(j.jobs[job]).Success?
  }

  predicate Linked(j: Journal, job: Job)
    requires job in j.jobs
  {
    var h := j.jobs[job].header;
    if h.previous.None? then h.sequence == 1
    else
      var p := h.previous.value;
      && p.job in j.jobs && j.jobs[p.job].header.scope == h.scope
      && j.jobs[p.job].header.sequence + 1 == h.sequence
      && j.jobs[p.job].header.continuity == p.continuity.id && p.continuity in RowRefs(j.jobs[p.job].rows)
  }

  predicate AllLinked(j: Journal) {
    forall job :: job in j.jobs ==> Linked(j, job)
  }

  predicate AtTip(j: Journal, scope: Scope)
    requires scope in j.heads
  {
    var head := j.heads[scope];
    head.job in j.jobs && j.jobs[head.job].header.scope == scope && j.jobs[head.job].header.sequence == head.sequence
  }

  /** Every scope with a plan has a head, and it stands at the scope's last plan. */
  predicate HeadsAtTips(j: Journal) {
    && (forall scope :: scope in j.heads ==> AtTip(j, scope))
    && (forall job :: job in j.jobs ==>
          var h := j.jobs[job].header;
          h.scope in j.heads && h.sequence <= j.heads[h.scope].sequence)
  }

  ghost predicate WithinLimits(j: Journal) {
    && |j.jobs| <= MAX_JOBS && |PendingJobs(j)| <= MAX_PENDING
    && Occupied(j.jobs, PendingJobs(j)) <= MAX_PENDING_BYTES
  }

  ghost predicate StateFits(j: Journal) {
    Loads(j) && WithinLimits(j) && AllLinked(j) && HeadsAtTips(j)
  }

  /** The schema's unique index on scope and sequence. */
  predicate UniqueSequences(j: Journal) {
    forall a, b :: a in j.jobs && b in j.jobs && a != b && j.jobs[a].header.scope == j.jobs[b].header.scope ==>
      j.jobs[a].header.sequence != j.jobs[b].header.sequence
  }

  ghost predicate JournalValid(j: Journal) {
    StateFits(j) && UniqueSequences(j)
  }

  const EMPTY_JOURNAL: Journal := Journal(map[], map[])
}
