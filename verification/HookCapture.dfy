/** Visible-hook captures: a journal whose transaction spans several vault commits and done
    files, so that a crash can undo the journal alone. */
module HookCapture {
  import opened Wrappers
  import opened Sorting
  import opened VaultStore
  import opened VaultTransactions
  import opened DeliveryRuns
  import opened CapturePlans
  import opened TurnStores
  import Turns = TurnRuns
  import Bridges = HostBridges
  import Runs = CaptureRuns

  /** A client receipt covers the whole projection. */
  datatype ClientVault = ClientVault(store: Store, receipts: map<nat, Projection>)

  datatype Hooks = Hooks(journal: Journal, done: set<Job>, vault: ClientVault)

  /** existing_record */
  function Missing(s: Store, trusted: Trust, ref: Ref): Option<Error> {
    if ref.id !in s.records then Some(CaptureDependencyPending)
    else if s.records[ref.id].sha != ref.sha then Some(CaptureProjectionChanged)
    else if RankOf(s, trusted, ref.id) == 0 then Some(CaptureDependencyNotAdmitted)
    else None
  }

  function AnyMissing(s: Store, trusted: Trust, refs: seq<Ref>): Option<Error> {
    if refs == [] then None
    else
      var earlier := AnyMissing(s, trusted, refs[..|refs| - 1]);
      if earlier.Some? then earlier else Missing(s, trusted, refs[|refs| - 1])
  }

  /** The records of the plan: its own, or for a saved one those its references find. */
  function Hydrated(s: Store, p: Plan): seq<Record>
    requires p.records == [] ==> forall r :: r in p.refs ==> r.id in s.records
  {
    if p.records != [] then p.records
    else seq(|p.refs|, i requires 0 <= i < |p.refs| => s.records[p.refs[i].id])
  }

  lemma {:induction false} NoneMissing(s: Store, trusted: Trust, refs: seq<Ref>)
    ensures AnyMissing(s, trusted, refs).None? ==>
              forall r :: r in refs ==> r.id in s.records && s.records[r.id].sha == r.sha
  {
    if refs != [] {
      NoneMissing(s, trusted, refs[..|refs| - 1]);
    }
  }

  predicate PlainPair(h: Header, records: seq<Record>) {
    |records| == 2 && (h.profile != FRAGMENT_PROFILE ==>
      forall r :: r in records && r.id == h.episode ==> r.relations == [])
  }

  function PriorRefused(s: Store, trusted: Trust, h: Header): Option<Error> {
    if h.previous.None? then None
    else
      var ref := h.previous.value.continuity;
      if Missing(s, trusted, ref).Some? then Missing(s, trusted, ref)
      else if s.records[ref.id].kind != Continuity then Some(InvalidCapturePredecessor) else None
  }

  /** save_turn_projection: a saved plan's records are looked up again. */
  ghost function SaveProjection(v: ClientVault, trusted: Trust, sign: Option<Signer>, p: Plan): Result<ClientVault> {
    var h := p.header;
    if p.records == [] && !h.saved then Failure(InvalidCaptureProjection)
    else if p.records == [] && AnyMissing(v.store, trusted, p.refs).Some? then
      Failure(AnyMissing(v.store, trusted, p.refs).value)
    else
      NoneMissing(v.store, trusted, if p.records == [] then p.refs else []);
      SaveRecords(v, trusted, sign, p, Hydrated(v.store, p))
  }

  /** save_turn_projection, with the records in hand. */
  ghost function SaveRecords(v: ClientVault, trusted: Trust, sign: Option<Signer>, p: Plan,
                             records: seq<Record>): Result<ClientVault> {
    var h := p.header;
    if ProjectionRefused(h, records).Some? then Failure(ProjectionRefused(h, records).value)
    else if !PlainPair(h, records) then Failure(InvalidClientProjection)
    else if PriorRefused(v.store, trusted, h).Some? then Failure(PriorRefused(v.store, trusted, h).value)
    else if h.request in v.receipts then
      if v.receipts[h.request] != Digest(h, records) then Failure(RequestConflict)
      else if AnyMissing(v.store, trusted, RefsOf(records)).Some? then
        Failure(AnyMissing(v.store, trusted, RefsOf(records)).value)
      else if !HasRecords(v.store, records) then Failure(CaptureProjectionChanged)
      else Success(v)
    else if h.saved then Failure(CaptureReceiptMissing)
    else
      match StoreEach(v.store, trusted, sign, records, |records|)
      case Failure(e) => Failure(e)
      case Success(b) =>
        match Committed(Requeue(b.store, trusted, b.upgraded))
        case Failure(e) => Failure(e)
        case Success(t) => Success(ClientVault(t, v.receipts[h.request := Digest(h, records)]))
  }

  lemma SaveProjectionKeeps(v: ClientVault, trusted: Trust, sign: Option<Signer>, p: Plan)
    requires Valid(v.store) && SaveProjection(v, trusted, sign, p).Success?
    ensures var w := SaveProjection(v, trusted, sign, p).value;
      && Txn(v.store, w.store, trusted)
      && w.receipts == v.receipts[p.header.request := p.header.projection]
      && HasRecords(w.store, p.header.projection.records)
  {
    hide SaveRecords, AnyMissing;
    NoneMissing(v.store, trusted, if p.records == [] then p.refs else []);
    SaveRecordsKeeps(v, trusted, sign, p, Hydrated(v.store, p));
  }

  lemma SaveRecordsKeeps(v: ClientVault, trusted: Trust, sign: Option<Signer>, p: Plan, records: seq<Record>)
    requires Valid(v.store) && SaveRecords(v, trusted, sign, p, records).Success?
    ensures var w := SaveRecords(v, trusted, sign, p, records).value;
      && Txn(v.store, w.store, trusted)
      && w.receipts == v.receipts[p.header.request := p.header.projection]
      && HasRecords(w.store, p.header.projection.records)
  {
    hide Txn, Valid, Batching, StoreOne, NoDangling, Requeue, Missing, AnyMissing, PriorRefused, HeaderFits,
      TurnShape, FragmentShape, PlainPair;
    if p.header.request in v.receipts {
      Unchanged(v.store, trusted);
      assert v.receipts == v.receipts[p.header.request := Digest(p.header, records)];
    } else {
      Turns.StoreEachKeeps(v.store, trusted, sign, records, |records|);
      assert records[..|records|] == records;
      var b := StoreEach(v.store, trusted, sign, records, |records|).value;
      Turns.RequeueKeepsRecords(b.store, trusted, b.upgraded);
      BatchBecomesTxn(v.store, b, trusted);
    }
  }

  // ----- what always holds -----

  /** A filed receipt covers the plan's projection, and its records are in the vault. */
  ghost predicate Filed(v: ClientVault, h: Header) {
    h.request in v.receipts ==>
      v.receipts[h.request] == h.projection && HasRecords(v.store, h.projection.records)
  }

  ghost predicate AllFiled(x: Hooks) {
    forall job :: job in x.journal.jobs ==>
      var h := x.journal.jobs[job].header;
      && Filed(x.vault, h) && (job in x.done ==> h.request in x.vault.receipts) && (h.saved ==> job in x.done)
  }

  ghost predicate RequestsOwn(j: Journal) {
    forall a, b :: a in j.jobs && b in j.jobs && a != b ==> j.jobs[a].header.request != j.jobs[b].header.request
  }

  /** Saved plans are a prefix of their scope. */
  ghost predicate PrefixSaved(j: Journal) {
    forall job :: job in j.jobs ==>
      var h := j.jobs[job].header;
      h.saved && h.previous.Some? ==> h.previous.value.job in j.jobs && j.jobs[h.previous.value.job].header.saved
  }

  /** Saved or not, a plan answers for the records its projection covers. */
  ghost predicate AllFrozen(j: Journal) {
    forall job :: job in j.jobs ==> PlanFrozen(j.jobs[job])
  }

  ghost predicate HooksValid(x: Hooks) {
    && JournalValid(x.journal) && RequestsOwn(x.journal) && PrefixSaved(x.journal) && AllFrozen(x.journal)
    && Valid(x.vault.store) && AllFiled(x)
  }

  /** The vault and the done files only ever gain. */
  ghost predicate Gains(x: Hooks, y: Hooks) {
    && (forall id :: id in x.vault.store.records ==>
          id in y.vault.store.records && y.vault.store.records[id] == x.vault.store.records[id])
    && x.done <= y.done
    && (forall k :: k in x.vault.receipts ==> k in y.vault.receipts && y.vault.receipts[k] == x.vault.receipts[k])
  }

  lemma VaultCommitKeeps(x: Hooks, v: ClientVault, job: Job, trusted: Trust)
    requires HooksValid(x) && job in x.journal.jobs && Txn(x.vault.store, v.store, trusted)
    requires var h := x.journal.jobs[job].header;
      v.receipts == x.vault.receipts[h.request := h.projection] && HasRecords(v.store, h.projection.records)
    ensures HooksValid(x.(vault := v)) && HooksValid(x.(vault := v, done := x.done + {job}))
  {
    hide JournalValid, PrefixSaved, Valid, Announces, Unblocks;
    forall other | other in x.journal.jobs
      ensures Filed(v, x.journal.jobs[other].header)
    {
      var h := x.journal.jobs[other].header;
      assert Filed(x.vault, h);
      if h.request in x.vault.receipts {
        Turns.RecordsStay(x.vault.store, v.store, trusted, h.projection.records);
      }
    }
  }

  /** A pending plan with no pending plan before it in its scope. */
  ghost predicate Foremost(j: Journal, job: Job) {
    && job in j.jobs && !j.jobs[job].header.saved
    && forall other :: (other in j.jobs && j.jobs[other].header.scope == j.jobs[job].header.scope
                        && j.jobs[other].header.sequence < j.jobs[job].header.sequence) ==> j.jobs[other].header.saved
  }

  lemma MarkKeeps(x: Hooks, job: Job)
    requires HooksValid(x) && job in x.done && MarkSaved(x.journal, job).Success?
    requires Foremost(x.journal, job) || (job in x.journal.jobs && x.journal.jobs[job].header.saved)
    ensures HooksValid(x.(journal := MarkSaved(x.journal, job).value))
  {
    var j, k := x.journal, MarkSaved(x.journal, job).value;
    Runs.SavedKeeps(j, job);
    assert Linked(j, job);
    MarkedEntry(j, job);
    hide JournalValid, Valid, LoadEntry, HasRecords, RowRefs, MarkSaved, AllFrozen;
    MarkStays(x, k, job);
    MarkFrozen(j, k, job);
    hide RequestsOwn, PrefixSaved, AllFiled;
  }

  lemma MarkFrozen(j: Journal, k: Journal, job: Job)
    requires AllFrozen(j) && job in j.jobs
    requires var e := j.jobs[job]; k.jobs == j.jobs[job := Entry(e.header.(saved := true), Cleared(e.rows))]
    ensures AllFrozen(k)
  {
    hide PlanFrozen;
    Turns.ClearedFrozen(j.jobs[job]);
  }

  lemma MarkedEntry(j: Journal, job: Job)
    requires MarkSaved(j, job).Success?
    ensures job in j.jobs
    ensures MarkSaved(j, job).value.jobs
            == j.jobs[job := Entry(j.jobs[job].header.(saved := true), Cleared(j.jobs[job].rows))]
  {
    hide LoadEntry;
  }

  lemma MarkStays(x: Hooks, k: Journal, job: Job)
    requires RequestsOwn(x.journal) && PrefixSaved(x.journal) && AllFiled(x) && job in x.done && job in x.journal.jobs
    requires var e := x.journal.jobs[job];
      k.jobs == x.journal.jobs[job := Entry(e.header.(saved := true), Cleared(e.rows))]
    requires Foremost(x.journal, job) || x.journal.jobs[job].header.saved
    requires Linked(x.journal, job)
    ensures RequestsOwn(k) && PrefixSaved(k) && AllFiled(x.(journal := k))
  {
    hide HasRecords, RowRefs;
    var h := x.journal.jobs[job].header;
    assert Filed(x.vault, h) ==> Filed(x.vault, h.(saved := true));
  }

  /** Losing the journal transaction after vault commits and done files: the older journal
      still fits what is stored. */
  lemma RollbackKeeps(start: Hooks, x: Hooks)
    requires HooksValid(start) && HooksValid(x) && SameHeaders(start.journal, x.journal) && start.done <= x.done
    ensures HooksValid(x.(journal := start.journal))
  {
    hide JournalValid, Valid, HasRecords;
  }

  ghost predicate SameHeaders(j: Journal, k: Journal) {
    && j.jobs.Keys == k.jobs.Keys
    && forall job :: job in j.jobs ==>
         k.jobs[job].header == j.jobs[job].header || k.jobs[job].header == j.jobs[job].header.(saved := true)
  }

  /** The pending plans the drain may take. */
  function PendingUpTo(j: Journal, target: Job): set<Job> {
    set job | job in j.jobs && target in j.jobs && !j.jobs[job].header.saved
      && j.jobs[job].header.scope == j.jobs[target].header.scope
      && j.jobs[job].header.sequence <= j.jobs[target].header.sequence
  }

  ghost predicate OthersKept(j: Journal, k: Journal, target: Job) {
    && k.jobs.Keys == j.jobs.Keys
    && forall job :: job in j.jobs && job !in PendingUpTo(j, target) ==>
         k.jobs[job].header.saved == j.jobs[job].header.saved
  }

  /** ORDER BY accepted_sequence LIMIT 1 */
  function NextUp(j: Journal, target: Job): (job: Job)
    requires target in j.jobs && !j.jobs[target].header.saved
    ensures job in PendingUpTo(j, target)
    ensures forall other :: other in PendingUpTo(j, target) ==>
              j.jobs[job].header.sequence <= j.jobs[other].header.sequence
  {
    var some := PendingUpTo(j, target);
    var sequences := set job | job in some :: j.jobs[job].header.sequence;
    assert target in some && j.jobs[target].header.sequence in sequences;
    var least := MinOf(sequences);
    var same := set job | job in some && j.jobs[job].header.sequence == least;
    assert forall other :: other in some ==> j.jobs[other].header.sequence in sequences;
    assert same != {} by {
      var job :| job in some && j.jobs[job].header.sequence == least;
      assert job in same;
    }
    MinOf(same)
  }

  lemma NextIsForemost(j: Journal, target: Job)
    requires target in j.jobs && !j.jobs[target].header.saved
    ensures Foremost(j, NextUp(j, target))
  {
  }

  lemma NextIsPending(j: Journal, k: Journal, target: Job)
    requires SameHeaders(j, k) && target in k.jobs && !k.jobs[target].header.saved
    ensures NextUp(k, target) in PendingUpTo(j, target)
  {
  }

  lemma MarkedOthers(j: Journal, w: Journal, k: Journal, target: Job, job: Job)
    requires OthersKept(j, w, target) && MarkSaved(w, job) == Success(k) && job in PendingUpTo(j, target)
    ensures OthersKept(j, k, target)
    ensures job in k.jobs && k.jobs[job].header.saved
    ensures target in w.jobs && job != target ==> k.jobs[target].header == w.jobs[target].header
  {
    hide LoadEntry;
  }

  lemma ResavedHeaders(j: Journal, k: Journal, target: Job)
    requires target in j.jobs && j.jobs[target].header.saved
    requires k == j || MarkSaved(j, target) == Success(k)
    ensures OthersKept(j, k, target) && k.jobs[target].header.saved
  {
    hide LoadEntry;
  }

  lemma MarkedHeaders(j: Journal, k: Journal, job: Job)
    requires SameHeaders(j, k) && MarkSaved(k, job).Success?
    ensures SameHeaders(j, MarkSaved(k, job).value)
  {
    hide LoadEntry;
  }

  lemma NoGain(x: Hooks)
    ensures Gains(x, x)
  {
  }

  lemma LoadedPlan(x: Hooks, job: Job)
    requires HooksValid(x) && job in x.journal.jobs
    ensures LoadEntry(x.journal.jobs[job]).Success? && MarkSaved(x.journal, job).Success?
    ensures LoadEntry(x.journal.jobs[job]).value.header == x.journal.jobs[job].header
  {
    LoadNames(x.journal.jobs[job]);
    hide LoadEntry, RequestsOwn, PrefixSaved, Valid, AllFiled, WithinLimits, AllLinked, HeadsAtTips, UniqueSequences;
  }

  /** A saved projection keeps both views, before and after the done file. */
  lemma SaveKeeps(x: Hooks, before: Hooks, trusted: Trust, sign: Option<Signer>, job: Job, p: Plan)
    requires HooksValid(x) && HooksValid(before) && before.vault == x.vault && before.done == x.done
    requires job in x.journal.jobs && p.header == x.journal.jobs[job].header
    requires SameHeaders(before.journal, x.journal)
    ensures SaveProjection(x.vault, trusted, sign, p).Success? ==>
      var v := SaveProjection(x.vault, trusted, sign, p).value;
      && HooksValid(x.(vault := v)) && HooksValid(x.(vault := v, done := x.done + {job}))
      && HooksValid(before.(vault := v)) && HooksValid(before.(vault := v, done := x.done + {job}))
      && Gains(x, x.(vault := v)) && Gains(x, x.(vault := v, done := x.done + {job}))
  {
    if SaveProjection(x.vault, trusted, sign, p).Success? {
      SaveProjectionKeeps(x.vault, trusted, sign, p);
      var v := SaveProjection(x.vault, trusted, sign, p).value;
      SaveGains(x, v, job, trusted);
      VaultCommitKeeps(x, v, job, trusted);
      OtherView(before, x, job);
      VaultCommitKeeps(before, v, job, trusted);
      hide SaveProjection, HooksValid, Gains, SameHeaders;
    }
  }

  lemma OtherView(before: Hooks, x: Hooks, job: Job)
    requires SameHeaders(before.journal, x.journal) && job in x.journal.jobs
    ensures job in before.journal.jobs
    ensures before.journal.jobs[job].header.request == x.journal.jobs[job].header.request
    ensures before.journal.jobs[job].header.projection == x.journal.jobs[job].header.projection
  {
  }

  lemma SaveGains(x: Hooks, v: ClientVault, job: Job, trusted: Trust)
    requires AllFiled(x) && job in x.journal.jobs && Txn(x.vault.store, v.store, trusted)
    requires var h := x.journal.jobs[job].header; v.receipts == x.vault.receipts[h.request := h.projection]
    ensures Gains(x, x.(vault := v)) && Gains(x, x.(vault := v, done := x.done + {job}))
  {
    hide HasRecords, Valid, Announces, Unblocks;
    assert Filed(x.vault, x.journal.jobs[job].header);
  }

  lemma GainsMore(x: Hooks, y: Hooks, z: Hooks)
    requires Gains(x, y) && Gains(y, z)
    ensures Gains(x, z)
  {
  }

  /** A job seen before, or one with a request and a done file nobody has used. */
  ghost predicate Unused(x: Hooks, ask: Ask) {
    || ask.job in x.journal.jobs
    || (ask.request !in x.vault.receipts && ask.job !in x.done
        && forall job :: job in x.journal.jobs ==> x.journal.jobs[job].header.request != ask.request)
  }

  /** Freezing an event under an unused request keeps everything; a repeat changes nothing. */
  lemma FreezeKeepsHooks(x: Hooks, ask: Ask, now: nat, build: Builder)
    requires HooksValid(x) && Freeze(x.journal, ask, now, build).Success?
    requires Unused(x, ask)
    ensures HooksValid(x.(journal := Freeze(x.journal, ask, now, build).value.journal))
  {
    hide Freeze, LoadEntry, JournalValid, Valid, HasRecords, Runs.NamesHead, Runs.Fits, PlanFrozen, RequestsOwn;
    var k := Freeze(x.journal, ask, now, build).value.journal;
    Runs.FreezeKeeps(x.journal, ask, now, build);
    assert Loads(x.journal) by { Turns.ValidLoads(x.journal); }
    if ask.job !in x.journal.jobs {
      Runs.FreezeAccepts(x.journal, ask, now, build);
      Runs.FreshHolds(x.journal, ask, now, build);
      var f := Freeze(x.journal, ask, now, build).value;
      var h, rows := f.plan.header, Runs.RowsOf(f, ask.job);
      LoadNames(Entry(h, rows));
      Turns.UnsavedIsWhole(Entry(h, rows));
      FrozenStays(x, k, h, rows);
    }
  }

  lemma FrozenStays(x: Hooks, k: Journal, h: Header, rows: seq<Row>)
    requires RequestsOwn(x.journal) && PrefixSaved(x.journal) && AllFiled(x)
    requires h.job !in x.journal.jobs && k.jobs == x.journal.jobs[h.job := Entry(h, rows)] && !h.saved
    requires h.request !in x.vault.receipts && h.job !in x.done
    requires forall job :: job in x.journal.jobs ==> x.journal.jobs[job].header.request != h.request
    ensures RequestsOwn(k) && PrefixSaved(k) && AllFiled(x.(journal := k))
  {
    hide HasRecords;
  }

  // ----- when a projection is accepted -----

  lemma PriorIs(x: Hooks, trusted: Trust, job: Job)
    requires HooksValid(x) && job in x.journal.jobs
    requires Foremost(x.journal, job) || x.journal.jobs[job].header.saved
    ensures var h := x.journal.jobs[job].header;
      PriorRefused(x.vault.store, trusted, h)
      == if Turns.PriorShown(x.vault.store, trusted, h) then None else Some(CaptureDependencyNotAdmitted)
  {
    hide HooksValid, Foremost, RowRefs, RankOf, PlanFrozen, Filed;
    var h := x.journal.jobs[job].header;
    if h.previous.Some? {
      PriorSaved(x, job);
      var q := x.journal.jobs[h.previous.value.job];
      var ref := h.previous.value.continuity;
      Turns.FrozenContinuity(q, ref);
      PriorRecord(x.vault, q, ref);
    }
  }

  /** The plan before a saved one, or before the foremost pending one, is saved and filed. */
  lemma PriorSaved(x: Hooks, job: Job)
    requires HooksValid(x) && job in x.journal.jobs && x.journal.jobs[job].header.previous.Some?
    requires Foremost(x.journal, job) || x.journal.jobs[job].header.saved
    ensures var previous := x.journal.jobs[job].header.previous.value;
      && previous.job in x.journal.jobs
      && var q := x.journal.jobs[previous.job];
        && q.header.saved && q.header.continuity == previous.continuity.id && previous.continuity in RowRefs(q.rows)
        && PlanFrozen(q) && Filed(x.vault, q.header) && q.header.request in x.vault.receipts
  {
    assert Linked(x.journal, job);
    hide Loads, WithinLimits, HeadsAtTips, UniqueSequences, RequestsOwn, Valid, RowRefs, PlanFrozen, HasRecords;
    var q := x.journal.jobs[x.journal.jobs[job].header.previous.value.job];
    assert q.header.saved;
  }

  lemma PriorRecord(v: ClientVault, q: Entry, ref: Ref)
    requires Filed(v, q.header) && q.header.request in v.receipts
    requires exists r :: r in q.header.projection.records && RefOf(r) == ref && r.kind == Continuity
    ensures ref.id in v.store.records && v.store.records[ref.id].sha == ref.sha
    ensures v.store.records[ref.id].kind == Continuity
  {
  }

  /** The references of stored records are missing only where one is not shown. */
  lemma {:induction false} StoredRefs(s: Store, trusted: Trust, records: seq<Record>, refs: seq<Ref>)
    requires HasRecords(s, records) && forall ref :: ref in refs ==> ref in RefsOf(records)
    ensures AnyMissing(s, trusted, refs)
            == if forall ref :: ref in refs ==> RankOf(s, trusted, ref.id) > 0 then None
               else Some(CaptureDependencyNotAdmitted)
  {
    hide RankOf, RefsOf;
    if refs != [] {
      var init, last := refs[..|refs| - 1], refs[|refs| - 1];
      assert forall ref :: ref in refs <==> ref in init || ref == last by { assert refs == init + [last]; }
      StoredRefs(s, trusted, records, init);
      StoredRef(s, trusted, records, last);
      hide Missing, HasRecords;
    }
  }

  lemma StoredRef(s: Store, trusted: Trust, records: seq<Record>, ref: Ref)
    requires HasRecords(s, records) && ref in RefsOf(records)
    ensures Missing(s, trusted, ref)
            == if RankOf(s, trusted, ref.id) > 0 then None else Some(CaptureDependencyNotAdmitted)
  {
    hide RankOf;
    var i :| 0 <= i < |RefsOf(records)| && RefsOf(records)[i] == ref;
    assert records[i] in records;
  }

  /** The plan of a job, as the journal loads it, is its projection or, once cleared, finds it again. */
  lemma LoadedIs(x: Hooks, job: Job, p: Plan)
    requires HooksValid(x) && job in x.journal.jobs && LoadEntry(x.journal.jobs[job]) == Success(p)
    ensures p.header == x.journal.jobs[job].header && p.refs == RefsOf(p.header.projection.records)
    ensures p.records == [] || p.records == p.header.projection.records
    ensures !p.header.saved ==> p.records != []
    ensures ProjectionRefused(p.header, p.header.projection.records).None? && Filed(x.vault, p.header)
  {
    hide JournalValid, RequestsOwn, PrefixSaved, Valid, RowRefs, RefsOf, Filed, LoadEntry, ProjectionRefused;
    var e := x.journal.jobs[job];
    EntryIs(e, p);
    assert PlanFrozen(e);
  }

  lemma EntryIs(e: Entry, p: Plan)
    requires LoadEntry(e) == Success(p)
    ensures p.header == e.header && p.refs == RowRefs(e.rows)
    ensures p.records == [] || p.records == p.header.projection.records
    ensures !p.header.saved ==> p.records != []
  {
    LoadNames(e);
    if !e.header.saved {
      Turns.UnsavedIsWhole(e);
    }
    hide HeaderFits, TurnShape, FragmentShape, RowsRefused, RowRefs;
  }

  /** A filed projection of two plain records is accepted again, with nothing stored, exactly while its
      records and the one it continues are shown; otherwise it is refused as not admitted. */
  lemma FiledProjection(x: Hooks, trusted: Trust, sign: Option<Signer>, job: Job, p: Plan)
    requires HooksValid(x) && job in x.journal.jobs && LoadEntry(x.journal.jobs[job]) == Success(p)
    requires Foremost(x.journal, job) || p.header.saved
    requires p.header.request in x.vault.receipts && PlainPair(p.header, p.header.projection.records)
    ensures SaveProjection(x.vault, trusted, sign, p)
            == if Turns.AllShown(x.vault.store, trusted, p) then Success(x.vault)
               else Failure(CaptureDependencyNotAdmitted)
  {
    hide HooksValid, Foremost, LoadEntry, ProjectionRefused, PlainPair, PriorRefused, RankOf, AnyMissing, RefsOf,
      HasRecords;
    LoadedIs(x, job, p);
    PriorIs(x, trusted, job);
    var records := p.header.projection.records;
    DigestIs(p.header, records);
    StoredRefs(x.vault.store, trusted, records, p.refs);
    if p.records == [] && AnyMissing(x.vault.store, trusted, p.refs).None? {
      HydratedIs(x.vault.store, p, records);
    }
  }

  lemma DigestIs(h: Header, records: seq<Record>)
    requires ProjectionRefused(h, records).None?
    ensures Digest(h, records) == h.projection
  {
    hide HeaderFits, TurnShape, FragmentShape;
  }

  lemma HydratedIs(s: Store, p: Plan, records: seq<Record>)
    requires HasRecords(s, records) && p.refs == RefsOf(records) && p.records == []
    ensures forall r :: r in p.refs ==> r.id in s.records
    ensures Hydrated(s, p) == records
  {
    forall i | 0 <= i < |p.refs|
      ensures p.refs[i].id in s.records && s.records[p.refs[i].id] == records[i]
    {
      assert records[i] in records;
    }
  }

  /** A projection with no receipt yet is accepted exactly when it is a plain pair, the record it
      continues is shown, and each of its records can be taken in turn. */
  lemma NewProjection(x: Hooks, trusted: Trust, sign: Option<Signer>, job: Job, p: Plan)
    requires HooksValid(x) && Foremost(x.journal, job) && LoadEntry(x.journal.jobs[job]) == Success(p)
    requires p.header.request !in x.vault.receipts
    ensures SaveProjection(x.vault, trusted, sign, p).Success? <==>
              && PlainPair(p.header, p.records) && Turns.PriorShown(x.vault.store, trusted, p.header)
              && forall j :: 0 <= j < |p.records| ==> Turns.Storable(x.vault.store, trusted, sign, p.records, j)
  {
    LoadedIs(x, job, p);
    PriorIs(x, trusted, job);
    ShapeIsDistinct(p.header, p.records);
    hide LoadEntry, ProjectionRefused, PlainPair, PriorRefused, RankOf, JournalValid, RequestsOwn, PrefixSaved,
      AllFrozen, AllFiled, Valid, Foremost, Turns.PriorShown, Turns.Storable, StoreEach, Requeue, NoDangling;
    NewRecords(x.vault.store, trusted, sign, p.records);
  }

  lemma ShapeIsDistinct(h: Header, records: seq<Record>)
    requires ProjectionRefused(h, records).None?
    ensures DistinctIds(records)
  {
    hide Ids, SameEdges;
  }

  lemma NewRecords(s: Store, trusted: Trust, sign: Option<Signer>, records: seq<Record>)
    requires Valid(s) && DistinctIds(records)
    ensures var b := StoreEach(s, trusted, sign, records, |records|);
      && (b.Success? <==> forall j :: 0 <= j < |records| ==> Turns.Storable(s, trusted, sign, records, j))
      && (b.Success? ==> Committed(Requeue(b.value.store, trusted, b.value.upgraded)).Success?)
  {
    hide Valid, DistinctIds, StoreEach, Turns.Storable, Turns.Storing, Requeue, NoDangling, Batching;
    Turns.StoreEachTakes(s, trusted, sign, records, |records|);
    var b := StoreEach(s, trusted, sign, records, |records|);
    if b.Success? {
      assert records[..|records|] == records;
      Turns.StoreEachKeeps(s, trusted, sign, records, |records|);
      Turns.StoredWhole(s, b.value.store, trusted, sign, records);
      Turns.RequeueKeepsRecords(b.value.store, trusted, b.value.upgraded);
    }
  }
}
