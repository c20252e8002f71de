/** What every run of freezing and saving keeps, and the journal object that runs it. */
module CaptureRuns {
  import opened Wrappers
  import opened Sorting
  import opened VaultStore
  import opened CapturePlans

  // ----- rows -----

  lemma {:induction false} StagedBodies(records: seq<Record>)
    ensures Bodies(Staged(records)) == records && BodyBytes(Staged(records)) == RecordBytes(records)
  {
    if records != [] {
      var init := records[..|records| - 1];
      StagedBodies(init);
      assert Staged(records)[..|records| - 1] == Staged(init);
    }
  }

  lemma {:induction false} BareRows(rows: seq<Row>)
    ensures Bodies(Cleared(rows)) == [] && RowsRefused(Cleared(rows), true).None? && BodyBytes(Cleared(rows)) == 0
    ensures RowRefs(Cleared(rows)) == RowRefs(rows)
  {
    if rows != [] {
      var init := rows[..|rows| - 1];
      BareRows(init);
      assert Cleared(rows)[..|rows| - 1] == Cleared(init);
    }
  }

  lemma ClearedLoads(e: Entry)
    requires LoadEntry(e).Success?
    ensures LoadEntry(Entry(e.header.(saved := true), Cleared(e.rows)))
            == Success(Plan(e.header.(saved := true), [], RowRefs(e.rows)))
  {
    BareRows(e.rows);
  }

  // ----- occupied bytes -----

  lemma {:induction false} OccupiedAgrees(a: map<Job, Entry>, b: map<Job, Entry>, some: set<Job>)
    requires some <= a.Keys && some <= b.Keys && forall job :: job in some ==> a[job].rows == b[job].rows
    ensures Occupied(a, some) == Occupied(b, some)
  {
    if some != {} {
      OccupiedAgrees(a, b, some - {MinOf(some)});
    }
  }

  lemma {:induction false} OccupiedPlus(jobs: map<Job, Entry>, some: set<Job>, job: Job)
    requires some <= jobs.Keys && job in jobs && job !in some
    ensures Occupied(jobs, some + {job}) == Occupied(jobs, some) + BodyBytes(jobs[job].rows)
    decreases |some|
  {
    var all := some + {job};
    var m := MinOf(all);
    if m == job {
      assert all - {m} == some;
    } else {
      var rest := some - {m};
      assert all - {m} == rest + {job};
      OccupiedPlus(jobs, rest, job);
      assert MinOf(some) == m;
    }
  }

  // ----- freezing -----

  /** Accepted: a new entry under a new job, one past its scope's head. */
  ghost predicate Accepted(j: Journal, k: Journal, h: Header, rows: seq<Row>) {
    && h.job !in j.jobs && k.jobs == j.jobs[h.job := Entry(h, rows)]
    && k.heads == j.heads[h.scope := Head(h.sequence, h.job)] && !h.saved
    && h.sequence == NextSequence(j, h.scope) && LoadEntry(Entry(h, rows)).Success?
    && (h.previous.None? ==> h.scope !in j.heads)
    && (h.previous.Some? ==> h.scope in j.heads && h.previous.value.job == j.heads[h.scope].job)
  }

  /** The new plan names the head's continuity record. */
  ghost predicate NamesHead(j: Journal, h: Header) {
    h.previous.Some? ==>
      var p := h.previous.value;
      p.job in j.jobs && j.jobs[p.job].header.continuity == p.continuity.id
      && p.continuity in RowRefs(j.jobs[p.job].rows)
  }

  ghost predicate Fits(j: Journal, rows: seq<Row>) {
    && |j.jobs| < MAX_JOBS && |PendingJobs(j)| < MAX_PENDING
    && Occupied(j.jobs, PendingJobs(j)) + BodyBytes(rows) <= MAX_PENDING_BYTES
  }

  /** A plan not there before is accepted as drafted, within the limits. */
  lemma FreezeIsAccept(j: Journal, ask: Ask, now: nat, build: Builder)
    requires Freeze(j, ask, now, build).Success? && ask.job !in j.jobs
    ensures Parent(j, ask.scope).Success?
    ensures var d := DraftOf(j, ask, now, build, Parent(j, ask.scope).value);
      && Freeze(j, ask, now, build) == Accept(j, d.header, d.records)
      && |j.jobs| < MAX_JOBS && |PendingJobs(j)| < MAX_PENDING
      && Occupied(j.jobs, PendingJobs(j)) + RecordBytes(d.records) <= MAX_PENDING_BYTES
  {
    hide Parent, DraftOf, Accept, PendingJobs, Occupied, RecordBytes, SameAsk;
  }

  lemma DraftIs(j: Journal, ask: Ask, now: nat, build: Builder, previous: Option<Previous>)
    ensures var h := DraftOf(j, ask, now, build, previous).header;
      && h.job == ask.job && h.scope == ask.scope && h.input == ask.input && h.profile == ask.profile
      && h.request == ask.request && (ask.created.Some? ==> h.created == ask.created.value)
      && h.previous == previous && h.sequence == NextSequence(j, ask.scope) && !h.saved
  {
    hide NextSequence, Digest;
  }

  lemma AcceptIs(j: Journal, h: Header, records: seq<Record>)
    requires Accept(j, h, records).Success?
    ensures var f := Accept(j, h, records).value;
      && f.journal.jobs == j.jobs[h.job := Entry(h, Staged(records))]
      && f.journal.heads == j.heads[h.scope := Head(h.sequence, h.job)]
      && LoadEntry(Entry(h, Staged(records))) == Success(f.plan)
  {
    hide LoadEntry, ProjectionRefused, Staged;
  }

  /** The rows an accepted plan is stored with. */
  function RowsOf(f: Frozen, job: Job): seq<Row> {
    if job in f.journal.jobs then f.journal.jobs[job].rows else []
  }

  /** Where the new plan stands in the journal. */
  lemma FreezeEnters(j: Journal, ask: Ask, now: nat, build: Builder)
    requires Freeze(j, ask, now, build).Success? && ask.job !in j.jobs
    ensures Parent(j, ask.scope).Success?
    ensures var f := Freeze(j, ask, now, build).value;
      var h := f.plan.header;
      && h == DraftOf(j, ask, now, build, Parent(j, ask.scope).value).header
      && f.journal.jobs == j.jobs[ask.job := Entry(h, RowsOf(f, ask.job))]
      && f.journal.heads == j.heads[ask.scope := Head(h.sequence, ask.job)]
      && LoadEntry(Entry(h, RowsOf(f, ask.job))) == Success(f.plan)
      && RowsOf(f, ask.job) == Staged(DraftOf(j, ask, now, build, Parent(j, ask.scope).value).records)
  {
    hide Freeze, Accept, DraftOf, LoadEntry, Staged, Parent;
    FreezeIsAccept(j, ask, now, build);
    var d := DraftOf(j, ask, now, build, Parent(j, ask.scope).value);
    DraftIs(j, ask, now, build, Parent(j, ask.scope).value);
    AcceptIs(j, d.header, d.records);
    LoadNames(Entry(d.header, Staged(d.records)));
  }

  lemma FreezeFits(j: Journal, ask: Ask, now: nat, build: Builder)
    requires Freeze(j, ask, now, build).Success? && ask.job !in j.jobs
    ensures Fits(j, RowsOf(Freeze(j, ask, now, build).value, ask.job))
  {
    hide Freeze, Accept, DraftOf, LoadEntry, Staged, Parent, Occupied, PendingJobs, RecordBytes, BodyBytes, RowsOf;
    FreezeIsAccept(j, ask, now, build);
    FreezeEnters(j, ask, now, build);
    StagedBodies(DraftOf(j, ask, now, build, Parent(j, ask.scope).value).records);
  }

  /** A new plan enters under its own job, one past the head it names, within the limits. */
  lemma FreezeAccepts(j: Journal, ask: Ask, now: nat, build: Builder)
    requires JournalValid(j) && Freeze(j, ask, now, build).Success? && ask.job !in j.jobs
    ensures var f := Freeze(j, ask, now, build).value;
      && f.plan.header.job == ask.job && Accepted(j, f.journal, f.plan.header, RowsOf(f, ask.job))
      && NamesHead(j, f.plan.header) && Fits(j, RowsOf(f, ask.job))
      && LoadEntry(Entry(f.plan.header, RowsOf(f, ask.job))) == Success(f.plan)
  {
    hide Freeze, DraftOf, LoadEntry, Staged, Parent, JournalValid, RowRefs, Fits, RowsOf;
    ParentNamed(j, ask.scope);
    FreezeEnters(j, ask, now, build);
    DraftIs(j, ask, now, build, Parent(j, ask.scope).value);
    FreezeFits(j, ask, now, build);
  }

  lemma ParentNamed(j: Journal, scope: Scope)
    requires JournalValid(j)
    ensures match Parent(j, scope)
      case Failure(_) => true
      case Success(None) => scope !in j.heads
      case Success(Some(p)) =>
        scope in j.heads && p.job == j.heads[scope].job && p.job in j.jobs
        && j.jobs[p.job].header.continuity == p.continuity.id && p.continuity in RowRefs(j.jobs[p.job].rows)
  {
    hide LoadEntry, WithinLimits, AllLinked, UniqueSequences, HeadsAtTips;
    if scope in j.heads && j.heads[scope].job in j.jobs && LoadEntry(j.jobs[j.heads[scope].job]).Success? {
      LoadNames(j.jobs[j.heads[scope].job]);
    }
  }

  lemma AcceptKeeps(j: Journal, k: Journal, h: Header, rows: seq<Row>)
    requires JournalValid(j) && Accepted(j, k, h, rows) && NamesHead(j, h) && Fits(j, rows)
    ensures JournalValid(k)
  {
    AcceptLoads(j, k, h, rows);
    AcceptLimits(j, k, h, rows);
    AcceptLinks(j, k, h, rows);
    AcceptHeads(j, k, h, rows);
    hide Loads, WithinLimits, AllLinked, HeadsAtTips, UniqueSequences;
    assert StateFits(k);
  }

  lemma AcceptLoads(j: Journal, k: Journal, h: Header, rows: seq<Row>)
    requires Loads(j) && Accepted(j, k, h, rows)
    ensures Loads(k)
  {
    hide LoadEntry;
  }

  lemma AcceptLimits(j: Journal, k: Journal, h: Header, rows: seq<Row>)
    requires Accepted(j, k, h, rows) && Fits(j, rows)
    ensures WithinLimits(k)
  {
    hide LoadEntry;
    assert PendingJobs(k) == PendingJobs(j) + {h.job};
    OccupiedPlus(k.jobs, PendingJobs(j), h.job);
    OccupiedAgrees(j.jobs, k.jobs, PendingJobs(j));
    assert k.jobs.Keys == j.jobs.Keys + {h.job};
  }

  lemma AcceptLinks(j: Journal, k: Journal, h: Header, rows: seq<Row>)
    requires AllLinked(j) && HeadsAtTips(j) && Accepted(j, k, h, rows) && NamesHead(j, h)
    ensures AllLinked(k)
  {
    hide LoadEntry, RowRefs;
    forall job | job in k.jobs
      ensures Linked(k, job)
    {
      if job != h.job {
        assert Linked(j, job);
      }
    }
  }

  lemma AcceptHeads(j: Journal, k: Journal, h: Header, rows: seq<Row>)
    requires HeadsAtTips(j) && UniqueSequences(j) && Accepted(j, k, h, rows)
    ensures HeadsAtTips(k) && UniqueSequences(k)
  {
    hide LoadEntry;
    forall scope | scope in k.heads
      ensures AtTip(k, scope)
    {
      if scope != h.scope {
        assert AtTip(j, scope);
      }
    }
    AcceptUnique(j, k, h, rows);
    hide UniqueSequences;
  }

  lemma AcceptUnique(j: Journal, k: Journal, h: Header, rows: seq<Row>)
    requires HeadsAtTips(j) && UniqueSequences(j) && Accepted(j, k, h, rows)
    ensures UniqueSequences(k)
  {
    hide LoadEntry, AtTip;
  }

  /** Accepting a plan keeps the journal valid; an exact retry does not even touch it. */
  lemma FreezeKeeps(j: Journal, ask: Ask, now: nat, build: Builder)
    requires JournalValid(j) && Freeze(j, ask, now, build).Success?
    ensures JournalValid(Freeze(j, ask, now, build).value.journal)
    ensures ask.job in j.jobs ==> Freeze(j, ask, now, build).value.journal == j
  {
    hide JournalValid, LoadEntry, Accepted, NamesHead, Fits, DraftOf, Accept, RowsOf;
    if ask.job !in j.jobs {
      FreezeAccepts(j, ask, now, build);
      var f := Freeze(j, ask, now, build).value;
      AcceptKeeps(j, f.journal, f.plan.header, RowsOf(f, ask.job));
    }
  }

  // ----- saving -----

  ghost predicate Saves(j: Journal, k: Journal, job: Job) {
    && job in j.jobs && k.heads == j.heads
    && k.jobs == j.jobs[job := Entry(j.jobs[job].header.(saved := true), Cleared(j.jobs[job].rows))]
  }

  lemma SavedKeeps(j: Journal, job: Job)
    requires JournalValid(j) && MarkSaved(j, job).Success?
    ensures JournalValid(MarkSaved(j, job).value)
  {
    var k := MarkSaved(j, job).value;
    SavedLoads(j, job);
    SavedLimits(j, k, job);
    SavedLinks(j, k, job);
    SavedHeads(j, k, job);
    hide Loads, WithinLimits, AllLinked, HeadsAtTips, UniqueSequences;
    assert StateFits(k);
  }

  lemma SavedLoads(j: Journal, job: Job)
    requires Loads(j) && MarkSaved(j, job).Success?
    ensures Saves(j, MarkSaved(j, job).value, job) && Loads(MarkSaved(j, job).value)
  {
    ClearedLoads(j.jobs[job]);
    hide LoadEntry;
  }

  lemma SavedLimits(j: Journal, k: Journal, job: Job)
    requires WithinLimits(j) && Saves(j, k, job)
    ensures WithinLimits(k)
  {
    hide Occupied, PendingJobs;
    assert k.jobs.Keys == j.jobs.Keys;
    SavedPending(j, k, job);
    LessOccupied(j.jobs, k.jobs, PendingJobs(j), job);
  }

  lemma SavedPending(j: Journal, k: Journal, job: Job)
    requires Saves(j, k, job)
    ensures PendingJobs(k) == PendingJobs(j) - {job}
    ensures forall other :: other in PendingJobs(k) ==> k.jobs[other] == j.jobs[other]
  {
    hide Cleared;
  }

  lemma LessOccupied(a: map<Job, Entry>, b: map<Job, Entry>, some: set<Job>, job: Job)
    requires some <= a.Keys && some - {job} <= b.Keys && job in a
    requires forall other :: other in some - {job} ==> b[other] == a[other]
    ensures Occupied(b, some - {job}) <= Occupied(a, some)
  {
    hide Occupied, BodyBytes;
    OccupiedAgrees(a, b, some - {job});
    if job in some {
      OccupiedPlus(a, some - {job}, job);
      assert some - {job} + {job} == some;
    } else {
      assert some - {job} == some;
    }
  }

  lemma SavedLinks(j: Journal, k: Journal, job: Job)
    requires AllLinked(j) && Saves(j, k, job)
    ensures AllLinked(k)
  {
    BareRows(j.jobs[job].rows);
    hide RowRefs;
    forall other | other in k.jobs
      ensures Linked(k, other)
    {
      assert Linked(j, other);
    }
  }

  lemma SavedHeads(j: Journal, k: Journal, job: Job)
    requires HeadsAtTips(j) && UniqueSequences(j) && Saves(j, k, job)
    ensures HeadsAtTips(k) && UniqueSequences(k)
  {
    forall scope | scope in k.heads
      ensures AtTip(k, scope)
    {
      assert AtTip(j, scope);
    }
  }

  // ----- each scope holds 1 to n -----

  ghost predicate At(j: Journal, job: Job, scope: Scope, sequence: nat) {
    job in j.jobs && j.jobs[job].header.scope == scope && j.jobs[job].header.sequence == sequence
  }

  lemma {:induction false} ChainHasEach(j: Journal, scope: Scope, k: nat)
    requires AllLinked(j) && scope in j.heads && AtTip(j, scope) && 1 <= k <= j.heads[scope].sequence
    ensures exists job :: At(j, job, scope, k)
    decreases j.heads[scope].sequence - k
  {
    hide RowRefs;
    if k == j.heads[scope].sequence {
      assert At(j, j.heads[scope].job, scope, k);
    } else {
      ChainHasEach(j, scope, k + 1);
      var next :| At(j, next, scope, k + 1);
      assert Linked(j, next);
      assert At(j, j.jobs[next].header.previous.value.job, scope, k);
    }
  }

  /** The plans of a scope are numbered 1 to n without a gap or a repeat, each naming the one
      before it by job, continuity record and hash; the head is the last. */
  lemma ChainIsWhole(j: Journal, scope: Scope, k: nat)
    requires JournalValid(j) && scope in j.heads && 1 <= k <= j.heads[scope].sequence
    ensures exists job :: At(j, job, scope, k)
    ensures forall a, b :: At(j, a, scope, k) && At(j, b, scope, k) ==> a == b
    ensures forall a, b :: At(j, a, scope, k) && At(j, b, scope, k + 1) ==> NamesBefore(j, a, b)
    ensures forall b :: At(j, b, scope, 1) ==> j.jobs[b].header.previous.None?
  {
    assert AtTip(j, scope);
    ChainHasEach(j, scope, k);
    hide WithinLimits, RowRefs, LoadEntry;
    forall a, b | At(j, a, scope, k) && At(j, b, scope, k + 1)
      ensures NamesBefore(j, a, b)
    {
      assert Linked(j, b);
      assert At(j, j.jobs[b].header.previous.value.job, scope, k);
    }
    forall b | At(j, b, scope, 1)
      ensures j.jobs[b].header.previous.None?
    {
      FirstHasNone(j, b);
    }
  }

  lemma FirstHasNone(j: Journal, b: Job)
    requires Loads(j) && AllLinked(j) && b in j.jobs && j.jobs[b].header.sequence == 1
    ensures j.jobs[b].header.previous.None?
  {
    LoadedFits(j);
    hide RowRefs, LoadEntry;
    assert Linked(j, b);
  }

  lemma LoadedFits(j: Journal)
    requires Loads(j)
    ensures forall job :: job in j.jobs ==> HeaderFits(j.jobs[job].header)
  {
    hide RowsRefused, RowRefs, Bodies, ProjectionRefused, HeaderFits, DistinctRefs, Names;
  }

  ghost predicate NamesBefore(j: Journal, a: Job, b: Job)
    requires a in j.jobs && b in j.jobs
  {
    && j.jobs[b].header.previous.Some?
    && j.jobs[b].header.previous.value.job == a
    && j.jobs[b].header.previous.value.continuity.id == j.jobs[a].header.continuity
    && j.jobs[b].header.previous.value.continuity in RowRefs(j.jobs[a].rows)
  }

  // ----- runs -----

  datatype Step = Froze(ask: Ask, now: nat, build: Builder) | Saved(job: Job)

  /** One transaction; a refused one rolls back. */
  function After(j: Journal, step: Step): Journal {
    match step
    case Froze(ask, now, build) =>
      (match Freeze(j, ask, now, build) case Failure(_) => j case Success(f) => f.journal)
    case Saved(job) =>
      (match MarkSaved(j, job) case Failure(_) => j case Success(k) => k)
  }

  function Runs(j: Journal, steps: seq<Step>): Journal {
    if steps == [] then j else After(Runs(j, steps[..|steps| - 1]), steps[|steps| - 1])
  }

  lemma StepKeeps(j: Journal, step: Step)
    requires JournalValid(j)
    ensures JournalValid(After(j, step))
  {
    hide JournalValid, Freeze, MarkSaved;
    match step
    case Froze(ask, now, build) => if Freeze(j, ask, now, build).Success? { FreezeKeeps(j, ask, now, build); }
    case Saved(job) => if MarkSaved(j, job).Success? { SavedKeeps(j, job); }
  }

  lemma EmptyIsValid()
    ensures JournalValid(EMPTY_JOURNAL)
  {
  }

  /** Every interleaving of accepted plans, retries and saves leaves a state that full
      recovery validation passes. */
  lemma {:induction false} RunsStayValid(steps: seq<Step>)
    ensures JournalValid(Runs(EMPTY_JOURNAL, steps))
  {
    hide JournalValid, After;
    if steps == [] {
      EmptyIsValid();
    } else {
      RunsStayValid(steps[..|steps| - 1]);
      StepKeeps(Runs(EMPTY_JOURNAL, steps[..|steps| - 1]), steps[|steps| - 1]);
    }
  }

  /** Same plan, perhaps saved since and its staging text cleared. */
  ghost predicate SamePlan(p: Plan, q: Plan) {
    && q.refs == p.refs
    && (q == p || (q.header == p.header.(saved := true) && q.records == []))
  }

  ghost predicate Holds(j: Journal, p: Plan) {
    && p.header.job in j.jobs && LoadEntry(j.jobs[p.header.job]).Success?
    && SamePlan(p, LoadEntry(j.jobs[p.header.job]).value)
  }

  lemma StepHolds(j: Journal, step: Step, p: Plan)
    requires Holds(j, p)
    ensures Holds(After(j, step), p)
  {
    hide LoadEntry, Occupied, ProjectionRefused, Parent;
    match step {
      case Froze(ask, now, build) =>
      case Saved(job) =>
        if job == p.header.job {
          LoadNames(j.jobs[job]);
          ClearedLoads(j.jobs[job]);
        }
    }
  }

  lemma {:induction false} RunHolds(j: Journal, steps: seq<Step>, p: Plan)
    requires Holds(j, p)
    ensures Holds(Runs(j, steps), p)
  {
    hide Holds, After;
    if steps != [] {
      RunHolds(j, steps[..|steps| - 1], p);
      StepHolds(Runs(j, steps[..|steps| - 1]), steps[|steps| - 1], p);
    }
  }

  lemma FreshHolds(j: Journal, ask: Ask, now: nat, build: Builder)
    requires Loads(j) && Freeze(j, ask, now, build).Success?
    ensures var f := Freeze(j, ask, now, build).value;
      Holds(f.journal, f.plan) && f.plan.header.job == ask.job && SameAsk(f.plan.header, ask)
  {
    hide Occupied, ProjectionRefused, Parent, LoadEntry, DraftOf, Accept;
    if ask.job in j.jobs {
      LoadNames(j.jobs[ask.job]);
    } else {
      FreezeEnters(j, ask, now, build);
      DraftIs(j, ask, now, build, Parent(j, ask.scope).value);
    }
  }

  /** After any further run, asking again exactly as before returns the frozen plan, whatever the
      clock and the builder now say, and changes nothing; asking for the same job with anything
      different is refused. */
  lemma RetryReturnsPlan(j: Journal, ask: Ask, now: nat, build: Builder, steps: seq<Step>,
                         again: Ask, later: nat, other: Builder)
    requires JournalValid(j) && Freeze(j, ask, now, build).Success? && again.job == ask.job
    ensures var f := Freeze(j, ask, now, build).value;
            var k := Runs(f.journal, steps);
            if SameAsk(f.plan.header, again) then
              var r := Freeze(k, again, later, other);
              r.Success? && r.value.journal == k && SamePlan(f.plan, r.value.plan)
            else Freeze(k, again, later, other) == Failure(CaptureRequestConflict)
  {
    FreshHolds(j, ask, now, build);
    var f := Freeze(j, ask, now, build).value;
    RunHolds(f.journal, steps, f.plan);
    hide LoadEntry, Occupied, Accept, Parent, Runs;
    LoadNames(Runs(f.journal, steps).jobs[ask.job]);
  }

  // ----- the journal object -----

  datatype Counts = Counts(heads: nat, jobs: nat, records: nat)

  class CaptureJournal {
    var jobs: map<Job, Entry>
    var heads: map<Scope, Head>

    constructor ()
      ensures Contents() == EMPTY_JOURNAL
    {
      jobs, heads := map[], map[];
    }

    function Contents(): Journal
      reads this
    {
      Journal(jobs, heads)
    }

    /** freeze_capture in the caller's transaction. */
    method Accept(ask: Ask, now: nat, build: Builder) returns (r: Result<Plan>)
      requires JournalValid(Contents())
      modifies this
      ensures JournalValid(Contents())
      ensures match Freeze(old(Contents()), ask, now, build)
              case Failure(e) => r == Failure(e) && Contents() == old(Contents())
              case Success(f) => r == Success(f.plan) && Contents() == f.journal
    {
      hide JournalValid;
      ghost var was := Contents();
      if Freeze(was, ask, now, build).Success? {
        FreezeKeeps(was, ask, now, build);
      }
      var prior := Load(Contents(), ask.job);
      if prior.Failure? {
        return Failure(prior.error);
      }
      if prior.value.Some? {
        return if SameAsk(prior.value.value.header, ask) then Success(prior.value.value)
               else Failure(CaptureRequestConflict);
      }
      if |jobs| >= MAX_JOBS {
        return Failure(CaptureHistoryLimit);
      }
      if |PendingJobs(Contents())| >= MAX_PENDING {
        return Failure(CapturePendingLimit);
      }
      var parent := Parent(Contents(), ask.scope);
      if parent.Failure? {
        return Failure(parent.error);
      }
      var created := if ask.created.Some? then ask.created.value else now;
      var b := build(created, if parent.value.Some? then Some(parent.value.value.continuity) else None);
      if !(2 <= |b.records| <= MAX_RECORDS) {
        return Failure(CaptureProjectionLimit);
      }
      if Occupied(jobs, PendingJobs(Contents())) + RecordBytes(b.records) > MAX_PENDING_BYTES {
        return Failure(CapturePendingBytesLimit);
      }
      var h := Drafted(Contents(), ask, parent.value, created, b);
      if ProjectionRefused(h, b.records).Some? {
        return Failure(ProjectionRefused(h, b.records).value);
      }
      var before := Contents();
      jobs := jobs[h.job := Entry(h, Staged(b.records))];
      heads := heads[h.scope := Head(h.sequence, h.job)];
      var plan := LoadEntry(jobs[h.job]);
      if plan.Failure? {
        jobs, heads := before.jobs, before.heads;
      }
      return plan;
    }

    /** mark_capture_saved in the caller's transaction. */
    method Save(job: Job) returns (refused: Option<Error>)
      requires JournalValid(Contents())
      modifies this
      ensures JournalValid(Contents())
      ensures match MarkSaved(old(Contents()), job)
              case Failure(e) => refused == Some(e) && Contents() == old(Contents())
              case Success(k) => refused == None && Contents() == k
    {
      hide JournalValid, LoadEntry;
      if MarkSaved(Contents(), job).Success? {
        SavedKeeps(Contents(), job);
      }
      var plan := Load(Contents(), job);
      if plan.Failure? {
        return Some(plan.error);
      }
      if plan.value.None? {
        return Some(UnknownCaptureJob);
      }
      jobs := jobs[job := Entry(jobs[job].header.(saved := true), Cleared(jobs[job].rows))];
      return None;
    }

    /** The first scan: every plan loads; the last plan of each scope is kept. */
    method ScanPlans() returns (r: Result<map<Scope, Job>>, records: nat)
      ensures r.Success? ==> Loads(Contents()) && Latest(Contents(), {}, r.value)
      ensures r.Failure? ==> !Loads(Contents())
    {
      hide LoadEntry, Latest;
      var latest: map<Scope, Job> := map[];
      records := 0;
      var rest: set<Job> := jobs.Keys;
      LatestStart(Contents());
      while rest != {}
        invariant rest <= jobs.Keys && LoadedOutside(Contents(), rest) && Latest(Contents(), rest, latest)
        decreases |rest|
      {
        var job := MinOf(rest);
        if LoadEntry(jobs[job]).Failure? || jobs[job].header.job != job {
          return Failure(InvalidCaptureProjection), records;
        }
        LatestStep(Contents(), rest, latest, job);
        latest := WithLatest(Contents(), latest, job);
        records := records + jobs[job].header.count;
        rest := rest - {job};
      }
      r := Success(latest);
    }

    /** The second scan: every predecessor. */
    method ScanLinks() returns (ok: bool)
      ensures ok <==> AllLinked(Contents())
    {
      hide Linked;
      var rest: set<Job> := jobs.Keys;
      while rest != {}
        invariant rest <= jobs.Keys && LinkedOutside(Contents(), rest)
        decreases |rest|
      {
        var job := MinOf(rest);
        if !Linked(Contents(), job) {
          return false;
        }
        rest := rest - {job};
      }
      ok := true;
    }

    /** The third scan: every head against the last plan seen. */
    method ScanHeads(latest: map<Scope, Job>) returns (ok: bool)
      requires UniqueSequences(Contents()) && Latest(Contents(), {}, latest)
      ensures ok <==> HeadsAtTips(Contents())
    {
      hide Latest, HeadsAtTips;
      TipsAreAll(Contents(), latest);
      if |heads| != |latest| {
        return false;
      }
      var rest: set<Scope> := heads.Keys;
      while rest != {}
        invariant rest <= heads.Keys && TipsOutside(Contents(), latest, rest)
        decreases |rest|
      {
        var scope := MinOf(rest);
        TipIsLatest(Contents(), latest, scope);
        if scope !in latest || !AtLatest(Contents(), latest, scope) {
          return false;
        }
        rest := rest - {scope};
      }
      TipsAreLatest(Contents(), latest);
      ok := true;
    }

    /** validate_capture_state: it passes exactly the states that fit. */
    method Validate() returns (r: Result<Counts>)
      requires UniqueSequences(Contents())
      ensures r.Success? <==> StateFits(Contents())
      ensures r.Success? ==> r.value.heads == |heads| && r.value.jobs == |jobs|
    {
      hide Loads, AllLinked, HeadsAtTips, UniqueSequences, Latest;
      if |jobs| > MAX_JOBS {
        return Failure(CaptureHistoryLimit);
      }
      var scan, records := ScanPlans();
      if scan.Failure? {
        return Failure(scan.error);
      }
      var pending := PendingJobs(Contents());
      if |pending| > MAX_PENDING || Occupied(jobs, pending) > MAX_PENDING_BYTES {
        return Failure(CapturePendingLimit);
      }
      var linked := ScanLinks();
      if !linked {
        return Failure(InvalidCapturePredecessor);
      }
      var tips := ScanHeads(scan.value);
      if !tips {
        return Failure(InvalidCaptureHead);
      }
      return Success(Counts(|heads|, |jobs|, records));
    }
  }

  ghost predicate LoadedOutside(j: Journal, rest: set<Job>) {
    forall job :: job in j.jobs && job !in rest ==> j.jobs[job].header.job == job && LoadEntry(j.jobs[job]).Success?
  }

  ghost predicate LinkedOutside(j: Journal, rest: set<Job>) {
    forall job :: job in j.jobs && job !in rest ==> Linked(j, job)
  }

  /** The highest-numbered plan of each scope among those already seen. */
  ghost predicate Latest(j: Journal, rest: set<Job>, latest: map<Scope, Job>) {
    && (forall scope :: scope in latest ==> latest[scope] in j.jobs && latest[scope] !in rest
                                            && j.jobs[latest[scope]].header.scope == scope)
    && (forall job :: job in j.jobs && job !in rest ==>
          var h := j.jobs[job].header;
          h.scope in latest && h.sequence <= j.jobs[latest[h.scope]].header.sequence)
  }

  function WithLatest(j: Journal, latest: map<Scope, Job>, job: Job): map<Scope, Job>
    requires job in j.jobs && forall scope :: scope in latest ==> latest[scope] in j.jobs
  {
    var h := j.jobs[job].header;
    if h.scope !in latest || h.sequence > j.jobs[latest[h.scope]].header.sequence then latest[h.scope := job]
    else latest
  }

  lemma LatestStart(j: Journal)
    ensures Latest(j, j.jobs.Keys, map[])
  {
  }

  lemma LatestStep(j: Journal, rest: set<Job>, latest: map<Scope, Job>, job: Job)
    requires Latest(j, rest, latest) && job in rest && job in j.jobs
    ensures forall scope :: scope in latest ==> latest[scope] in j.jobs
    ensures Latest(j, rest - {job}, WithLatest(j, latest, job))
  {
  }

  predicate AtLatest(j: Journal, latest: map<Scope, Job>, scope: Scope) {
    && scope in j.heads && scope in latest && latest[scope] in j.jobs
    && j.heads[scope] == Head(j.jobs[latest[scope]].header.sequence, latest[scope])
  }

  ghost predicate TipsOutside(j: Journal, latest: map<Scope, Job>, rest: set<Scope>) {
    forall scope :: scope in j.heads && scope !in rest ==> AtLatest(j, latest, scope)
  }

  lemma SameSize(a: set<Scope>, b: set<Scope>)
    requires a <= b && |a| == |b|
    ensures a == b
  {
    assert b == a + (b - a);
  }

  lemma TipsAreAll(j: Journal, latest: map<Scope, Job>)
    requires Latest(j, {}, latest)
    ensures HeadsAtTips(j) ==> |j.heads| == |latest|
  {
    if HeadsAtTips(j) {
      assert forall scope :: scope in j.heads ==> AtTip(j, scope);
      assert j.heads.Keys == latest.Keys;
      assert |j.heads| == |j.heads.Keys| && |latest.Keys| == |latest|;
    }
  }

  lemma TipIsLatest(j: Journal, latest: map<Scope, Job>, scope: Scope)
    requires Latest(j, {}, latest) && UniqueSequences(j) && scope in j.heads
    ensures HeadsAtTips(j) ==> AtLatest(j, latest, scope)
  {
    if HeadsAtTips(j) {
      assert AtTip(j, scope);
    }
  }

  lemma TipsAreLatest(j: Journal, latest: map<Scope, Job>)
    requires Latest(j, {}, latest) && TipsOutside(j, latest, {}) && |j.heads| == |latest|
    ensures HeadsAtTips(j)
  {
    assert |j.heads| == |j.heads.Keys| && |latest.Keys| == |latest|;
    SameSize(j.heads.Keys, latest.Keys);
  }
}
