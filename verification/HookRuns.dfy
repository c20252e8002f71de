/** Runs of hook capture, event by event, over the vault, the done files and the journal with or
    without an open transaction; and the drain, which is such a run cut short anywhere. */
module HookRuns {
  import opened Wrappers
  import opened Sorting
  import opened VaultStore
  import opened VaultTransactions
  import opened DeliveryRuns
  import opened CapturePlans
  import opened TurnStores
  import opened HookCapture
  import Turns = TurnRuns
  import Bridges = HostBridges
  import Runs = CaptureRuns

  /** What is durable, and the journal as an open transaction sees it. */
  datatype HookState = HookState(hooks: Hooks, pending: Option<Journal>)

  datatype Event =
    | Freezing(ask: Ask, now: nat, build: Builder)
    | Opening
    | Projecting(job: Job)
    | Finishing(job: Job)
    | Marking(job: Job)
    | Closing
    | Losing
    | Storing(vault: ClientVault)

  const EMPTY_VAULT: ClientVault := ClientVault(EMPTY, map[])

  const START_HOOKS: HookState := HookState(Hooks(EMPTY_JOURNAL, {}, EMPTY_VAULT), None)

  /** The state as a reader inside the open transaction, or outside it, sees it. */
  function View(x: HookState, inside: bool): Hooks {
    if inside && x.pending.Some? then x.hooks.(journal := x.pending.value) else x.hooks
  }

  /** The request id of a hook capture is derived from its job: all but these are even. */
  function HookRequest(job: Job): nat {
    2 * job + 1
  }

  /** Hook requests and done files belong to jobs of the journal, under their own ids. */
  ghost predicate OwnOnly(x: Hooks) {
    && (forall job :: job in x.journal.jobs ==> x.journal.jobs[job].header.request == HookRequest(job))
    && (forall job: Job :: HookRequest(job) in x.vault.receipts ==> job in x.journal.jobs)
    && x.done <= x.journal.jobs.Keys
  }

  ghost predicate InStep(x: HookState) {
    && HooksValid(x.hooks) && OwnOnly(x.hooks)
    && (x.pending.Some? ==> HooksValid(View(x, true)) && SameHeaders(x.hooks.journal, x.pending.value))
  }

  /** Any other work on the vault: receipts stay, and none is filed under a hook request. */
  ghost predicate OtherWork(x: Hooks, v: ClientVault, trusted: Trust) {
    && Txn(x.vault.store, v.store, trusted)
    && (forall k :: k in x.vault.receipts ==> k in v.receipts && v.receipts[k] == x.vault.receipts[k])
    && forall job: Job :: HookRequest(job) in v.receipts ==> HookRequest(job) in x.vault.receipts
  }

  /** A capture is frozen in a transaction of its own.  Inside an open one the plan of a job is
      projected into the vault, its done file written once its receipt is there, and the plan
      marked once that file is; only the marks are lost with the transaction. */
  ghost predicate Happens(x: HookState, e: Event, y: HookState, trusted: Trust, sign: Option<Signer>) {
    match e
    case Freezing(ask, now, build) =>
      && x.pending.None? && ask.request == HookRequest(ask.job) && Freeze(x.hooks.journal, ask, now, build).Success?
      && y == HookState(x.hooks.(journal := Freeze(x.hooks.journal, ask, now, build).value.journal), None)
    case Opening => x.pending.None? && y == x.(pending := Some(x.hooks.journal))
    case Projecting(job) =>
      && x.pending.Some? && job in x.pending.value.jobs && LoadEntry(x.pending.value.jobs[job]).Success?
      && Projected(x, job, trusted, sign).Success?
      && y == x.(hooks := x.hooks.(vault := Projected(x, job, trusted, sign).value))
    case Finishing(job) =>
      && x.pending.Some? && job in x.pending.value.jobs
      && x.pending.value.jobs[job].header.request in x.hooks.vault.receipts
      && y == x.(hooks := x.hooks.(done := x.hooks.done + {job}))
    case Marking(job) =>
      && x.pending.Some? && job in x.hooks.done && MarkSaved(x.pending.value, job).Success?
      && (Foremost(x.pending.value, job) || (job in x.pending.value.jobs && x.pending.value.jobs[job].header.saved))
      && y == x.(pending := Some(MarkSaved(x.pending.value, job).value))
    case Closing => x.pending.Some? && y == HookState(View(x, true), None)
    case Losing => x.pending.Some? && y == x.(pending := None)
    case Storing(v) => OtherWork(x.hooks, v, trusted) && y == x.(hooks := x.hooks.(vault := v))
  }

  ghost function Projected(x: HookState, job: Job, trusted: Trust, sign: Option<Signer>): Result<ClientVault>
    requires x.pending.Some? && job in x.pending.value.jobs && LoadEntry(x.pending.value.jobs[job]).Success?
  {
    SaveProjection(x.hooks.vault, trusted, sign, LoadEntry(x.pending.value.jobs[job]).value)
  }

  ghost predicate HookStep(x: HookState, y: HookState, trusted: Trust, sign: Option<Signer>) {
    exists e :: Happens(x, e, y, trusted, sign)
  }

  ghost predicate Stepwise(run: seq<HookState>, trusted: Trust, sign: Option<Signer>) {
    forall i :: 0 <= i < |run| - 1 ==> HookStep(run[i], run[i + 1], trusted, sign)
  }

  ghost predicate HooksRun(run: seq<HookState>, trusted: Trust, sign: Option<Signer>) {
    |run| > 0 && run[0] == START_HOOKS && Stepwise(run, trusted, sign)
  }

  // ----- every event keeps both views in step -----

  /** What an event leaves behind: both views valid, nothing durable taken back, and no committed
      mark or plan withdrawn. */
  ghost predicate Onward(x: HookState, y: HookState) {
    InStep(y) && Gains(x.hooks, y.hooks) && MarksStay(x.hooks.journal, y.hooks.journal)
  }

  ghost predicate MarksStay(j: Journal, k: Journal) {
    forall job :: job in j.jobs ==>
      && job in k.jobs && (j.jobs[job].header.saved ==> k.jobs[job].header.saved)
      && k.jobs[job].header.(saved := true) == j.jobs[job].header.(saved := true)
  }

  lemma FreezingKeeps(x: HookState, ask: Ask, now: nat, build: Builder)
    requires InStep(x) && x.pending.None? && ask.request == HookRequest(ask.job)
    requires Freeze(x.hooks.journal, ask, now, build).Success?
    ensures Onward(x, HookState(x.hooks.(journal := Freeze(x.hooks.journal, ask, now, build).value.journal), None))
  {
    hide Freeze, HooksValid, MarksStay, OwnOnly, Unused, JournalValid, Gains;
    OwnIsUnused(x.hooks, ask);
    FreezeKeepsHooks(x.hooks, ask, now, build);
    assert JournalValid(x.hooks.journal) by { ValidJournal(x.hooks); }
    FrozenMarks(x.hooks.journal, ask, now, build);
    OwnFrozen(x.hooks, ask, now, build);
    FrozenGains(x.hooks, Freeze(x.hooks.journal, ask, now, build).value.journal);
  }

  lemma FrozenGains(x: Hooks, k: Journal)
    ensures Gains(x, x.(journal := k))
  {
  }

  lemma ValidJournal(x: Hooks)
    requires HooksValid(x)
    ensures JournalValid(x.journal) && Loads(x.journal)
  {
    hide RequestsOwn, PrefixSaved, AllFiled, Valid, WithinLimits, AllLinked, UniqueSequences, HeadsAtTips, LoadEntry;
  }

  lemma OwnIsUnused(x: Hooks, ask: Ask)
    requires OwnOnly(x) && ask.request == HookRequest(ask.job)
    ensures Unused(x, ask)
  {
  }

  lemma OwnFrozen(x: Hooks, ask: Ask, now: nat, build: Builder)
    requires HooksValid(x) && OwnOnly(x) && ask.request == HookRequest(ask.job)
    requires Freeze(x.journal, ask, now, build).Success?
    ensures OwnOnly(x.(journal := Freeze(x.journal, ask, now, build).value.journal))
  {
    hide Freeze, HooksValid, JournalValid, Loads, LoadEntry, Runs.NamesHead, Runs.Fits, Runs.RowsOf;
    ValidJournal(x);
    if ask.job in x.journal.jobs {
      Runs.FreezeKeeps(x.journal, ask, now, build);
    } else {
      Runs.FreezeAccepts(x.journal, ask, now, build);
      Runs.FreshHolds(x.journal, ask, now, build);
    }
  }

  lemma FrozenMarks(j: Journal, ask: Ask, now: nat, build: Builder)
    requires JournalValid(j) && Freeze(j, ask, now, build).Success?
    ensures MarksStay(j, Freeze(j, ask, now, build).value.journal)
  {
    hide Freeze, LoadEntry, JournalValid, Runs.NamesHead, Runs.Fits, Runs.RowsOf;
    if ask.job in j.jobs {
      Runs.FreezeKeeps(j, ask, now, build);
      SameMarks(j);
    } else {
      Runs.FreezeAccepts(j, ask, now, build);
    }
  }

  lemma OpeningKeeps(x: HookState)
    requires InStep(x) && x.pending.None?
    ensures Onward(x, x.(pending := Some(x.hooks.journal)))
  {
    hide HooksValid;
    assert View(x.(pending := Some(x.hooks.journal)), true) == x.hooks;
  }

  lemma ProjectingKeeps(x: HookState, job: Job, trusted: Trust, sign: Option<Signer>)
    requires InStep(x) && x.pending.Some? && job in x.pending.value.jobs
    requires LoadEntry(x.pending.value.jobs[job]).Success? && Projected(x, job, trusted, sign).Success?
    ensures Onward(x, x.(hooks := x.hooks.(vault := Projected(x, job, trusted, sign).value)))
  {
    var view := View(x, true);
    var p := LoadEntry(x.pending.value.jobs[job]).value;
    hide HooksValid, SaveProjection, LoadEntry, Gains, SameHeaders, MarksStay, OwnOnly, Valid;
    LoadedPlan(view, job);
    SaveKeeps(view, x.hooks, trusted, sign, job, p);
    var v := SaveProjection(x.hooks.vault, trusted, sign, p).value;
    StoreIsValid(x);
    OtherView(x.hooks, view, job);
    OwnProjected(x.hooks, trusted, sign, job, p);
    GainsVault(view, x.hooks, v);
    SameMarks(x.hooks.journal);
  }

  lemma OwnProjected(x: Hooks, trusted: Trust, sign: Option<Signer>, job: Job, p: Plan)
    requires OwnOnly(x) && Valid(x.vault.store) && SaveProjection(x.vault, trusted, sign, p).Success?
    requires job in x.journal.jobs && p.header.request == x.journal.jobs[job].header.request
    ensures OwnOnly(x.(vault := SaveProjection(x.vault, trusted, sign, p).value))
  {
    hide SaveProjection, Valid, Txn, HasRecords;
    SaveProjectionKeeps(x.vault, trusted, sign, p);
  }

  lemma GainsVault(x: Hooks, y: Hooks, v: ClientVault)
    requires Gains(x, x.(vault := v)) && x.vault == y.vault
    ensures Gains(y, y.(vault := v))
  {
  }

  lemma SameMarks(j: Journal)
    ensures MarksStay(j, j)
  {
  }

  lemma FinishingKeeps(x: HookState, job: Job)
    requires InStep(x) && x.pending.Some? && job in x.pending.value.jobs
    requires x.pending.value.jobs[job].header.request in x.hooks.vault.receipts
    ensures Onward(x, x.(hooks := x.hooks.(done := x.hooks.done + {job})))
  {
    hide HooksValid, SameHeaders, MarksStay, Gains, OwnOnly;
    OtherView(x.hooks, View(x, true), job);
    OwnDone(x.hooks, job);
    DoneKeeps(View(x, true), job);
    DoneGains(x.hooks, job);
    RollbackKeeps(x.hooks, View(x, true).(done := x.hooks.done + {job}));
    SameMarks(x.hooks.journal);
  }

  lemma OwnDone(x: Hooks, job: Job)
    requires OwnOnly(x) && job in x.journal.jobs
    ensures OwnOnly(x.(done := x.done + {job}))
  {
  }

  lemma DoneGains(x: Hooks, job: Job)
    ensures Gains(x, x.(done := x.done + {job}))
  {
  }

  lemma DoneKeeps(x: Hooks, job: Job)
    requires HooksValid(x) && job in x.journal.jobs && x.journal.jobs[job].header.request in x.vault.receipts
    ensures HooksValid(x.(done := x.done + {job}))
  {
    hide JournalValid, RequestsOwn, PrefixSaved, Valid, HasRecords;
  }

  lemma MarkingKeeps(x: HookState, job: Job)
    requires InStep(x) && x.pending.Some? && job in x.hooks.done && MarkSaved(x.pending.value, job).Success?
    requires Foremost(x.pending.value, job) || (job in x.pending.value.jobs && x.pending.value.jobs[job].header.saved)
    ensures Onward(x, x.(pending := Some(MarkSaved(x.pending.value, job).value)))
  {
    hide HooksValid, SameHeaders, MarkSaved, MarksStay, Foremost, Gains, OwnOnly;
    MarkKeeps(View(x, true), job);
    MarkedHeaders(x.hooks.journal, x.pending.value, job);
    SameMarks(x.hooks.journal);
    NoGain(x.hooks);
  }

  lemma ClosingKeeps(x: HookState)
    requires InStep(x) && x.pending.Some?
    ensures Onward(x, HookState(View(x, true), None))
  {
    hide HooksValid;
    CommittedMarks(x.hooks, x.pending.value);
  }

  lemma CommittedMarks(x: Hooks, w: Journal)
    requires SameHeaders(x.journal, w)
    ensures MarksStay(x.journal, w) && (OwnOnly(x) ==> OwnOnly(x.(journal := w)))
  {
  }

  lemma StoringKeeps(x: HookState, v: ClientVault, trusted: Trust)
    requires InStep(x) && OtherWork(x.hooks, v, trusted)
    ensures Onward(x, x.(hooks := x.hooks.(vault := v)))
  {
    OtherWorkKeeps(x.hooks, v, trusted);
    if x.pending.Some? {
      CommittedMarks(x.hooks, x.pending.value);
      OtherWorkInside(x, v, trusted);
      OtherWorkKeeps(View(x, true), v, trusted);
    }
    SameMarks(x.hooks.journal);
    hide HooksValid, SameHeaders, OtherWork, MarksStay;
  }

  lemma OtherWorkInside(x: HookState, v: ClientVault, trusted: Trust)
    requires OtherWork(x.hooks, v, trusted) && x.pending.Some? && SameHeaders(x.hooks.journal, x.pending.value)
    ensures OtherWork(View(x, true), v, trusted)
  {
    hide Txn, SameHeaders;
  }

  lemma OtherWorkKeeps(x: Hooks, v: ClientVault, trusted: Trust)
    requires HooksValid(x) && OtherWork(x, v, trusted)
    requires forall job :: job in x.journal.jobs ==> x.journal.jobs[job].header.request == HookRequest(job)
    ensures HooksValid(x.(vault := v)) && Gains(x, x.(vault := v))
    ensures OwnOnly(x) ==> OwnOnly(x.(vault := v))
  {
    hide JournalValid, RequestsOwn, PrefixSaved, Valid, Announces, Unblocks;
    forall job | job in x.journal.jobs
      ensures HookCapture.Filed(v, x.journal.jobs[job].header)
    {
      var h := x.journal.jobs[job].header;
      assert HookCapture.Filed(x.vault, h);
      if h.request in x.vault.receipts {
        Turns.RecordsStay(x.vault.store, v.store, trusted, h.projection.records);
      }
    }
  }

  lemma EventKeeps(x: HookState, e: Event, y: HookState, trusted: Trust, sign: Option<Signer>)
    requires InStep(x) && Happens(x, e, y, trusted, sign)
    ensures Onward(x, y)
  {
    hide InStep, Onward, Freeze, LoadEntry, Projected, MarkSaved, Foremost, OtherWork, Unused;
    match e {
      case Freezing(ask, now, build) => FreezingKeeps(x, ask, now, build);
      case Opening => OpeningKeeps(x);
      case Projecting(job) => ProjectingKeeps(x, job, trusted, sign);
      case Finishing(job) => FinishingKeeps(x, job);
      case Marking(job) => MarkingKeeps(x, job);
      case Closing => ClosingKeeps(x);
      case Losing => LosingKeeps(x);
      case Storing(v) => StoringKeeps(x, v, trusted);
    }
  }

  lemma LosingKeeps(x: HookState)
    requires InStep(x)
    ensures Onward(x, x.(pending := None))
  {
    hide HooksValid;
    SameMarks(x.hooks.journal);
  }

  lemma EmptyInStep(s: Store)
    ensures Valid(s) ==> InStep(HookState(Hooks(EMPTY_JOURNAL, {}, ClientVault(s, map[])), None))
  {
    Runs.EmptyIsValid();
    hide JournalValid, Valid, SameHeaders;
  }

  lemma StartInStep()
    ensures InStep(START_HOOKS)
  {
    assert Valid(EMPTY);
    EmptyInStep(EMPTY);
  }

  // ----- runs -----

  lemma {:induction false} StepsKeep(run: seq<HookState>, trusted: Trust, sign: Option<Signer>, i: nat)
    requires Stepwise(run, trusted, sign) && i < |run| && InStep(run[0])
    ensures InStep(run[i])
  {
    hide InStep, Happens;
    if i > 0 {
      StepsKeep(run, trusted, sign, i - 1);
      assert HookStep(run[i - 1], run[i - 1 + 1], trusted, sign);
      var e :| Happens(run[i - 1], e, run[i], trusted, sign);
      EventKeeps(run[i - 1], e, run[i], trusted, sign);
      OnwardInStep(run[i - 1], run[i]);
    }
  }

  lemma OnwardInStep(x: HookState, y: HookState)
    requires Onward(x, y)
    ensures InStep(y) && Gains(x.hooks, y.hooks) && MarksStay(x.hooks.journal, y.hooks.journal)
  {
    hide InStep;
  }

  /** In every state of every run, however freezes, projections, done files, marks, commits, lost
      transactions and other work on the vault follow each other, the journal as committed and as
      the open transaction sees it both fit the vault and the done files. */
  lemma HooksRunKeeps(run: seq<HookState>, trusted: Trust, sign: Option<Signer>, i: nat)
    requires HooksRun(run, trusted, sign) && i < |run|
    ensures HooksValid(View(run[i], false)) && HooksValid(View(run[i], true))
  {
    StartInStep();
    StepsKeep(run, trusted, sign, i);
    hide HooksValid, Stepwise;
  }

  /** Nothing durable is ever taken back: records, receipts, done files, committed plans and their
      marks last through crashes and lost transactions. */
  lemma {:induction false} NothingIsUndone(run: seq<HookState>, trusted: Trust, sign: Option<Signer>, i: nat, j: nat)
    requires HooksRun(run, trusted, sign) && i <= j < |run|
    ensures Gains(run[i].hooks, run[j].hooks) && MarksStay(run[i].hooks.journal, run[j].hooks.journal)
    decreases j
  {
    hide InStep, Happens, Onward;
    if i == j {
      NoGain(run[i].hooks);
      SameMarks(run[i].hooks.journal);
    } else {
      NothingIsUndone(run, trusted, sign, i, j - 1);
      StartInStep();
      StepsKeep(run, trusted, sign, j - 1);
      assert HookStep(run[j - 1], run[j - 1 + 1], trusted, sign);
      var e :| Happens(run[j - 1], e, run[j], trusted, sign);
      EventKeeps(run[j - 1], e, run[j], trusted, sign);
      OnwardInStep(run[j - 1], run[j]);
      GainsMore(run[i].hooks, run[j - 1].hooks, run[j].hooks);
      MoreMarks(run[i].hooks.journal, run[j - 1].hooks.journal, run[j].hooks.journal);
    }
  }

  lemma MoreMarks(j: Journal, k: Journal, l: Journal)
    requires MarksStay(j, k) && MarksStay(k, l)
    ensures MarksStay(j, l)
  {
  }

  /** In every state of every run a plan either view calls saved has its done file, its receipt
      under the frozen projection and its records. */
  lemma SavedIsFiled(run: seq<HookState>, trusted: Trust, sign: Option<Signer>, i: nat, inside: bool, job: Job)
    requires HooksRun(run, trusted, sign) && i < |run|
    requires var x := View(run[i], inside); job in x.journal.jobs && x.journal.jobs[job].header.saved
    ensures var x := View(run[i], inside);
      var h := x.journal.jobs[job].header;
      && job in x.done && h.request in x.vault.receipts && x.vault.receipts[h.request] == h.projection
      && HasRecords(x.vault.store, h.projection.records)
  {
    HooksRunKeeps(run, trusted, sign, i);
    var x := View(run[i], inside);
    hide JournalValid, Valid, HasRecords, HooksRun, View;
    assert HookCapture.Filed(x.vault, x.journal.jobs[job].header);
  }

  /** And everything before it in its scope is saved too. */
  lemma SavedIsPrefix(run: seq<HookState>, trusted: Trust, sign: Option<Signer>, i: nat, inside: bool, a: Job, b: Job)
    requires HooksRun(run, trusted, sign) && i < |run|
    requires var j := View(run[i], inside).journal.jobs;
      a in j && b in j && j[a].header.scope == j[b].header.scope && j[a].header.sequence <= j[b].header.sequence
      && j[b].header.saved
    ensures View(run[i], inside).journal.jobs[a].header.saved
  {
    HooksRunKeeps(run, trusted, sign, i);
    hide HooksRun, View, RequestsOwn, AllFiled, Valid, JournalValid, PrefixSaved;
    PrefixOf(View(run[i], inside).journal, a, b);
  }

  lemma {:induction false} PrefixOf(j: Journal, a: Job, b: Job)
    requires JournalValid(j) && PrefixSaved(j) && a in j.jobs && b in j.jobs && j.jobs[b].header.saved
    requires j.jobs[a].header.scope == j.jobs[b].header.scope && j.jobs[a].header.sequence <= j.jobs[b].header.sequence
    ensures j.jobs[a].header.saved
    decreases j.jobs[b].header.sequence
  {
    hide Loads, WithinLimits, HeadsAtTips, RowRefs;
    assert Linked(j, b);
    if a != b {
      Runs.LoadedFits(j);
      PrefixOf(j, a, j.jobs[b].header.previous.value.job);
    }
  }

  // ----- from one state to another -----

  /** Events lead from one state to the other. */
  ghost predicate Leads(x: HookState, y: HookState, trusted: Trust, sign: Option<Signer>) {
    exists run :: Connects(run, x, y, trusted, sign)
  }

  ghost predicate Connects(run: seq<HookState>, x: HookState, y: HookState, trusted: Trust, sign: Option<Signer>) {
    |run| > 0 && run[0] == x && run[|run| - 1] == y && Stepwise(run, trusted, sign)
  }

  lemma LeadsNowhere(x: HookState, trusted: Trust, sign: Option<Signer>)
    ensures Leads(x, x, trusted, sign)
  {
    assert Connects([x], x, x, trusted, sign);
  }

  lemma LeadsOn(x: HookState, y: HookState, e: Event, z: HookState, trusted: Trust, sign: Option<Signer>)
    requires Leads(x, y, trusted, sign) && Happens(y, e, z, trusted, sign)
    ensures Leads(x, z, trusted, sign)
  {
    hide Happens;
    var run :| Connects(run, x, y, trusted, sign);
    var more := run + [z];
    assert HookStep(y, z, trusted, sign);
    forall i | 0 <= i < |more| - 1
      ensures HookStep(more[i], more[i + 1], trusted, sign)
    {
      if i < |run| - 1 {
        assert HookStep(run[i], run[i + 1], trusted, sign);
      }
    }
    assert Connects(more, x, z, trusted, sign);
  }

  // ----- the drain -----

  class HookDrain {
    const vault: Vault
    const sign: Option<Signer>
    var journal: Journal
    var work: Journal
    var done: set<Job>
    var receipts: map<nat, Projection>

    constructor (vault: Vault, sign: Option<Signer>)
      ensures this.vault == vault && this.sign == sign
              && Contents() == Hooks(EMPTY_JOURNAL, {}, ClientVault(vault.committed, map[]))
      ensures Valid(vault.committed) ==> InStep(Shut())
    {
      this.vault, this.sign := vault, sign;
      journal, work, done, receipts := EMPTY_JOURNAL, EMPTY_JOURNAL, {}, map[];
      new;
      EmptyInStep(vault.committed);
    }

    ghost function Side(): ClientVault
      reads this, vault
    {
      ClientVault(vault.committed, receipts)
    }

    ghost function Contents(): Hooks
      reads this, vault
    {
      Hooks(journal, done, Side())
    }

    /** The state with the journal transaction open, and without. */
    ghost function Opened(): HookState
      reads this, vault
    {
      HookState(Contents(), Some(work))
    }

    ghost function Shut(): HookState
      reads this, vault
    {
      HookState(Contents(), None)
    }

    /** freeze_capture under the request derived from the job, in a journal transaction of its own. */
    method FreezeCapture(ask: Ask, now: nat, build: Builder) returns (r: Result<Plan>)
      requires InStep(Shut()) && ask.request == HookRequest(ask.job)
      modifies this`journal
      ensures Reaches(old(Shut()), Shut(), vault.trusted, sign)
      ensures match Freeze(old(journal), ask, now, build)
              case Failure(e) => r == Failure(e) && journal == old(journal)
              case Success(f) => r == Success(f.plan) && journal == f.journal
    {
      hide InStep, Happens, Reaches, Freeze;
      ghost var before := Shut();
      ReachesSelf(before, vault.trusted, sign);
      var frozen := Freeze(journal, ask, now, build);
      if frozen.Failure? {
        return Failure(frozen.error);
      }
      journal := frozen.value.journal;
      Freezes(before, ask, now, build, Shut(), vault.trusted, sign);
      r := Success(frozen.value.plan);
    }

    method StorePair(records: seq<Record>, request: nat, digest: Projection) returns (refused: Option<Error>)
      requires vault.work == vault.committed
      modifies this`receipts, vault
      ensures match StoreEach(old(vault.committed), vault.trusted, sign, records, |records|)
              case Failure(e) => refused == Some(e) && Side() == old(Side())
              case Success(b) =>
                match Committed(Requeue(b.store, vault.trusted, b.upgraded))
                case Failure(e) => refused == Some(e) && Side() == old(Side())
                case Success(t) => refused == None && Side() == ClientVault(t, old(receipts)[request := digest])
    {
      hide StoreOne, Requeue, RankOf, NoDangling;
      ghost var s := vault.committed;
      var b := Batch(vault.work, {}, 0);
      for n := 0 to |records|
        invariant vault.work == b.store && vault.committed == s && receipts == old(receipts)
        invariant StoreEach(s, vault.trusted, sign, records, n) == Success(b)
      {
        var next := Bridges.StoreNext(vault, sign, records[n], b);
        if next.Failure? {
          Bridges.StoreEachStays(s, vault.trusted, sign, records, n + 1, |records|);
          vault.Rollback();
          return Some(next.error);
        }
        b := next.value;
      }
      vault.RequeueDependents(b.upgraded);
      var committed := vault.Commit();
      if committed.Failure? {
        return Some(committed.error);
      }
      receipts := receipts[request := digest];
      return None;
    }

    method Save(p: Plan) returns (refused: Option<Error>)
      modifies this`receipts, vault
      ensures match SaveProjection(old(Side()), vault.trusted, sign, p)
              case Failure(e) => refused == Some(e) && Side() == old(Side())
              case Success(v) => refused == None && Side() == v
    {
      hide StoreEach, Requeue, RankOf, NoDangling, Missing, HeaderFits, TurnShape, FragmentShape, PlainPair,
        PriorRefused;
      vault.Begin();
      var h := p.header;
      if p.records == [] && !h.saved {
        return Some(InvalidCaptureProjection);
      }
      if p.records == [] && AnyMissing(vault.work, vault.trusted, p.refs).Some? {
        return AnyMissing(vault.work, vault.trusted, p.refs);
      }
      NoneMissing(vault.work, vault.trusted, if p.records == [] then p.refs else []);
      var records := Hydrated(vault.work, p);
      if ProjectionRefused(h, records).Some? {
        return ProjectionRefused(h, records);
      }
      if !PlainPair(h, records) {
        return Some(InvalidClientProjection);
      }
      if PriorRefused(vault.work, vault.trusted, h).Some? {
        return PriorRefused(vault.work, vault.trusted, h);
      }
      if h.request in receipts {
        if receipts[h.request] != Digest(h, records) {
          return Some(RequestConflict);
        }
        if AnyMissing(vault.work, vault.trusted, RefsOf(records)).Some? {
          return AnyMissing(vault.work, vault.trusted, RefsOf(records));
        }
        return if HasRecords(vault.work, records) then None else Some(CaptureProjectionChanged);
      }
      if h.saved {
        return Some(CaptureReceiptMissing);
      }
      refused := StorePair(records, h.request, Digest(h, records));
    }

    /** _complete_hook_capture: the vault commit, then the done file, then the mark in the open
        journal transaction; cut says after how many of these the process dies.  Whatever the cut,
        events lead to what is left. */
    method Complete(job: Job, cut: nat) returns (refused: Option<Error>)
      requires InStep(Opened()) && job in work.jobs
      requires Foremost(work, job) || work.jobs[job].header.saved
      modifies this`receipts, this`done, this`work, vault
      ensures Reaches(old(Opened()), Opened(), vault.trusted, sign)
      ensures LoadEntry(old(work).jobs[job]).Success?
      ensures match SaveProjection(old(Side()), vault.trusted, sign, LoadEntry(old(work).jobs[job]).value)
              case Failure(e) =>
                refused == (if cut == 0 then None else Some(e)) && Opened() == old(Opened())
              case Success(v) =>
                && refused == None && journal == old(journal) && Side() == (if cut == 0 then old(Side()) else v)
                && done == old(done) + (if cut >= 2 then {job} else {})
                && (if cut >= 3 then MarkSaved(old(work), job) == Success(work) else work == old(work))
    {
      hide InStep, Happens, Reaches, SaveProjection, MarkSaved, Foremost, LoadEntry;
      ghost var x := Opened();
      ReachesSelf(x, vault.trusted, sign);
      PendingLoads(x, job);
      var p := LoadEntry(work.jobs[job]).value;
      if cut == 0 {
        return None;
      }
      refused := Save(p);
      if refused.Some? {
        return;
      }
      ghost var y := Opened();
      Projects(x, job, y, vault.trusted, sign);
      ReachesOn(x, x, Projecting(job), y, vault.trusted, sign);
      if cut == 1 {
        return None;
      }
      done := done + {job};
      ghost var z := Opened();
      Finishes(y, job, z, vault.trusted, sign);
      ReachesOn(x, y, Finishing(job), z, vault.trusted, sign);
      if cut == 2 {
        return None;
      }
      work := MarkSaved(work, job).value;
      Marks(z, job, Opened(), vault.trusted, sign);
      ReachesOn(x, z, Marking(job), Opened(), vault.trusted, sign);
      return None;
    }

    /** The pending plans of the target's scope in sequence, up to the target and the limit. */
    method TakePending(target: Job, limit: nat, life: Option<nat>, ghost before: HookState)
      returns (refused: Option<Error>, stopped: bool, left: Option<nat>)
      requires Reaches(before, Opened(), vault.trusted, sign)
      requires work == journal && target in work.jobs && !work.jobs[target].header.saved
      modifies this`receipts, this`done, this`work, vault
      ensures Reaches(before, Opened(), vault.trusted, sign) && (left.Some? <==> life.Some?)
      ensures !stopped ==> Drained(journal, work, target, limit, refused)
      ensures !stopped && left == Some(0) ==> life.Some? && life.value <= 3 * limit
      ensures stopped && refused.None? ==> life.Some? && life.value <= 3 * limit
      ensures stopped && refused.Some? ==> TurnedAway(Contents(), vault.trusted, sign, target, refused.value)
    {
      hide Reaches, MarkSaved, PendingUpTo, Foremost, OthersKept, LoadEntry, SaveProjection, Drained, Untouched,
        TurnedAway, InStep, Happens, NextUp;
      refused, stopped, left := Some(CaptureDependencyPending), false, life;
      SelfKept(journal, target);
      UntouchedStart(journal);
      var n := 0;
      while n < limit && refused.Some?
        invariant Reaches(before, Opened(), vault.trusted, sign) && (left.Some? <==> life.Some?)
        invariant n <= limit && Drained(journal, work, target, n, refused) && Untouched(journal, work)
        invariant refused.Some? ==> refused == Some(CaptureDependencyPending)
        invariant life.Some? ==> left.value + 3 * n == life.value
      {
        StillPending(journal, work, target, n);
        var job := NextUp(work, target);
        NextIsForemost(work, target);
        NextIsNew(before, Opened(), vault.trusted, sign, target);
        ghost var x := Opened();
        refused := Complete(job, Share(left));
        ReachesMore(before, x, Opened(), vault.trusted, sign);
        if refused.Some? {
          TurnedBy(Contents(), x.pending.value, vault.trusted, sign, target, job, refused.value);
        }
        if refused.Some? || Share(left) < 3 {
          stopped := true;
          return;
        }
        DrainedMore(journal, x.pending.value, work, target, n, job);
        UntouchedMore(journal, x.pending.value, work, job);
        refused := if job == target then None else Some(CaptureDependencyPending);
        left := Spend(left);
        n := n + 1;
      }
      DrainedBefore(journal, work, target, n, limit, refused);
    }

    /** _drain_hook_capture: one journal transaction over any number of completions.  life says
        after how many writes the process dies, each completion having three and the commit of
        the journal being one more.  A refusal or a death loses the marks and nothing else; a
        refusal is that of some plan up to the target, which would be refused again as things stand. */
    method Drain(target: Job, limit: nat, life: Option<nat>) returns (end: DrainEnd)
      requires InStep(Shut())
      modifies this, vault
      ensures Reaches(old(Shut()), Shut(), vault.trusted, sign)
      ensures !end.Through? ==> journal == old(journal)
      ensures end.Through? ==> Drained(old(journal), journal, target, limit, end.pending)
      ensures end.Turned? ==> TurnedAway(Contents(), vault.trusted, sign, target, end.error)
      ensures end.Died? ==>
                life.Some? && target in journal.jobs
                && life.value <= 3 * (if journal.jobs[target].header.saved then 1 else limit)
    {
      hide InStep, Happens, Reaches, MarkSaved, Foremost, Drained, TurnedAway, LoadEntry, SaveProjection;
      ghost var before := Shut();
      work := journal;
      Opens(before, Opened(), vault.trusted, sign);
      if target !in work.jobs {
        Loses(before, Opened(), Shut(), vault.trusted, sign);
        UnknownTarget(Contents(), vault.trusted, sign, target);
        return Turned(UnknownCaptureJob);
      }
      var refused, stopped, left := None, false, life;
      if work.jobs[target].header.saved {
        ghost var x := Opened();
        refused := Complete(target, Share(life));
        ReachesMore(before, x, Opened(), vault.trusted, sign);
        stopped, left := refused.Some? || Share(life) < 3, Spend(life);
        if refused.Some? {
          TurnedBy(Contents(), journal, vault.trusted, sign, target, target, refused.value);
        }
        if !stopped {
          ResavedDrained(journal, work, target, limit);
        }
      } else {
        refused, stopped, left := TakePending(target, limit, life, before);
      }
      if stopped || left == Some(0) {
        Loses(before, Opened(), Shut(), vault.trusted, sign);
        return if stopped && refused.Some? then Turned(refused.value) else Died;
      }
      ghost var y := Opened();
      journal := work;
      Closes(before, y, Shut(), vault.trusted, sign);
      end := Through(refused);
    }
  }

  /** How a drain ends: committed, with what it reports for the target; turned away by a refusal; or
      with the process dead. */
  datatype DrainEnd = Through(pending: Option<Error>) | Turned(error: Error) | Died

  /** The target is unknown, or it or a pending plan before it is refused with this error. */
  ghost predicate TurnedAway(x: Hooks, trusted: Trust, sign: Option<Signer>, target: Job, error: Error) {
    || (target !in x.journal.jobs && error == UnknownCaptureJob)
    || exists job :: RefusedUpTo(x, trusted, sign, target, job, error)
  }

  ghost predicate RefusedUpTo(x: Hooks, trusted: Trust, sign: Option<Signer>, target: Job, job: Job, error: Error) {
    && job in x.journal.jobs && (job == target || job in PendingUpTo(x.journal, target))
    && LoadEntry(x.journal.jobs[job]).Success?
    && SaveProjection(x.vault, trusted, sign, LoadEntry(x.journal.jobs[job]).value) == Failure(error)
  }

  lemma UnknownTarget(x: Hooks, trusted: Trust, sign: Option<Signer>, target: Job)
    requires target !in x.journal.jobs
    ensures TurnedAway(x, trusted, sign, target, UnknownCaptureJob)
  {
  }

  lemma TurnedBy(x: Hooks, w: Journal, trusted: Trust, sign: Option<Signer>, target: Job, job: Job, error: Error)
    requires job in x.journal.jobs && job in w.jobs && w.jobs[job] == x.journal.jobs[job]
    requires job == target || job in PendingUpTo(x.journal, target)
    requires LoadEntry(w.jobs[job]).Success?
    requires SaveProjection(x.vault, trusted, sign, LoadEntry(w.jobs[job]).value) == Failure(error)
    ensures TurnedAway(x, trusted, sign, target, error)
  {
    hide LoadEntry, SaveProjection;
    assert RefusedUpTo(x, trusted, sign, target, job, error);
  }

  /** A plan the transaction has not marked is as it was. */
  ghost predicate Untouched(j: Journal, w: Journal) {
    && w.jobs.Keys == j.jobs.Keys
    && forall job :: job in w.jobs && !w.jobs[job].header.saved ==> w.jobs[job] == j.jobs[job]
  }

  lemma UntouchedStart(j: Journal)
    ensures Untouched(j, j)
  {
  }

  lemma UntouchedMore(j: Journal, w: Journal, k: Journal, job: Job)
    requires Untouched(j, w) && MarkSaved(w, job) == Success(k)
    ensures Untouched(j, k)
  {
    MarkedEntry(w, job);
    hide MarkSaved, LoadEntry;
  }

  lemma StillPending(j: Journal, w: Journal, target: Job, n: nat)
    requires Drained(j, w, target, n, Some(CaptureDependencyPending)) && Untouched(j, w)
    ensures target in w.jobs && !w.jobs[target].header.saved
    ensures var job := NextUp(w, target); job in j.jobs && w.jobs[job] == j.jobs[job]
  {
    hide OthersKept;
  }

  /** How many of a completion's three writes are left to live. */
  function Share(life: Option<nat>): nat {
    if life.Some? && life.value < 3 then life.value else 3
  }

  function Spend(life: Option<nat>): (left: Option<nat>)
    ensures left.Some? <==> life.Some?
  {
    if life.Some? && life.value >= 3 then Some(life.value - 3) else life
  }

  /** A drain of at most limit plans: it answers for the target exactly when that is saved now,
      otherwise it saved as many as it may, and plans of no concern stay as they were. */
  ghost predicate Drained(j: Journal, k: Journal, target: Job, limit: nat, refused: Option<Error>) {
    && OthersKept(j, k, target) && target in k.jobs && (refused.None? <==> k.jobs[target].header.saved)
    && (refused.Some? ==>
          refused == Some(CaptureDependencyPending) && |PendingUpTo(k, target)| + limit == |PendingUpTo(j, target)|)
  }

  lemma DrainedBefore(j: Journal, k: Journal, target: Job, n: nat, limit: nat, refused: Option<Error>)
    requires Drained(j, k, target, n, refused) && (refused.None? || n == limit)
    ensures Drained(j, k, target, limit, refused)
  {
  }

  lemma SelfKept(j: Journal, target: Job)
    requires target in j.jobs && !j.jobs[target].header.saved
    ensures Drained(j, j, target, 0, Some(CaptureDependencyPending))
  {
  }

  lemma DrainedMore(j: Journal, w: Journal, k: Journal, target: Job, n: nat, job: Job)
    requires Drained(j, w, target, n, Some(CaptureDependencyPending)) && MarkSaved(w, job) == Success(k)
    requires job in PendingUpTo(j, target) && job in PendingUpTo(w, target)
    ensures Drained(j, k, target, n + 1, if job == target then None else Some(CaptureDependencyPending))
  {
    MarkedOthers(j, w, k, target, job);
    if job != target {
      MarkedCount(w, k, target, job);
    }
    hide MarkSaved, PendingUpTo, OthersKept;
  }

  lemma MarkedCount(w: Journal, k: Journal, target: Job, job: Job)
    requires MarkSaved(w, job) == Success(k) && job in PendingUpTo(w, target) && job != target
    ensures |PendingUpTo(k, target)| + 1 == |PendingUpTo(w, target)|
  {
    MarkedEntry(w, job);
    hide MarkSaved, LoadEntry;
    assert PendingUpTo(k, target) == PendingUpTo(w, target) - {job};
  }

  lemma ResavedDrained(j: Journal, k: Journal, target: Job, limit: nat)
    requires target in j.jobs && j.jobs[target].header.saved && MarkSaved(j, target) == Success(k)
    ensures Drained(j, k, target, limit, None)
  {
    ResavedHeaders(j, k, target);
    hide MarkSaved, PendingUpTo, OthersKept;
  }

  // ----- the steps of a drain are events -----

  /** Events lead there, both views still fit, and nothing durable was lost on the way. */
  ghost predicate Reaches(x: HookState, y: HookState, trusted: Trust, sign: Option<Signer>) {
    InStep(y) && Leads(x, y, trusted, sign) && Gains(x.hooks, y.hooks)
  }

  lemma ReachesSelf(x: HookState, trusted: Trust, sign: Option<Signer>)
    requires InStep(x)
    ensures Reaches(x, x, trusted, sign)
  {
    LeadsNowhere(x, trusted, sign);
    NoGain(x.hooks);
    hide InStep, Leads;
  }

  lemma ReachesOn(x: HookState, y: HookState, e: Event, z: HookState, trusted: Trust, sign: Option<Signer>)
    requires Reaches(x, y, trusted, sign) && Happens(y, e, z, trusted, sign)
    ensures Reaches(x, z, trusted, sign)
  {
    hide InStep, Leads, Happens, Gains, Onward, MarksStay;
    EventKeeps(y, e, z, trusted, sign);
    OnwardInStep(y, z);
    LeadsOn(x, y, e, z, trusted, sign);
    GainsMore(x.hooks, y.hooks, z.hooks);
  }

  lemma ReachesMore(x: HookState, y: HookState, z: HookState, trusted: Trust, sign: Option<Signer>)
    requires Reaches(x, y, trusted, sign) && Reaches(y, z, trusted, sign)
    ensures Reaches(x, z, trusted, sign)
  {
    hide InStep, Leads, Gains;
    LeadsMore(x, y, z, trusted, sign);
    GainsMore(x.hooks, y.hooks, z.hooks);
  }

  lemma LeadsMore(x: HookState, y: HookState, z: HookState, trusted: Trust, sign: Option<Signer>)
    requires Leads(x, y, trusted, sign) && Leads(y, z, trusted, sign)
    ensures Leads(x, z, trusted, sign)
  {
    hide HookStep;
    var p :| Connects(p, x, y, trusted, sign);
    var q :| Connects(q, y, z, trusted, sign);
    var run := p + q[1..];
    forall i | 0 <= i < |run| - 1
      ensures HookStep(run[i], run[i + 1], trusted, sign)
    {
      if i < |p| - 1 {
        assert HookStep(p[i], p[i + 1], trusted, sign);
      } else {
        var k := i - |p| + 1;
        assert run[i] == q[k] && run[i + 1] == q[k + 1];
        assert HookStep(q[k], q[k + 1], trusted, sign);
      }
    }
    assert Connects(run, x, z, trusted, sign);
  }

  lemma PendingLoads(x: HookState, job: Job)
    requires InStep(x) && x.pending.Some? && job in x.pending.value.jobs
    ensures var e := x.pending.value.jobs[job];
      LoadEntry(e).Success? && LoadEntry(e).value.header == e.header && MarkSaved(x.pending.value, job).Success?
  {
    LoadedPlan(View(x, true), job);
    hide HooksValid, LoadEntry, MarkSaved;
  }

  /** A saved projection is an event, and leaves a receipt that a done file may follow. */
  lemma Projects(x: HookState, job: Job, y: HookState, trusted: Trust, sign: Option<Signer>)
    requires InStep(x) && x.pending.Some? && job in x.pending.value.jobs
    requires LoadEntry(x.pending.value.jobs[job]).Success? && Projected(x, job, trusted, sign).Success?
    requires y == x.(hooks := x.hooks.(vault := Projected(x, job, trusted, sign).value))
    ensures Happens(x, Projecting(job), y, trusted, sign)
    ensures y.pending.value.jobs[job].header.request in y.hooks.vault.receipts
  {
    hide InStep, LoadEntry, SaveProjection, MarkSaved, Valid, Txn, HasRecords;
    PendingLoads(x, job);
    StoreIsValid(x);
    SaveProjectionKeeps(x.hooks.vault, trusted, sign, LoadEntry(x.pending.value.jobs[job]).value);
  }

  lemma StoreIsValid(x: HookState)
    requires InStep(x)
    ensures Valid(x.hooks.vault.store)
  {
    hide JournalValid, RequestsOwn, PrefixSaved, Valid, AllFiled, SameHeaders;
  }

  lemma Finishes(x: HookState, job: Job, y: HookState, trusted: Trust, sign: Option<Signer>)
    requires x.pending.Some? && job in x.pending.value.jobs
    requires x.pending.value.jobs[job].header.request in x.hooks.vault.receipts
    requires y == x.(hooks := x.hooks.(done := x.hooks.done + {job}))
    ensures Happens(x, Finishing(job), y, trusted, sign)
  {
  }

  lemma Marks(x: HookState, job: Job, y: HookState, trusted: Trust, sign: Option<Signer>)
    requires x.pending.Some? && job in x.hooks.done && MarkSaved(x.pending.value, job).Success?
    requires Foremost(x.pending.value, job) || (job in x.pending.value.jobs && x.pending.value.jobs[job].header.saved)
    requires y == x.(pending := Some(MarkSaved(x.pending.value, job).value))
    ensures Happens(x, Marking(job), y, trusted, sign)
  {
    hide MarkSaved, Foremost;
  }

  lemma Freezes(x: HookState, ask: Ask, now: nat, build: Builder, y: HookState, trusted: Trust, sign: Option<Signer>)
    requires Reaches(x, x, trusted, sign) && x.pending.None? && ask.request == HookRequest(ask.job)
    requires Freeze(x.hooks.journal, ask, now, build).Success?
    requires y == HookState(x.hooks.(journal := Freeze(x.hooks.journal, ask, now, build).value.journal), None)
    ensures Reaches(x, y, trusted, sign)
  {
    hide Reaches, Freeze;
    ReachesOn(x, x, Freezing(ask, now, build), y, trusted, sign);
  }

  lemma Opens(x: HookState, y: HookState, trusted: Trust, sign: Option<Signer>)
    requires InStep(x) && x.pending.None? && y == x.(pending := Some(x.hooks.journal))
    ensures Reaches(x, y, trusted, sign) && InStep(y)
  {
    hide InStep, Leads, Gains;
    ReachesSelf(x, trusted, sign);
    ReachesOn(x, x, Opening, y, trusted, sign);
  }

  lemma Loses(x: HookState, y: HookState, z: HookState, trusted: Trust, sign: Option<Signer>)
    requires Reaches(x, y, trusted, sign) && y.pending.Some? && z == y.(pending := None)
    ensures Reaches(x, z, trusted, sign)
  {
    hide Reaches;
    ReachesOn(x, y, Losing, z, trusted, sign);
  }

  lemma Closes(x: HookState, y: HookState, z: HookState, trusted: Trust, sign: Option<Signer>)
    requires Reaches(x, y, trusted, sign) && y.pending.Some? && z == HookState(View(y, true), None)
    ensures Reaches(x, z, trusted, sign)
  {
    hide Reaches;
    ReachesOn(x, y, Closing, z, trusted, sign);
  }

  lemma NextIsNew(x: HookState, y: HookState, trusted: Trust, sign: Option<Signer>, target: Job)
    requires Reaches(x, y, trusted, sign) && y.pending.Some?
    requires target in y.pending.value.jobs && !y.pending.value.jobs[target].header.saved
    ensures InStep(y) && NextUp(y.pending.value, target) in PendingUpTo(y.hooks.journal, target)
  {
    hide Leads, Gains, HooksValid;
    NextIsPending(y.hooks.journal, y.pending.value, target);
  }
}
