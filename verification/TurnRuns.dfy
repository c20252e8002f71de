/** What every run of the two stores keeps, whatever crashes between their commits. */
module TurnRuns {
  import opened Wrappers
  import opened Graphs
  import opened Sorting
  import opened VaultStore
  import opened DeliveryRuns
  import opened CapturePlans
  import opened TurnStores
  import Runs = CaptureRuns

  // ----- the vault transaction keeps the vault -----

  lemma StoreOneKeeps(s: Store, b: Batch, trusted: Trust, sign: Option<Signer>, r: Record)
    requires Valid(s) && Batching(s, b) && StoreOne(b, trusted, sign, r).Success?
    ensures Batching(s, StoreOne(b, trusted, sign, r).value)
  {
    hide AdmitOne, Batching, Valid;
    if r.id !in b.store.records {
      AdmitOneKeeps(s, b, trusted, r, LocalState(sign), ProofOf(sign, r));
    }
  }

  lemma StoreOneHas(b: Batch, trusted: Trust, sign: Option<Signer>, r: Record)
    requires StoreOne(b, trusted, sign, r).Success?
    ensures var t := StoreOne(b, trusted, sign, r).value.store;
      r.id in t.records && t.records[r.id] == r
      && forall id :: id in b.store.records ==> id in t.records && t.records[id] == b.store.records[id]
  {
    hide SetAdmission, Targets;
    if r.id !in b.store.records {
      AdmitOneAdds(b, trusted, r, LocalState(sign), ProofOf(sign, r));
    }
  }

  lemma AdmitOneAdds(b: Batch, trusted: Trust, r: Record, state: Admission, proof: Option<Attestation>)
    requires AdmitOne(b, trusted, r, state, proof).Success? && r.id !in b.store.records
    ensures AdmitOne(b, trusted, r, state, proof).value.store.records == b.store.records[r.id := r]
  {
    hide Rank;
  }

  lemma {:induction false} StoreEachKeeps(s: Store, trusted: Trust, sign: Option<Signer>, records: seq<Record>, n: nat)
    requires Valid(s) && n <= |records| && StoreEach(s, trusted, sign, records, n).Success?
    ensures var b := StoreEach(s, trusted, sign, records, n).value; Batching(s, b) && HasRecords(b.store, records[..n])
  {
    hide Batching, Valid, StoreOne;
    if n == 0 {
      BatchStart(s);
    } else {
      StoreEachKeeps(s, trusted, sign, records, n - 1);
      var b := StoreEach(s, trusted, sign, records, n - 1).value;
      StoreOneKeeps(s, b, trusted, sign, records[n - 1]);
      StoreOneHas(b, trusted, sign, records[n - 1]);
      assert records[..n] == records[..n - 1] + [records[n - 1]];
    }
  }

  /** One vault commit: a delivery transaction that files the receipt and holds every record. */
  lemma StoreFrozenKeeps(v: VaultSide, trusted: Trust, sign: Option<Signer>, request: nat, records: seq<Record>,
                         anchor: Id, previous: Option<Ref>)
    requires Valid(v.store) && StoreFrozen(v, trusted, sign, request, records, anchor, previous).Success?
    ensures var w := StoreFrozen(v, trusted, sign, request, records, anchor, previous).value;
      && Txn(v.store, w.store, trusted)
      && w.requests == v.requests[request := Filed(records, anchor)] && HasRecords(w.store, records)
  {
    hide Txn, Valid, Batching, StoreOne, PreviousRefused, NoDangling, Requeue;
    if request in v.requests {
      Unchanged(v.store, trusted);
      assert v.requests == v.requests[request := Filed(records, anchor)];
    } else {
      StoreEachKeeps(v.store, trusted, sign, records, |records|);
      assert records[..|records|] == records;
      var b := StoreEach(v.store, trusted, sign, records, |records|).value;
      RequeueKeepsRecords(b.store, trusted, b.upgraded);
      BatchBecomesTxn(v.store, b, trusted);
    }
  }

  lemma RequeueKeepsRecords(s: Store, trusted: Trust, seeds: set<Id>)
    ensures Requeue(s, trusted, seeds).records == s.records
    ensures NoDangling(Requeue(s, trusted, seeds)) == NoDangling(s)
  {
  }

  // ----- every control transaction keeps the world -----

  /** Handles without a plan may come, go and change. */
  ghost predicate SamePlans(c: Control, d: Control) {
    && d.journal == c.journal
    && (forall job :: job in c.journal.jobs && job in c.turns ==> job in d.turns && d.turns[job] == c.turns[job])
    && (forall h :: h in d.turns && d.turns[h].phase in {Pending, Done} ==> h in c.turns && c.turns[h] == d.turns[h])
  }

  lemma SamePlansKeep(w: Stores, d: Control)
    requires StoresValid(w) && SamePlans(w.control, d) && StagedWhole(d)
    ensures StoresValid(w.(control := d))
  {
    hide JournalValid, TurnFits, LoadEntry, Kept, Valid, PlanFrozen;
  }

  lemma NoPlanYet(c: Control, h: Job)
    requires TurnsFit(c) && (h !in c.turns || c.turns[h].phase in {Staged, Aborted})
    ensures h !in c.journal.jobs
  {
    hide LoadEntry;
  }

  /** The ways the control database changes without accepting a turn. */
  ghost predicate SideStep(c: Control, d: Control) {
    || (exists s :: OpenSession(c, s) == Success(d))
    || (exists s :: CloseSession(c, s) == Success(d))
    || (exists s, handle, drawn, user, capture, now ::
          drawn !in c.turns && TakeInput(c, s, handle, drawn, user, capture, now) == Success(d))
    || (exists s, handle, reason :: Abort(c, s, handle, reason) == Success(d))
  }

  ghost predicate PlansOnlyAccepted(c: Control) {
    forall h :: h !in c.turns || c.turns[h].phase in {Staged, Aborted} ==> h !in c.journal.jobs
  }

  lemma OpenIsSame(c: Control, d: Control, s: Scope)
    requires StagedWhole(c) && OpenSession(c, s) == Success(d)
    ensures SamePlans(c, d) && StagedWhole(d)
  {
  }

  lemma CloseIsSame(c: Control, d: Control, s: Scope)
    requires StagedWhole(c) && PlansOnlyAccepted(c) && CloseSession(c, s) == Success(d)
    ensures SamePlans(c, d) && StagedWhole(d)
  {
  }

  lemma InputIsSame(c: Control, d: Control, s: Scope, handle: Option<Job>, drawn: Job, user: Text, capture: bool,
                    now: nat)
    requires StagedWhole(c) && PlansOnlyAccepted(c) && drawn !in c.turns
    requires TakeInput(c, s, handle, drawn, user, capture, now) == Success(d)
    ensures SamePlans(c, d) && StagedWhole(d)
  {
    hide BudgetRefused, TurnRefused;
  }

  lemma AbortIsSame(c: Control, d: Control, s: Scope, handle: Job, reason: Reason)
    requires StagedWhole(c) && PlansOnlyAccepted(c) && Abort(c, s, handle, reason) == Success(d)
    ensures SamePlans(c, d) && StagedWhole(d)
  {
  }

  lemma SideStepKeeps(w: Stores, d: Control)
    requires StoresValid(w) && SideStep(w.control, d)
    ensures StoresValid(w.(control := d))
  {
    var c := w.control;
    assert PlansOnlyAccepted(c) by {
      forall h | h !in c.turns || c.turns[h].phase in {Staged, Aborted}
        ensures h !in c.journal.jobs
      {
        NoPlanYet(c, h);
      }
    }
    assert StagedWhole(c);
    SideStepIsSame(c, d);
    SamePlansKeep(w, d);
  }

  lemma SideStepIsSame(c: Control, d: Control)
    requires StagedWhole(c) && PlansOnlyAccepted(c) && SideStep(c, d)
    ensures SamePlans(c, d) && StagedWhole(d)
  {
    hide StagedWhole, PlansOnlyAccepted, SamePlans, OpenSession, CloseSession, TakeInput, Abort;
    if exists s :: OpenSession(c, s) == Success(d) {
      var s :| OpenSession(c, s) == Success(d);
      OpenIsSame(c, d, s);
    } else if exists s :: CloseSession(c, s) == Success(d) {
      var s :| CloseSession(c, s) == Success(d);
      CloseIsSame(c, d, s);
    } else if exists s, handle, reason :: Abort(c, s, handle, reason) == Success(d) {
      var s, handle, reason :| Abort(c, s, handle, reason) == Success(d);
      AbortIsSame(c, d, s, handle, reason);
    } else {
      var s, handle, drawn, user, capture, now :|
        drawn !in c.turns && TakeInput(c, s, handle, drawn, user, capture, now) == Success(d);
      InputIsSame(c, d, s, handle, drawn, user, capture, now);
    }
  }

  /** Accepting adds one plan under an unused handle and an unused receipt, or repeats an answer. */
  ghost predicate AcceptStep(c: Control, d: Control, v: VaultSide) {
    exists session, handle, user, assistant, draw :: Accepts(c, d, v, session, handle, user, assistant, draw)
  }

  ghost predicate Accepts(c: Control, d: Control, v: VaultSide, session: Scope, handle: Option<Job>, user: Option<Text>,
                          assistant: Text, draw: Draw)
  {
    && draw.handle !in c.turns && draw.receipt !in v.requests
    && (forall job :: job in c.journal.jobs ==> c.journal.jobs[job].header.request != draw.receipt)
    && CommitTurn(c, session, handle, user, assistant, draw) == Success(d)
  }

  /** What a committed turn adds. */
  ghost predicate Adds(c: Control, d: Control, turn: Job, ask: Ask, now: nat, build: Builder) {
    && turn !in c.journal.jobs && ask.job == turn && ask.profile == TURN_PROFILE
    && Freeze(c.journal, ask, now, build).Success?
    && var f := Freeze(c.journal, ask, now, build).value;
      && d.journal == f.journal && d.turns.Keys == c.turns.Keys + {turn}
      && (forall h :: h in c.turns && h != turn ==> d.turns[h] == c.turns[h])
      && d.turns[turn].phase == Pending && d.turns[turn].session == ask.scope && d.turns[turn].memory.None?
      && d.turns[turn].receipt == Some(ask.request) && d.turns[turn].created == f.plan.header.created
      && ask.input == Input(d.turns[turn].user, d.turns[turn].assistant)
      && d.turns[turn].user == Some(d.turns[turn].userSha)
      && d.turns[turn].assistant.Some? && d.turns[turn].assistant == d.turns[turn].assistantSha
  }

  // ----- accepting -----

  lemma CommitAdds(c: Control, session: Scope, handle: Option<Job>, user: Option<Text>, assistant: Text, draw: Draw,
                   d: Control)
    requires TurnsFit(c) && StagedWhole(c) && draw.handle !in c.turns
    requires CommitTurn(c, session, handle, user, assistant, draw) == Success(d)
    ensures d == c || exists turn, ask :: Adds(c, d, turn, ask, draw.now, draw.build) && ask.request == draw.receipt
  {
    hide LoadEntry, BudgetRefused, Freeze, TurnFits;
    if !(handle.Some? && c.turns[handle.value].phase in {Pending, Done}) {
      var seen := if user.Some? then user else c.turns[handle.value].user;
      var turn := if handle.Some? then handle.value else draw.handle;
      NoPlanYet(c, turn);
      assert Adds(c, d, turn, AskFor(session, turn, seen.value, assistant, draw), draw.now, draw.build);
    }
  }

  lemma {:induction false} UnsavedBodies(rows: seq<Row>)
    requires RowsRefused(rows, false).None?
    ensures |Bodies(rows)| == |rows| && RefsOf(Bodies(rows)) == RowRefs(rows)
  {
    if rows != [] {
      UnsavedBodies(rows[..|rows| - 1]);
    }
  }

  /** A plan that loads unsaved holds the records it was frozen with. */
  lemma UnsavedIsWhole(e: Entry)
    requires LoadEntry(e).Success? && !e.header.saved
    ensures LoadEntry(e).value.records != [] && LoadEntry(e).value.records == e.header.projection.records
    ensures PlanFrozen(e)
  {
    UnsavedBodies(e.rows);
    hide Bodies, RowRefs, RowsRefused;
  }

  lemma AddsFits(c: Control, d: Control, turn: Job, ask: Ask, now: nat, build: Builder)
    requires JournalValid(c.journal) && Adds(c, d, turn, ask, now, build)
    ensures JournalValid(d.journal)
    ensures exists e :: d.journal.jobs == c.journal.jobs[turn := e] && LoadEntry(e).Success? && !e.header.saved
                        && e.header.request == ask.request && TurnFits(turn, d.turns[turn], LoadEntry(e).value)
  {
    hide Freeze, JournalValid, LoadEntry, Runs.NamesHead, Runs.Fits, PlanFrozen, TurnFits;
    assert Loads(c.journal) by { ValidLoads(c.journal); }
    Runs.FreezeKeeps(c.journal, ask, now, build);
    Runs.FreezeAccepts(c.journal, ask, now, build);
    Runs.FreshHolds(c.journal, ask, now, build);
    var f := Freeze(c.journal, ask, now, build).value;
    var h, rows := f.plan.header, Runs.RowsOf(f, ask.job);
    UnsavedIsWhole(Entry(h, rows));
    LoadNames(Entry(h, rows));
    NewTurnFits(c, d, turn, ask, now, build, f.plan);
    assert d.journal.jobs == c.journal.jobs[turn := Entry(h, rows)];
  }

  lemma ValidLoads(j: Journal)
    requires JournalValid(j)
    ensures Loads(j)
  {
  }

  lemma NewTurnFits(c: Control, d: Control, turn: Job, ask: Ask, now: nat, build: Builder, p: Plan)
    requires Adds(c, d, turn, ask, now, build) && p == Freeze(c.journal, ask, now, build).value.plan
    requires SameAsk(p.header, ask) && p.header.job == ask.job && !p.header.saved && p.records != []
    ensures TurnFits(turn, d.turns[turn], p)
  {
    hide Freeze;
  }

  lemma AddsKeep(w: Stores, d: Control, turn: Job, ask: Ask, now: nat, build: Builder)
    requires StoresValid(w) && Adds(w.control, d, turn, ask, now, build)
    requires ask.request !in w.vault.requests
    requires forall job :: job in w.control.journal.jobs ==> w.control.journal.jobs[job].header.request != ask.request
    ensures StoresValid(w.(control := d))
  {
    AddsFits(w.control, d, turn, ask, now, build);
    var c := w.control;
    var e :| d.journal.jobs == c.journal.jobs[turn := e] && LoadEntry(e).Success? && !e.header.saved
             && e.header.request == ask.request && TurnFits(turn, d.turns[turn], LoadEntry(e).value);
    UnsavedIsWhole(e);
    hide LoadEntry, JournalValid, Freeze, TurnFits, PlanFrozen, Valid, HasRecords;
    AddsTurns(c, d, turn, ask, now, build, e);
    AddsOthers(c, d, w.vault, turn, e);
    hide TurnsFit, AcceptedHavePlans, StagedWhole, PlansFrozen, OwnRequests, SavedInOrder, AllKept, Adds;
  }

  lemma AddsTurns(c: Control, d: Control, turn: Job, ask: Ask, now: nat, build: Builder, e: Entry)
    requires Adds(c, d, turn, ask, now, build) && d.journal.jobs == c.journal.jobs[turn := e]
    requires LoadEntry(e).Success? && TurnFits(turn, d.turns[turn], LoadEntry(e).value) && PlanFrozen(e)
    requires TurnsFit(c) && AcceptedHavePlans(c) && StagedWhole(c) && PlansFrozen(c)
    ensures TurnsFit(d) && AcceptedHavePlans(d) && StagedWhole(d) && PlansFrozen(d)
  {
    hide LoadEntry, Freeze, TurnFits, PlanFrozen;
  }

  lemma AddsOthers(c: Control, d: Control, v: VaultSide, turn: Job, e: Entry)
    requires d.journal.jobs == c.journal.jobs[turn := e] && turn !in c.journal.jobs && !e.header.saved
    requires e.header.request !in v.requests
    requires forall job :: job in c.journal.jobs ==> c.journal.jobs[job].header.request != e.header.request
    requires OwnRequests(c) && SavedInOrder(c) && AllKept(c, v)
    ensures OwnRequests(d) && SavedInOrder(d) && AllKept(d, v)
  {
    hide HasRecords;
  }

  // ----- materialising -----

  lemma PreparedPlan(c: Control, handle: Job, p: Plan)
    requires TurnsFit(c) && Prepare(c, handle) == Success(ToStore(p))
    ensures handle in c.turns && handle in c.journal.jobs && LoadEntry(c.journal.jobs[handle]) == Success(p)
    ensures p.header == c.journal.jobs[handle].header && !p.header.saved && c.turns[handle].phase == Pending
    ensures p.records == p.header.projection.records
    ensures p.header.previous.Some? ==>
              && p.header.previous.value.job in c.journal.jobs
              && c.journal.jobs[p.header.previous.value.job].header.saved
              && p.header.previous.value.continuity in RowRefs(c.journal.jobs[p.header.previous.value.job].rows)
              && p.header.previous.value.continuity.id == c.journal.jobs[p.header.previous.value.job].header.continuity
  {
    LoadNames(c.journal.jobs[handle]);
    UnsavedIsWhole(c.journal.jobs[handle]);
    if p.header.previous.Some? {
      LoadNames(c.journal.jobs[p.header.previous.value.job]);
    }
    hide LoadEntry, RowRefs;
  }

  /** The vault commit alone: the plan is still pending, its receipt already filed. */
  lemma VaultCommitKeeps(w: Stores, v: VaultSide, handle: Job, p: Plan, trusted: Trust)
    requires StoresValid(w) && handle in w.control.journal.jobs && p.header == w.control.journal.jobs[handle].header
    requires p.records == p.header.projection.records
    requires Txn(w.vault.store, v.store, trusted) && HasRecords(v.store, p.records)
    requires v.requests == w.vault.requests[p.header.request := Filed(p.records, p.header.episode)]
    ensures StoresValid(w.(vault := v)) && p.header.request in v.requests
  {
    hide JournalValid, TurnsFit, AcceptedHavePlans, SavedInOrder, StagedWhole, PlansFrozen, Valid, Announces, Unblocks;
    forall job | job in w.control.journal.jobs
      ensures Kept(v, w.control.journal.jobs[job].header)
    {
      var h := w.control.journal.jobs[job].header;
      assert Kept(w.vault, h);
      if h.request in w.vault.requests {
        RecordsStay(w.vault.store, v.store, trusted, h.projection.records);
      }
    }
  }

  lemma RecordsStay(s: Store, t: Store, trusted: Trust, records: seq<Record>)
    requires Txn(s, t, trusted) && HasRecords(s, records)
    ensures HasRecords(t, records)
  {
  }

  /** The control commit after it. */
  lemma SettleKeeps(w: Stores, handle: Job, p: Plan)
    requires StoresValid(w) && Prepare(w.control, handle) == Success(ToStore(p)) && p.header.request in w.vault.requests
    ensures MarkSaved(w.control.journal, handle).Success?
    ensures StoresValid(w.(control := Settled(w.control, handle, p)))
  {
    PreparedPlan(w.control, handle, p);
    var c := w.control;
    var e := c.journal.jobs[handle];
    assert MarkSaved(c.journal, handle).Success?;
    Runs.SavedKeeps(c.journal, handle);
    ClearedFits(c, handle, p);
    KeptAnyway(w.vault, e.header);
    hide LoadEntry, JournalValid, TurnFits, PlanFrozen, Valid, Kept, RowRefs, Prepare;
    var d := Settled(c, handle, p);
    SettledStays(c, d, w.vault, handle, e);
    SettledTurns(c, d, handle, e);
    hide TurnsFit, AcceptedHavePlans, StagedWhole, PlansFrozen, OwnRequests, SavedInOrder, AllKept, Settled;
  }

  lemma SettledTurns(c: Control, d: Control, handle: Job, e: Entry)
    requires handle in c.turns && handle in c.journal.jobs && e == c.journal.jobs[handle]
    requires handle in d.turns && d.turns == c.turns[handle := d.turns[handle]] && d.turns[handle].phase == Done
    requires var f := Entry(e.header.(saved := true), Cleared(e.rows));
      d.journal.jobs == c.journal.jobs[handle := f]
      && LoadEntry(f).Success? && TurnFits(handle, d.turns[handle], LoadEntry(f).value) && PlanFrozen(f)
    requires TurnsFit(c) && AcceptedHavePlans(c) && StagedWhole(c) && PlansFrozen(c)
    ensures TurnsFit(d) && AcceptedHavePlans(d) && StagedWhole(d) && PlansFrozen(d)
  {
    hide LoadEntry, TurnFits, PlanFrozen;
  }

  lemma KeptAnyway(v: VaultSide, h: Header)
    ensures Kept(v, h) == Kept(v, h.(saved := true))
  {
  }

  lemma ClearedFits(c: Control, handle: Job, p: Plan)
    requires handle in c.turns && handle in c.journal.jobs && LoadEntry(c.journal.jobs[handle]) == Success(p)
    requires TurnFits(handle, c.turns[handle], p) && PlanFrozen(c.journal.jobs[handle])
    ensures var e := c.journal.jobs[handle];
      var f := Entry(e.header.(saved := true), Cleared(e.rows));
      var t := c.turns[handle].(phase := Done, user := None, assistant := None, memory := Some(p.header.episode));
      LoadEntry(f).Success? && TurnFits(handle, t, LoadEntry(f).value) && PlanFrozen(f)
  {
    hide LoadEntry, RowRefs, RefsOf, PlanFrozen;
    var e := c.journal.jobs[handle];
    LoadNames(e);
    Runs.ClearedLoads(e);
    ClearedFrozen(e);
  }

  lemma ClearedFrozen(e: Entry)
    requires PlanFrozen(e)
    ensures PlanFrozen(Entry(e.header.(saved := true), Cleared(e.rows)))
  {
    Runs.BareRows(e.rows);
    SavedProjection(e.header, e.header.projection.records);
    hide RowRefs, RefsOf, ProjectionRefused;
  }

  lemma SavedProjection(h: Header, records: seq<Record>)
    ensures ProjectionRefused(h.(saved := true), records) == ProjectionRefused(h, records)
  {
    hide Ids, DistinctIds, SameEdges;
  }

  lemma SettledStays(c: Control, d: Control, v: VaultSide, handle: Job, e: Entry)
    requires handle in c.journal.jobs && e == c.journal.jobs[handle]
    requires d.journal.jobs == c.journal.jobs[handle := Entry(e.header.(saved := true), Cleared(e.rows))]
    requires OwnRequests(c) && SavedInOrder(c) && AllKept(c, v)
    requires Kept(v, e.header.(saved := true)) && e.header.request in v.requests
    requires e.header.previous.Some? ==>
               e.header.previous.value.job in c.journal.jobs && c.journal.jobs[e.header.previous.value.job].header.saved
    ensures OwnRequests(d) && SavedInOrder(d) && AllKept(d, v)
  {
    hide Kept;
  }

  /** Materialising keeps both stores in step, wherever it stops. */
  lemma MaterializeKeeps(w: Stores, trusted: Trust, sign: Option<Signer>, handle: Job, commits: nat)
    requires StoresValid(w)
    ensures StoresValid(Materialize(w, trusted, sign, handle, commits).world)
  {
    hide StoresValid, Prepare, StoreFrozen, MarkSaved, Settled;
    if Prepare(w.control, handle).Success? && Prepare(w.control, handle).value.ToStore? {
      var p := Prepare(w.control, handle).value.plan;
      ToStoreKeeps(w, trusted, sign, handle, p);
    }
  }

  lemma ToStoreKeeps(w: Stores, trusted: Trust, sign: Option<Signer>, handle: Job, p: Plan)
    requires StoresValid(w) && Prepare(w.control, handle) == Success(ToStore(p))
    ensures MarkSaved(w.control.journal, handle).Success? && handle in w.control.turns
    ensures var r := StoreFrozen(w.vault, trusted, sign, p.header.request, p.records, p.header.episode,
                                 PreviousRef(p.header));
      r.Success? ==>
        StoresValid(w.(vault := r.value)) && StoresValid(Stores(Settled(w.control, handle, p), r.value))
  {
    PreparedPlan(w.control, handle, p);
    assert MarkSaved(w.control.journal, handle).Success?;
    hide Prepare, StoreFrozen, MarkSaved, Settled, TurnsFit, JournalValid, LoadEntry, RowRefs, Txn, Valid, HasRecords;
    var r := StoreFrozen(w.vault, trusted, sign, p.header.request, p.records, p.header.episode, PreviousRef(p.header));
    if r.Success? {
      StoreFrozenKeeps(w.vault, trusted, sign, p.header.request, p.records, p.header.episode, PreviousRef(p.header));
      VaultCommitKeeps(w, r.value, handle, p, trusted);
      SettleKeeps(w.(vault := r.value), handle, p);
    }
  }

  // ----- runs -----

  /** The vault's other users file their receipts under other request ids. */
  ghost predicate VaultStep(w: Stores, x: Stores, trusted: Trust) {
    && x == w.(vault := x.vault) && Txn(w.vault.store, x.vault.store, trusted)
    && forall job :: job in w.control.journal.jobs ==>
         var k := w.control.journal.jobs[job].header.request;
         (k in w.vault.requests <==> k in x.vault.requests)
         && (k in w.vault.requests ==> w.vault.requests[k] == x.vault.requests[k])
  }

  ghost predicate StoresStep(w: Stores, x: Stores, trusted: Trust, sign: Option<Signer>) {
    || (SideStep(w.control, x.control) && x.vault == w.vault)
    || (AcceptStep(w.control, x.control, w.vault) && x.vault == w.vault)
    || (exists handle, commits :: x == Materialize(w, trusted, sign, handle, commits).world)
    || VaultStep(w, x, trusted)
  }

  ghost predicate StoresRun(run: seq<Stores>, trusted: Trust, sign: Option<Signer>) {
    |run| > 0 && run[0] == START && forall i :: 0 <= i < |run| - 1 ==> StoresStep(run[i], run[i + 1], trusted, sign)
  }

  lemma AcceptKeeps(w: Stores, d: Control)
    requires StoresValid(w) && AcceptStep(w.control, d, w.vault)
    ensures StoresValid(w.(control := d))
  {
    hide Adds, CommitTurn, JournalValid, TurnsFit, AcceptedHavePlans, OwnRequests, SavedInOrder, AllKept,
      PlansFrozen, Valid, StagedWhole;
    var session, handle, user, assistant, draw :|
      Accepts(w.control, d, w.vault, session, handle, user, assistant, draw);
    CommitAdds(w.control, session, handle, user, assistant, draw, d);
    if d != w.control {
      var turn, ask :| Adds(w.control, d, turn, ask, draw.now, draw.build) && ask.request == draw.receipt;
      AddsKeep(w, d, turn, ask, draw.now, draw.build);
    }
  }

  lemma VaultStepKeeps(w: Stores, x: Stores, trusted: Trust)
    requires StoresValid(w) && VaultStep(w, x, trusted)
    ensures StoresValid(x)
  {
    hide JournalValid, TurnsFit, AcceptedHavePlans, OwnRequests, SavedInOrder, PlansFrozen, Valid, Announces,
      Unblocks, StagedWhole;
    forall job | job in w.control.journal.jobs
      ensures Kept(x.vault, w.control.journal.jobs[job].header)
    {
      var h := w.control.journal.jobs[job].header;
      assert Kept(w.vault, h);
      if h.request in w.vault.requests {
        RecordsStay(w.vault.store, x.vault.store, trusted, h.projection.records);
      }
    }
  }

  lemma StartIsValid()
    ensures StoresValid(START)
  {
    Runs.EmptyIsValid();
    EmptyStoreIsValid();
    hide JournalValid, Valid, TurnFits, LoadEntry, Kept, PlanFrozen;
  }

  lemma EmptyStoreIsValid()
    ensures Valid(EMPTY)
  {
  }

  lemma {:induction false} StoresRunKeeps(run: seq<Stores>, trusted: Trust, sign: Option<Signer>, i: nat)
    requires StoresRun(run, trusted, sign) && i < |run|
    ensures StoresValid(run[i])
  {
    hide StoresValid, SideStep, AcceptStep, VaultStep, Materialize;
    if i == 0 {
      StartIsValid();
    } else {
      StoresRunKeeps(run, trusted, sign, i - 1);
      var w, x := run[i - 1], run[i];
      assert StoresStep(run[i - 1], run[i - 1 + 1], trusted, sign);
      if SideStep(w.control, x.control) && x.vault == w.vault {
        SideStepKeeps(w, x.control);
      } else if AcceptStep(w.control, x.control, w.vault) && x.vault == w.vault {
        AcceptKeeps(w, x.control);
      } else if VaultStep(w, x, trusted) {
        VaultStepKeeps(w, x, trusted);
      } else {
        var handle, commits :| x == Materialize(w, trusted, sign, handle, commits).world;
        MaterializeKeeps(w, trusted, sign, handle, commits);
      }
    }
  }

  // ----- what a run therefore guarantees -----

  /** A plan is saved exactly when its turn is done; no accepted turn is ever aborted; and a
      saved plan's records and receipt are in the vault under its own projection. */
  lemma SavedMeansStored(run: seq<Stores>, trusted: Trust, sign: Option<Signer>, i: nat, job: Job)
    requires StoresRun(run, trusted, sign) && i < |run| && job in run[i].control.journal.jobs
    ensures var w := run[i];
      var e := w.control.journal.jobs[job];
      && job in w.control.turns && w.control.turns[job].phase in {Pending, Done}
      && (w.control.turns[job].phase == Done <==> e.header.saved)
      && (e.header.saved ==>
            && e.header.request in w.vault.requests
            && w.vault.requests[e.header.request] == Filed(e.header.projection.records, e.header.episode)
            && HasRecords(w.vault.store, e.header.projection.records)
            && RowRefs(e.rows) == RefsOf(e.header.projection.records))
  {
    StoresRunKeeps(run, trusted, sign, i);
    LoadNames(run[i].control.journal.jobs[job]);
    hide StoresRun, JournalValid, AcceptedHavePlans, OwnRequests, SavedInOrder, StagedWhole, Valid, LoadEntry,
      HasRecords,
      ProjectionRefused, RefsOf, RowRefs;
  }

  /** Along a session, everything before a saved plan is saved. */
  lemma {:induction false} SavedIsPrefix(w: Stores, a: Job, b: Job)
    requires StoresValid(w) && a in w.control.journal.jobs && b in w.control.journal.jobs
    requires var j := w.control.journal.jobs;
      j[a].header.scope == j[b].header.scope && j[a].header.sequence <= j[b].header.sequence && j[b].header.saved
    ensures w.control.journal.jobs[a].header.saved
    decreases w.control.journal.jobs[b].header.sequence
  {
    var j := w.control.journal;
    hide Loads, WithinLimits, HeadsAtTips, RowRefs, TurnsFit, AcceptedHavePlans, OwnRequests, StagedWhole,
      PlansFrozen, Valid, AllKept;
    assert Linked(j, b);
    if a != b {
      Runs.LoadedFits(j);
      SavedIsPrefix(w, a, j.jobs[b].header.previous.value.job);
    }
  }

  /** The condition of the flush query on a pending turn. */
  predicate Eligible(c: Control, h: Job) {
    && h in c.turns && c.turns[h].phase == Pending
    && (h in c.journal.jobs && c.journal.jobs[h].header.previous.Some? ==>
          var p := c.journal.jobs[h].header.previous.value.job;
          p in c.journal.jobs && c.journal.jobs[p].header.saved && p in c.turns && c.turns[p].phase == Done)
  }

  /** Going back along predecessors from a pending turn ends at an eligible one. */
  lemma {:induction false} PendingHasEligible(w: Stores, h: Job) returns (ready: Job)
    requires StoresValid(w) && h in w.control.turns && w.control.turns[h].phase == Pending
    ensures Eligible(w.control, ready)
    decreases if h in w.control.journal.jobs then w.control.journal.jobs[h].header.sequence else 0
  {
    var c := w.control;
    hide Loads, WithinLimits, HeadsAtTips, RowRefs, OwnRequests, StagedWhole, PlansFrozen, Valid, AllKept,
      LoadEntry, UniqueSequences;
    ready := h;
    assert h in c.journal.jobs && Linked(c.journal, h);
    if c.journal.jobs[h].header.previous.Some? {
      var p := c.journal.jobs[h].header.previous.value.job;
      PlanOfTurn(c, p);
      if c.turns[p].phase == Pending {
        ready := PendingHasEligible(w, p);
      }
    }
  }

  lemma PlanOfTurn(c: Control, job: Job)
    requires TurnsFit(c) && job in c.journal.jobs
    ensures job in c.turns && Load(c.journal, job).Success? && Load(c.journal, job).value.Some?
    ensures var p := Load(c.journal, job).value.value;
      TurnFits(job, c.turns[job], p) && p.header == c.journal.jobs[job].header
      && p.refs == RowRefs(c.journal.jobs[job].rows)
    ensures c.turns[job].phase in {Pending, Done} && (c.turns[job].phase == Done <==> c.journal.jobs[job].header.saved)
  {
    LoadNames(c.journal.jobs[job]);
    hide LoadEntry, RowRefs;
  }

  /** The control checks never stop an eligible turn: in particular its predecessor is not pending. */
  lemma EligibleIsReady(w: Stores, h: Job)
    requires StoresValid(w) && Eligible(w.control, h)
    ensures Prepare(w.control, h).Success? && Prepare(w.control, h).value.ToStore?
  {
    var c := w.control;
    hide WithinLimits, HeadsAtTips, OwnRequests, SavedInOrder, StagedWhole, PlansFrozen, Valid, AllKept, LoadEntry,
      UniqueSequences,
      TurnFits, Load, RowRefs, Loads;
    assert h in c.journal.jobs && Linked(c.journal, h);
    PlanOfTurn(c, h);
    if c.journal.jobs[h].header.previous.Some? {
      PlanOfTurn(c, c.journal.jobs[h].header.previous.value.job);
    }
  }

  /** The flush query finds a turn whenever one is pending, and that turn is not refused. */
  lemma FlushNeverStuck(run: seq<Stores>, trusted: Trust, sign: Option<Signer>, i: nat, h: Job)
    requires StoresRun(run, trusted, sign) && i < |run|
    requires h in run[i].control.turns && run[i].control.turns[h].phase == Pending
    ensures exists ready :: Eligible(run[i].control, ready) && Prepare(run[i].control, ready).Success?
  {
    StoresRunKeeps(run, trusted, sign, i);
    var ready := PendingHasEligible(run[i], h);
    EligibleIsReady(run[i], ready);
  }

  lemma FrozenContinuity(e: Entry, ref: Ref)
    requires PlanFrozen(e) && ref in RowRefs(e.rows) && ref.id == e.header.continuity
    ensures exists r :: r in e.header.projection.records && RefOf(r) == ref && r.kind == Continuity
  {
    var records := e.header.projection.records;
    var i :| 0 <= i < |RefsOf(records)| && RefsOf(records)[i] == ref;
    assert records[i] in records && RefOf(records[i]) == ref;
    hide RefsOf, RowRefs, Ids, Digest, SameEdges;
  }

  /** The vault shows every record the plan refers to, and the one it continues. */
  ghost predicate AllShown(s: Store, trusted: Trust, p: Plan) {
    && (forall ref :: ref in p.refs ==> RankOf(s, trusted, ref.id) > 0)
    && (p.header.previous.Some? ==> RankOf(s, trusted, p.header.previous.value.continuity.id) > 0)
  }

  predicate PriorShown(s: Store, trusted: Trust, h: Header) {
    h.previous.Some? ==> RankOf(s, trusted, h.previous.value.continuity.id) > 0
  }

  lemma PreviousIsStored(w: Stores, trusted: Trust, h: Job, p: Plan)
    requires StoresValid(w) && Prepare(w.control, h) == Success(ToStore(p))
    ensures PreviousRefused(w.vault.store, trusted, PreviousRef(p.header))
            == if PriorShown(w.vault.store, trusted, p.header) then None else Some(EvidenceNotAdmitted)
  {
    PreparedPlan(w.control, h, p);
    hide Prepare, JournalValid, TurnsFit, AcceptedHavePlans, OwnRequests, SavedInOrder, StagedWhole, Valid, RowRefs,
      RankOf, PlanFrozen;
    if p.header.previous.Some? {
      var q := w.control.journal.jobs[p.header.previous.value.job];
      FrozenContinuity(q, p.header.previous.value.continuity);
      assert Kept(w.vault, q.header);
    }
  }

  /** Wherever the last attempt stopped, a turn whose receipt reached the vault becomes done on the
      next one exactly while all its records and the one it continues are shown, with nothing stored
      twice; otherwise it is held back, and for nothing else. */
  lemma RetryNeverConflicts(w: Stores, trusted: Trust, sign: Option<Signer>, h: Job, p: Plan)
    requires StoresValid(w) && Prepare(w.control, h) == Success(ToStore(p)) && p.header.request in w.vault.requests
    ensures StoreFrozen(w.vault, trusted, sign, p.header.request, p.records, p.header.episode, PreviousRef(p.header))
            == if AllShown(w.vault.store, trusted, p) then Success(w.vault) else Failure(EvidenceNotAdmitted)
    ensures var o := Materialize(w, trusted, sign, h, 2);
      if AllShown(w.vault.store, trusted, p) then
        && o.error.None? && h in o.world.control.turns && o.world.control.turns[h].phase == Done
        && o.world.vault == w.vault
      else o == Outcome(w, Some(EvidenceNotAdmitted))
  {
    hide StoresValid, Prepare, StoreFrozen, Kept, MarkSaved, PreviousRefused, AllShown, PriorShown;
    PreviousIsStored(w, trusted, h, p);
    PreparedIsKept(w, h, p);
    ToStoreKeeps(w, trusted, sign, h, p);
    ShownRecords(w.vault.store, trusted, p);
    FiledAgain(w.vault, trusted, sign, p);
  }

  lemma PreparedIsKept(w: Stores, h: Job, p: Plan)
    requires StoresValid(w) && Prepare(w.control, h) == Success(ToStore(p))
    ensures Kept(w.vault, p.header) && p.records == p.header.projection.records && p.refs == RefsOf(p.records)
    ensures h in w.control.turns && h in w.control.journal.jobs
  {
    PreparedPlan(w.control, h, p);
    hide Prepare, Kept, JournalValid, TurnsFit, AcceptedHavePlans, OwnRequests, SavedInOrder, StagedWhole, Valid,
      RowRefs, LoadEntry, RefsOf, ProjectionRefused;
    LoadNames(w.control.journal.jobs[h]);
    assert PlanFrozen(w.control.journal.jobs[h]);
  }

  lemma ShownRecords(s: Store, trusted: Trust, p: Plan)
    requires p.refs == RefsOf(p.records)
    ensures AllShown(s, trusted, p) <==>
              PriorShown(s, trusted, p.header) && forall r :: r in p.records ==> RankOf(s, trusted, r.id) > 0
  {
    hide RankOf;
    forall r | r in p.records
      ensures RefOf(r) in p.refs
    {
      var i :| 0 <= i < |p.records| && p.records[i] == r;
      assert p.refs[i] == RefOf(r);
    }
  }

  lemma FiledAgain(v: VaultSide, trusted: Trust, sign: Option<Signer>, p: Plan)
    requires Kept(v, p.header) && p.header.request in v.requests && p.records == p.header.projection.records
    requires PreviousRefused(v.store, trusted, PreviousRef(p.header))
             == if PriorShown(v.store, trusted, p.header) then None else Some(EvidenceNotAdmitted)
    ensures StoreFrozen(v, trusted, sign, p.header.request, p.records, p.header.episode, PreviousRef(p.header))
            == if PriorShown(v.store, trusted, p.header)
                  && forall r :: r in p.records ==> RankOf(v.store, trusted, r.id) > 0
               then Success(v) else Failure(EvidenceNotAdmitted)
  {
    hide PreviousRefused, HasRecords, RankOf, StoreEach, PriorShown;
  }

  // ----- storing for the first time -----

  /** A record the loop takes: stored already and shown, or new with its targets present and a fitting
      proof. */
  predicate Storable(s: Store, trusted: Trust, sign: Option<Signer>, records: seq<Record>, j: nat)
    requires j < |records|
  {
    var r := records[j];
    if r.id in s.records then s.records[r.id] == r && RankOf(s, trusted, r.id) > 0
    else Targets(r) <= s.records.Keys + Ids(records[..j]) && AttestationFits(r, LocalState(sign), ProofOf(sign, r))
  }

  /** Part way: the records read are stored, the old ones with their old ranks. */
  ghost predicate Storing(s: Store, t: Store, trusted: Trust, records: seq<Record>, n: nat) {
    && n <= |records| && t.records.Keys == s.records.Keys + Ids(records[..n])
    && forall id :: id in s.records ==>
         t.records[id] == s.records[id] && RankOf(t, trusted, id) == RankOf(s, trusted, id)
  }

  lemma StoreOneTakes(s: Store, b: Batch, trusted: Trust, sign: Option<Signer>, records: seq<Record>, n: nat)
    requires DistinctIds(records) && n < |records| && Storing(s, b.store, trusted, records, n)
    ensures var c := StoreOne(b, trusted, sign, records[n]);
      && (c.Success? <==> Storable(s, trusted, sign, records, n))
      && (c.Success? ==> Storing(s, c.value.store, trusted, records, n + 1))
  {
    hide DistinctIds, Ids, RankOf, Targets, AttestationFits, AdmitOne, Storing;
    var r := records[n];
    StoringAt(s, b.store, trusted, records, n);
    if r.id in s.records {
      StoringOld(s, b.store, trusted, records, n);
    } else {
      AdmitNew(b, trusted, r, LocalState(sign), ProofOf(sign, r));
      var c := AdmitOne(b, trusted, r, LocalState(sign), ProofOf(sign, r));
      if c.Success? {
        StoringNew(s, b.store, c.value.store, trusted, records, n);
      }
    }
  }

  lemma StoringAt(s: Store, t: Store, trusted: Trust, records: seq<Record>, n: nat)
    requires DistinctIds(records) && n < |records| && Storing(s, t, trusted, records, n)
    ensures var r := records[n];
      && t.records.Keys == s.records.Keys + Ids(records[..n]) && (r.id in t.records <==> r.id in s.records)
      && (r.id in s.records ==>
            t.records[r.id] == s.records[r.id] && RankOf(t, trusted, r.id) == RankOf(s, trusted, r.id))
  {
    hide RankOf;
    assert records[n].id !in Ids(records[..n]);
  }

  lemma StoringOld(s: Store, t: Store, trusted: Trust, records: seq<Record>, n: nat)
    requires n < |records| && Storing(s, t, trusted, records, n) && records[n].id in s.records
    ensures Storing(s, t, trusted, records, n + 1)
  {
    IdsMore(records, n);
    hide Ids, RankOf;
    assert s.records.Keys + Ids(records[..n + 1]) == s.records.Keys + Ids(records[..n]);
  }

  lemma StoringNew(s: Store, t: Store, u: Store, trusted: Trust, records: seq<Record>, n: nat)
    requires n < |records| && Storing(s, t, trusted, records, n) && records[n].id !in s.records
    requires u.records == t.records[records[n].id := records[n]]
    requires forall id :: id != records[n].id ==> RankOf(u, trusted, id) == RankOf(t, trusted, id)
    ensures Storing(s, u, trusted, records, n + 1)
  {
    IdsMore(records, n);
    hide Ids, RankOf;
    assert u.records.Keys == t.records.Keys + {records[n].id};
  }

  lemma IdsMore(records: seq<Record>, n: nat)
    requires n < |records|
    ensures Ids(records[..n + 1]) == Ids(records[..n]) + {records[n].id}
  {
    assert records[..n + 1] == records[..n] + [records[n]];
    assert forall x :: x in records[..n + 1] <==> x in records[..n] || x == records[n];
  }

  lemma AdmitNew(b: Batch, trusted: Trust, r: Record, state: Admission, proof: Option<Attestation>)
    requires r.id !in b.store.records
    ensures var c := AdmitOne(b, trusted, r, state, proof);
      && (c.Success? <==> AttestationFits(r, state, proof))
      && (c.Success? ==>
            && c.value.store.records == b.store.records[r.id := r]
            && forall id :: id != r.id ==> RankOf(c.value.store, trusted, id) == RankOf(b.store, trusted, id))
  {
    hide Rank;
  }

  lemma {:induction false} StoreEachTakes(s: Store, trusted: Trust, sign: Option<Signer>, records: seq<Record>, n: nat)
    requires DistinctIds(records) && n <= |records|
    ensures var b := StoreEach(s, trusted, sign, records, n);
      && (b.Success? <==> forall j :: 0 <= j < n ==> Storable(s, trusted, sign, records, j))
      && (b.Success? ==> Storing(s, b.value.store, trusted, records, n))
  {
    hide StoreOne, Storing, Storable, DistinctIds;
    if n == 0 {
      assert Storing(s, s, trusted, records, 0) by { NothingStored(s, trusted, records); }
    } else {
      StoreEachTakes(s, trusted, sign, records, n - 1);
      var b := StoreEach(s, trusted, sign, records, n - 1);
      if b.Success? {
        StoreOneTakes(s, b.value, trusted, sign, records, n - 1);
      }
    }
  }

  lemma NothingStored(s: Store, trusted: Trust, records: seq<Record>)
    ensures Storing(s, s, trusted, records, 0)
  {
    assert Ids(records[..0]) == {};
  }

  /** A projection with no receipt yet is stored exactly when the record it continues is stored and
      shown and each of its records can be taken in turn. */
  lemma StoreFrozenAccepts(v: VaultSide, trusted: Trust, sign: Option<Signer>, request: nat, records: seq<Record>,
                           anchor: Id, previous: Option<Ref>)
    requires Valid(v.store) && DistinctIds(records) && request !in v.requests
    ensures StoreFrozen(v, trusted, sign, request, records, anchor, previous).Success? <==>
              && PreviousRefused(v.store, trusted, previous).None?
              && forall j :: 0 <= j < |records| ==> Storable(v.store, trusted, sign, records, j)
  {
    hide Valid, PreviousRefused, Storable, DistinctIds, StoreEach, Storing, NoDangling, Requeue;
    StoreEachTakes(v.store, trusted, sign, records, |records|);
    var b := StoreEach(v.store, trusted, sign, records, |records|);
    if b.Success? {
      assert records[..|records|] == records;
      StoreEachKeeps(v.store, trusted, sign, records, |records|);
      StoredWhole(v.store, b.value.store, trusted, sign, records);
      RequeueKeepsRecords(b.value.store, trusted, b.value.upgraded);
    }
  }

  lemma StoredWhole(s: Store, t: Store, trusted: Trust, sign: Option<Signer>, records: seq<Record>)
    requires Valid(s) && Storing(s, t, trusted, records, |records|) && HasRecords(t, records)
    requires forall j :: 0 <= j < |records| ==> Storable(s, trusted, sign, records, j)
    ensures NoDangling(t)
  {
    hide ValidOpen, Targets, AttestationFits, RankOf;
    assert records[..|records|] == records;
    forall id | id in t.records
      ensures Targets(t.records[id]) <= t.records.Keys
    {
      if id !in s.records {
        var r :| r in records && r.id == id;
        var j :| 0 <= j < |records| && records[j] == r;
        assert Storable(s, trusted, sign, records, j);
        FewerIds(records, j);
      }
    }
  }

  lemma FewerIds(records: seq<Record>, j: nat)
    requires j <= |records|
    ensures Ids(records[..j]) <= Ids(records)
  {
  }

  // ----- asking again after it is done -----

  /** A turn that is done verifies against the vault for as long as all its records are shown, and
      is refused for nothing but one that no longer is. */
  lemma DoneVerifies(w: Stores, trusted: Trust, h: Job, p: Plan)
    requires StoresValid(w) && Prepare(w.control, h) == Success(AlreadyDone(Some(p)))
    ensures SavedRefused(w.vault, trusted, p)
            == if AllShown(w.vault.store, trusted, p) then None else Some(EvidenceNotAdmitted)
  {
    hide StoresValid, Prepare, ProjectionRefused, PreviousRefused, RefsRefused, HasRecords, RankOf;
    DonePlan(w, h, p);
    DonePrevious(w, trusted, h, p);
    DoneRefs(w.vault.store, trusted, p.header.projection.records, p.refs);
    if RefsRefused(w.vault.store, trusted, p.refs).None? {
      assert RecordsAt(w.vault.store, p.refs) == p.header.projection.records;
    }
  }

  lemma DoneRefs(s: Store, trusted: Trust, records: seq<Record>, refs: seq<Ref>)
    requires HasRecords(s, records) && refs == RefsOf(records)
    ensures RefsRefused(s, trusted, refs)
            == if forall ref :: ref in refs ==> RankOf(s, trusted, ref.id) > 0 then None else Some(EvidenceNotAdmitted)
    ensures forall i :: 0 <= i < |refs| ==> refs[i].id in s.records && s.records[refs[i].id] == records[i]
  {
    hide RankOf, RefRefused, RefsRefused;
    forall ref | ref in refs
      ensures RefRefused(s, trusted, ref) == if RankOf(s, trusted, ref.id) > 0 then None else Some(EvidenceNotAdmitted)
    {
      DoneRef(s, trusted, records, ref);
    }
    forall i | 0 <= i < |refs|
      ensures refs[i].id in s.records && s.records[refs[i].id] == records[i]
    {
      assert records[i] in records;
    }
  }

  lemma DoneRef(s: Store, trusted: Trust, records: seq<Record>, ref: Ref)
    requires HasRecords(s, records) && ref in RefsOf(records)
    ensures RefRefused(s, trusted, ref) == if RankOf(s, trusted, ref.id) > 0 then None else Some(EvidenceNotAdmitted)
  {
    hide RankOf;
    var i :| 0 <= i < |RefsOf(records)| && RefsOf(records)[i] == ref;
    assert records[i] in records;
  }

  lemma DonePlan(w: Stores, h: Job, p: Plan)
    requires StoresValid(w) && Prepare(w.control, h) == Success(AlreadyDone(Some(p)))
    ensures h in w.control.journal.jobs && p.header == w.control.journal.jobs[h].header && p.header.saved
    ensures p.refs == RefsOf(p.header.projection.records) && HasRecords(w.vault.store, p.header.projection.records)
    ensures ProjectionRefused(p.header, p.header.projection.records).None?
    ensures p.header.request in w.vault.requests
    ensures w.vault.requests[p.header.request] == Filed(p.header.projection.records, p.header.episode)
  {
    hide StoresValid, LoadEntry, RowRefs, ProjectionRefused, PredecessorRefused;
    var e := w.control.journal.jobs[h];
    LoadNames(e);
    PlanIsKept(w, h);
  }

  lemma PlanIsKept(w: Stores, h: Job)
    requires StoresValid(w) && h in w.control.journal.jobs
    ensures var e := w.control.journal.jobs[h];
      Kept(w.vault, e.header) && PlanFrozen(e) && (e.header.saved ==> e.header.request in w.vault.requests)
  {
    hide JournalValid, TurnsFit, AcceptedHavePlans, OwnRequests, SavedInOrder, StagedWhole, Valid, Kept, PlanFrozen;
  }

  lemma DonePrevious(w: Stores, trusted: Trust, h: Job, p: Plan)
    requires StoresValid(w) && h in w.control.journal.jobs && p.header == w.control.journal.jobs[h].header
             && p.header.saved
    ensures PreviousRefused(w.vault.store, trusted, PreviousRef(p.header))
            == if p.header.previous.None? || RankOf(w.vault.store, trusted, p.header.previous.value.continuity.id) > 0
               then None else Some(EvidenceNotAdmitted)
  {
    hide StoresValid, PlanFrozen, Kept, RowRefs, RankOf;
    if p.header.previous.Some? {
      var ref := p.header.previous.value.continuity;
      PriorPlan(w, h);
      FrozenContinuity(w.control.journal.jobs[p.header.previous.value.job], ref);
      PriorRecord(w.vault, w.control.journal.jobs[p.header.previous.value.job], ref);
    }
  }

  /** The plan a saved one continues is saved too and answers for the record it is continued from. */
  lemma PriorPlan(w: Stores, h: Job)
    requires StoresValid(w) && h in w.control.journal.jobs
    requires var e := w.control.journal.jobs[h]; e.header.saved && e.header.previous.Some?
    ensures var previous := w.control.journal.jobs[h].header.previous.value;
      && previous.job in w.control.journal.jobs
      && var q := w.control.journal.jobs[previous.job];
        && q.header.continuity == previous.continuity.id && previous.continuity in RowRefs(q.rows)
        && Kept(w.vault, q.header) && PlanFrozen(q) && q.header.request in w.vault.requests
  {
    assert Linked(w.control.journal, h);
    hide Loads, WithinLimits, HeadsAtTips, UniqueSequences, TurnsFit, AcceptedHavePlans, OwnRequests, StagedWhole,
      Valid, RowRefs, Kept, PlanFrozen;
  }

  lemma PriorRecord(v: VaultSide, q: Entry, ref: Ref)
    requires Kept(v, q.header) && q.header.request in v.requests
    requires exists r :: r in q.header.projection.records && RefOf(r) == ref && r.kind == Continuity
    ensures ref.id in v.store.records && v.store.records[ref.id].sha == ref.sha
    ensures v.store.records[ref.id].kind == Continuity
  {
  }
}
