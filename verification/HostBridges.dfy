/** The host bridge as the object its operations change: a control database beside a vault. */
module HostBridges {
  import opened Wrappers
  import opened VaultStore
  import opened VaultTransactions
  import opened CapturePlans
  import opened TurnStores
  import opened TurnRuns
  import DeliveryRuns
  import Runs = CaptureRuns

  lemma {:induction false} StoreEachStays(s: Store, trusted: Trust, sign: Option<Signer>, records: seq<Record>,
                                          n: nat, m: nat)
    requires n <= m <= |records| && StoreEach(s, trusted, sign, records, n).Failure?
    ensures StoreEach(s, trusted, sign, records, m) == StoreEach(s, trusted, sign, records, n)
    decreases m - n
  {
    hide StoreOne;
    if n < m {
      StoreEachStays(s, trusted, sign, records, n, m - 1);
    }
  }

  /** Refusals of the vault transaction are its own. */
  lemma {:induction false} StoreEachErrors(s: Store, trusted: Trust, sign: Option<Signer>, records: seq<Record>, n: nat)
    requires n <= |records|
    ensures StoreEach(s, trusted, sign, records, n) != Failure(CapturePredecessorPending)
  {
    hide StoreOne;
    if n > 0 {
      StoreEachErrors(s, trusted, sign, records, n - 1);
      if StoreEach(s, trusted, sign, records, n - 1).Success? {
        StoreOneErrors(StoreEach(s, trusted, sign, records, n - 1).value, trusted, sign, records[n - 1]);
      }
    }
  }

  lemma StoreOneErrors(b: Batch, trusted: Trust, sign: Option<Signer>, record: Record)
    ensures StoreOne(b, trusted, sign, record) != Failure(CapturePredecessorPending)
  {
    hide Rank, Targets;
  }

  lemma StoreFrozenErrors(v: VaultSide, trusted: Trust, sign: Option<Signer>, request: nat, records: seq<Record>,
                          anchor: Id, previous: Option<Ref>)
    ensures StoreFrozen(v, trusted, sign, request, records, anchor, previous) != Failure(CapturePredecessorPending)
  {
    hide StoreEach, RankOf, NoDangling, HasRecords, Requeue;
    StoreEachErrors(v.store, trusted, sign, records, |records|);
  }

  /** The loop over the references stops at the first refusal. */
  lemma {:induction false} RefsStop(s: Store, trusted: Trust, refs: seq<Ref>, n: nat)
    requires n < |refs| && RefsRefused(s, trusted, refs[..n]).None?
    ensures RefsRefused(s, trusted, refs[..n + 1]) == RefRefused(s, trusted, refs[n])
    ensures RefRefused(s, trusted, refs[n]).Some? ==> RefsRefused(s, trusted, refs) == RefRefused(s, trusted, refs[n])
  {
    hide RefRefused;
    assert refs[..n + 1][..n] == refs[..n];
    if RefRefused(s, trusted, refs[n]).Some? {
      RefsStay(s, trusted, refs, n + 1);
    }
  }

  lemma {:induction false} RefsStay(s: Store, trusted: Trust, refs: seq<Ref>, n: nat)
    requires n <= |refs| && RefsRefused(s, trusted, refs[..n]).Some?
    ensures RefsRefused(s, trusted, refs) == RefsRefused(s, trusted, refs[..n])
    decreases |refs| - n
  {
    hide RefRefused;
    if n < |refs| {
      assert refs[..n + 1][..n] == refs[..n];
      RefsStay(s, trusted, refs, n + 1);
    } else {
      assert refs[..n] == refs;
    }
  }

  lemma SavedErrors(v: VaultSide, trusted: Trust, p: Plan)
    ensures SavedRefused(v, trusted, p) != Some(CapturePredecessorPending)
  {
    hide HeaderFits, TurnShape, FragmentShape, RankOf;
  }

  function PendingTurns(c: Control): (pending: set<Job>)
    ensures forall h :: h in pending <==> h in c.turns && c.turns[h].phase == Pending
  {
    set h | h in c.turns && c.turns[h].phase == Pending
  }

  lemma OneLessPending(c: Control, handle: Job, p: Plan)
    requires handle in c.turns && c.turns[handle].phase == Pending && MarkSaved(c.journal, handle).Success?
    ensures PendingTurns(Settled(c, handle, p)) == PendingTurns(c) - {handle}
    ensures |PendingTurns(Settled(c, handle, p))| == |PendingTurns(c)| - 1
  {
    hide MarkSaved;
    assert PendingTurns(Settled(c, handle, p)) == PendingTurns(c) - {handle};
  }

  /** One turn of the record loop in the vault's open transaction. */
  method StoreNext(vault: Vault, sign: Option<Signer>, r: Record, b: Batch) returns (next: Result<Batch>)
    requires vault.work == b.store
    modifies vault`work
    ensures next == StoreOne(b, vault.trusted, sign, r)
    ensures next.Success? ==> vault.work == next.value.store
  {
    if r.id in vault.work.records {
      if vault.work.records[r.id] != r {
        return Failure(InvalidCompatProjection);
      }
      return if RankOf(vault.work, vault.trusted, r.id) == 0 then Failure(EvidenceNotAdmitted) else Success(b);
    }
    if !(Targets(r) <= vault.work.records.Keys) {
      return Failure(DanglingRelation);
    }
    next := vault.AdmitNext(r, LocalState(sign), ProofOf(sign, r), b);
  }

  class HostBridge {
    const vault: Vault
    const sign: Option<Signer>
    var control: Control
    var requests: map<nat, Filed>

    constructor (vault: Vault, sign: Option<Signer>)
      ensures this.vault == vault && this.sign == sign && control == START.control && requests == map[]
      ensures Valid(vault.committed) ==> StoresValid(Contents())
    {
      this.vault, this.sign := vault, sign;
      control, requests := Control(EMPTY_JOURNAL, map[], map[]), map[];
      new;
      EmptyStores(vault.committed);
    }

    ghost function Side(): VaultSide
      reads this, vault
    {
      VaultSide(vault.committed, requests)
    }

    ghost function Contents(): Stores
      reads this, vault
    {
      Stores(control, Side())
    }

    /** session.open: a new session, or an old one opened again. */
    method Open(session: Scope) returns (refused: Option<Error>)
      requires StoresValid(Contents())
      modifies this`control
      ensures StoresValid(Contents())
      ensures match OpenSession(old(control), session)
              case Failure(e) => refused == Some(e) && control == old(control)
              case Success(c) => refused == None && control == c
    {
      hide StoresValid;
      var active := set s | s in control.sessions && control.sessions[s];
      if session !in active && |active| >= MAX_ACTIVE_SESSIONS {
        return Some(HostSessionLimit);
      }
      ghost var w := Contents();
      control := control.(sessions := control.sessions[session := true]);
      assert OpenSession(w.control, session) == Success(control);
      SideStepKeeps(w, control);
      return None;
    }

    /** session.close, which abandons the session's staged turns. */
    method Close(session: Scope) returns (refused: Option<Error>)
      requires StoresValid(Contents())
      modifies this`control
      ensures StoresValid(Contents())
      ensures match CloseSession(old(control), session)
              case Failure(e) => refused == Some(e) && control == old(control)
              case Success(c) => refused == None && control == c
    {
      hide StoresValid, SideStep;
      if session !in control.sessions {
        return Some(UnknownSession);
      }
      ghost var w := Contents();
      control := CloseSession(control, session).value;
      Sidestepped(w, control, CloseSession(w.control, session).value, session);
      return None;
    }

    /** turn.commit: the repeated answer of a turn accepted before, or one plan frozen and pending
        under a handle and a receipt drawn for it.  Handles and receipts are random and new. */
    method Commit(session: Scope, handle: Option<Job>, user: Option<Text>, assistant: Text, draw: Draw)
      returns (refused: Option<Error>)
      requires StoresValid(Contents())
      requires draw.handle !in control.turns && draw.receipt !in requests
      requires forall job :: job in control.journal.jobs ==> control.journal.jobs[job].header.request != draw.receipt
      modifies this`control
      ensures StoresValid(Contents())
      ensures match CommitTurn(old(control), session, handle, user, assistant, draw)
              case Failure(e) => refused == Some(e) && control == old(control)
              case Success(c) => refused == None && control == c
      ensures control != old(control) ==>
                PlanAdded(old(control), control, if handle.Some? then handle.value else draw.handle, draw.receipt)
    {
      hide StoresValid, Freeze, BudgetRefused, PlanAdded;
      ghost var w := Contents();
      var early := TurnRefused(control, session, handle);
      if early.Some? {
        return early;
      }
      if handle.Some? {
        var row := control.turns[handle.value];
        if row.phase == Aborted {
          return Some(TurnAborted);
        }
        if user.Some? && user.value != row.userSha {
          return Some(TurnConflict);
        }
        if row.phase in {Pending, Done} {
          return if Some(assistant) != row.assistantSha then Some(TurnConflict) else None;
        }
      }
      if !control.sessions[session] {
        return Some(SessionIsClosed);
      }
      var seen := if user.Some? then user else if handle.Some? then control.turns[handle.value].user else None;
      if seen.None? {
        return Some(VisibleUserRequired);
      }
      var additional := assistant.bytes + if handle.None? then seen.value.bytes else 0;
      var budget := BudgetRefused(control.turns, additional, handle.None?);
      if budget.Some? {
        return budget;
      }
      var turn := if handle.Some? then handle.value else draw.handle;
      var frozen := Freeze(control.journal, AskFor(session, turn, seen.value, assistant, draw), draw.now, draw.build);
      if frozen.Failure? {
        return Some(frozen.error);
      }
      var was := if handle.Some? then control.turns[turn]
                 else Turn(session, Staged, seen, None, seen.value, None, 0, None, None, None);
      var row := was.(phase := Pending, assistant := Some(assistant), assistantSha := Some(assistant),
                      created := frozen.value.plan.header.created, receipt := Some(draw.receipt));
      control := control.(journal := frozen.value.journal, turns := control.turns[turn := row]);
      Accepted(w, control, session, handle, user, assistant, draw);
      return None;
    }

    /** _store_records for a frozen capture: all its records and the receipt, or nothing. */
    method StoreRecords(request: nat, records: seq<Record>, anchor: Id,
                        previous: Option<Ref>) returns (refused: Option<Error>)
      modifies this`requests, vault
      ensures match StoreFrozen(old(Side()), vault.trusted, sign, request, records, anchor, previous)
              case Failure(e) => refused == Some(e) && Side() == old(Side())
              case Success(v) => refused == None && Side() == v
    {
      hide StoreOne, Requeue, RankOf, PreviousRefused, NoDangling;
      vault.Begin();
      var early := PreviousRefused(vault.work, vault.trusted, previous);
      if early.Some? {
        return early;
      }
      if request in requests {
        if requests[request] != Filed(records, anchor) {
          return Some(RequestConflict);
        }
        if !HasRecords(vault.work, records) {
          return Some(InvalidCompatReceipt);
        }
        var hidden := exists r :: r in records && RankOf(vault.work, vault.trusted, r.id) == 0;
        return if hidden then Some(EvidenceNotAdmitted) else None;
      }
      ghost var s := vault.committed;
      var b := Batch(vault.work, {}, 0);
      for n := 0 to |records|
        invariant vault.work == b.store && vault.committed == s && requests == old(requests)
        invariant StoreEach(s, vault.trusted, sign, records, n) == Success(b)
      {
        var next := StoreNext(vault, sign, records[n], b);
        if next.Failure? {
          StoreEachStays(s, vault.trusted, sign, records, n + 1, |records|);
          vault.Rollback();
          return Some(next.error);
        }
        b := next.value;
      }
      vault.RequeueDependents(b.upgraded);
      var done := vault.Commit();
      if done.Failure? {
        return Some(done.error);
      }
      requests := requests[request := Filed(records, anchor)];
      return None;
    }

    /** _verify_saved_capture: reads one snapshot and changes nothing. */
    method VerifySaved(p: Plan) returns (refused: Option<Error>)
      ensures refused == SavedRefused(Side(), vault.trusted, p)
    {
      hide RankOf, ProjectionRefused, PreviousRefused;
      var s := vault.committed;
      var records: seq<Record> := [];
      for n := 0 to |p.refs|
        invariant RefsRefused(s, vault.trusted, p.refs[..n]).None?
        invariant |records| == n && forall i :: 0 <= i < n ==>
                    p.refs[i].id in s.records && records[i] == s.records[p.refs[i].id]
      {
        RefsStop(s, vault.trusted, p.refs, n);
        var ref := p.refs[n];
        var bad := RefRefused(s, vault.trusted, ref);
        if bad.Some? {
          return bad;
        }
        records := records + [s.records[ref.id]];
      }
      assert p.refs[..|p.refs|] == p.refs;
      assert records == RecordsAt(s, p.refs);
      if ProjectionRefused(p.header, records).Some? {
        return ProjectionRefused(p.header, records);
      }
      var early := PreviousRefused(s, vault.trusted, PreviousRef(p.header));
      if early.Some? {
        return early;
      }
      if p.header.request !in requests || requests[p.header.request] != Filed(records, p.header.episode) {
        return Some(InvalidCompatReceipt);
      }
      return None;
    }

    /** _materialize; lost says the control commit never happened. */
    method Materialize(handle: Job, lost: bool) returns (saved: bool, refused: Option<Error>)
      requires StoresValid(Contents())
      modifies this, vault
      ensures StoresValid(Contents())
      ensures var o := TurnStores.Materialize(old(Contents()), vault.trusted, sign, handle, if lost then 1 else 2);
              Contents() == o.world && (refused.Some? ==> refused == o.error)
              && (refused.None? ==> o.error.None?)
      ensures !saved ==> control == old(control)
      ensures saved ==> refused.None? && |PendingTurns(control)| == |PendingTurns(old(control))| - 1
      ensures refused.None? && !lost && Eligible(old(control), handle) ==> saved
      ensures refused != Some(CapturePredecessorPending) || !Eligible(old(control), handle)
    {
      hide StoresValid, StoreFrozen, MarkSaved, Settled, Prepare, Eligible;
      ghost var w := Contents();
      MaterializeKeeps(w, vault.trusted, sign, handle, if lost then 1 else 2);
      if Eligible(control, handle) {
        EligibleIsReady(w, handle);
      }
      var ready := Prepare(control, handle);
      if ready.Failure? {
        return false, Some(ready.error);
      }
      match ready.value {
        case AlreadyDone(p) =>
          if p.Some? {
            refused := VerifySaved(p.value);
            SavedErrors(w.vault, vault.trusted, p.value);
            return false, refused;
          }
          return false, None;
        case ToStore(p) =>
          ToStoreKeeps(w, vault.trusted, sign, handle, p);
          StoreFrozenErrors(w.vault, vault.trusted, sign, p.header.request, p.records, p.header.episode,
                            PreviousRef(p.header));
          PendingPrepared(w, handle, p);
          refused := StoreRecords(p.header.request, p.records, p.header.episode, PreviousRef(p.header));
          if refused.Some? || lost {
            return false, refused;
          }
          OneLessPending(control, handle, p);
          control := Settled(control, handle, p);
          return true, None;
      }
    }

    /** flush_local: up to limit eligible turns.  It stops early only at an eligible turn that the
        vault refuses as it now stands, and never because every pending turn waits on another. */
    method Flush(limit: nat) returns (saved: nat, refused: Option<Error>)
      requires StoresValid(Contents())
      modifies this, vault
      ensures StoresValid(Contents())
      ensures saved <= limit && |PendingTurns(control)| + saved == |PendingTurns(old(control))|
      ensures refused != Some(CapturePredecessorPending)
      ensures refused.None? && saved < limit ==> PendingTurns(control) == {}
      ensures refused.Some? ==> Stopped(Contents(), vault.trusted, sign, refused)
    {
      hide StoresValid, StoreFrozen, Eligible, TurnStores.Materialize, Stopped;
      saved := 0;
      while saved < limit
        invariant saved <= limit && StoresValid(Contents())
        invariant |PendingTurns(control)| + saved == |PendingTurns(old(control))|
      {
        var pending := PendingTurns(control);
        if pending == {} {
          return saved, None;
        }
        ghost var h :| h in pending;
        ghost var ready := PendingHasEligible(Contents(), h);
        EligibleIsPending(control, ready);
        var able := set t | t in pending && Eligible(control, t);
        assert ready in able;
        if able == {} {
          return saved, Some(CapturePredecessorPending);
        }
        var next :| next in able;
        ghost var w := Contents();
        var done, error := Materialize(next, false);
        if error.Some? {
          StoppedBy(w, vault.trusted, sign, next);
          return saved, error;
        }
        saved := saved + 1;
      }
      return saved, None;
    }
  }

  /** Some eligible turn is refused with this error, whatever is asked of the stores first. */
  ghost predicate Stopped(w: Stores, trusted: Trust, sign: Option<Signer>, error: Option<Error>) {
    exists h :: Eligible(w.control, h) && TurnStores.Materialize(w, trusted, sign, h, 2) == Outcome(w, error)
  }

  lemma StoppedBy(w: Stores, trusted: Trust, sign: Option<Signer>, h: Job)
    requires Eligible(w.control, h)
    ensures var o := TurnStores.Materialize(w, trusted, sign, h, 2);
      o.error.Some? ==> o.world == w && Stopped(w, trusted, sign, o.error)
  {
    hide Eligible, Prepare, StoreFrozen, SavedRefused, MarkSaved;
  }

  /** The turn is pending, and its plan, which was not there, is in the journal under its receipt. */
  ghost predicate PlanAdded(c: Control, d: Control, turn: Job, receipt: nat) {
    && turn in d.turns && d.turns[turn].phase == Pending && d.turns[turn].receipt == Some(receipt)
    && turn !in c.journal.jobs && turn in d.journal.jobs && d.journal.jobs[turn].header.request == receipt
  }

  lemma Sidestepped(w: Stores, c: Control, d: Control, session: Scope)
    requires StoresValid(w) && c == d && CloseSession(w.control, session) == Success(d)
    ensures StoresValid(w.(control := c))
  {
    hide StoresValid, CloseSession, OpenSession, TakeInput, Abort;
    SideStepKeeps(w, d);
  }

  lemma Accepted(w: Stores, d: Control, session: Scope, handle: Option<Job>, user: Option<Text>, assistant: Text,
                 draw: Draw)
    requires StoresValid(w) && Accepts(w.control, d, w.vault, session, handle, user, assistant, draw)
    ensures StoresValid(w.(control := d))
    ensures d != w.control ==> PlanAdded(w.control, d, if handle.Some? then handle.value else draw.handle, draw.receipt)
  {
    AcceptIs(w, d, session, handle, user, assistant, draw);
    assert AcceptStep(w.control, d, w.vault);
    hide StoresValid, AcceptStep, Accepts, PlanAdded;
    AcceptKeeps(w, d);
  }

  lemma AcceptIs(w: Stores, d: Control, session: Scope, handle: Option<Job>, user: Option<Text>, assistant: Text,
                 draw: Draw)
    requires StoresValid(w) && Accepts(w.control, d, w.vault, session, handle, user, assistant, draw)
    ensures d != w.control ==> PlanAdded(w.control, d, if handle.Some? then handle.value else draw.handle, draw.receipt)
  {
    hide Freeze, LoadEntry, TurnFits, JournalValid, StoresValid, BudgetRefused, TurnsFit, StagedWhole;
    var c := w.control;
    ControlFits(w);
    if d != c {
      var turn := if handle.Some? then handle.value else draw.handle;
      var seen := if user.Some? then user else c.turns[handle.value].user;
      NoPlanYet(c, turn);
      Frozen(c.journal, AskFor(session, turn, seen.value, assistant, draw), draw.now, draw.build);
    }
  }

  lemma EmptyStores(s: Store)
    ensures Valid(s) ==> StoresValid(Stores(START.control, VaultSide(s, map[])))
  {
    StartIsValid();
    hide JournalValid, Valid, TurnFits, LoadEntry, Kept, PlanFrozen;
  }

  lemma ControlFits(w: Stores)
    requires StoresValid(w)
    ensures TurnsFit(w.control) && StagedWhole(w.control) && JournalValid(w.control.journal)
  {
    hide JournalValid, TurnsFit, StagedWhole;
  }

  lemma Frozen(j: Journal, ask: Ask, now: nat, build: Builder)
    requires JournalValid(j) && Freeze(j, ask, now, build).Success? && ask.job !in j.jobs
    ensures var k := Freeze(j, ask, now, build).value.journal;
      ask.job in k.jobs && k.jobs[ask.job].header.request == ask.request
  {
    hide Freeze, LoadEntry, JournalValid, Loads, Runs.NamesHead, Runs.Fits, Runs.RowsOf;
    assert Loads(j) by { JournalLoads(j); }
    Runs.FreezeAccepts(j, ask, now, build);
    Runs.FreshHolds(j, ask, now, build);
  }

  lemma JournalLoads(j: Journal)
    requires JournalValid(j)
    ensures Loads(j)
  {
  }

  lemma EligibleIsPending(c: Control, h: Job)
    requires Eligible(c, h)
    ensures h in PendingTurns(c)
  {
  }

  lemma PendingPrepared(w: Stores, handle: Job, p: Plan)
    requires StoresValid(w) && Prepare(w.control, handle) == Success(ToStore(p))
    ensures handle in w.control.turns && w.control.turns[handle].phase == Pending
  {
    PreparedPlan(w.control, handle, p);
  }
}
