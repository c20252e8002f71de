/** When a host turn is accepted: in an open session, within the budgets, with a sound plan. */
module TurnAcceptance {
  import opened Wrappers
  import opened VaultStore
  import opened CapturePlans
  import opened TurnStores
  import opened TurnRuns
  import opened CaptureAcceptance
  import Runs = CaptureRuns

  predicate IsOpen(c: Control, session: Scope) {
    session in c.sessions && c.sessions[session]
  }

  /** Outside an open session a commit changes nothing: it is refused or repeats the answer of a turn
      accepted before. */
  lemma OnlyOpenAccepts(c: Control, session: Scope, handle: Option<Job>, user: Option<Text>, assistant: Text,
                        draw: Draw)
    requires !IsOpen(c, session)
    ensures var r := CommitTurn(c, session, handle, user, assistant, draw);
      r.Success? ==>
        r.value == c && handle.Some? && handle.value in c.turns && c.turns[handle.value].phase in {Pending, Done}
  {
    hide Freeze, BudgetRefused;
  }

  /** Closing a session ends it for its staged turns too, until it is opened again. */
  lemma ClosedTakesNothing(c: Control, d: Control, session: Scope, handle: Option<Job>, user: Option<Text>,
                           assistant: Text, draw: Draw, text: Text, capture: bool)
    requires CloseSession(c, session) == Success(d)
    ensures TakeInput(d, session, handle, draw.handle, text, capture, draw.now).Failure?
    ensures handle.Some? && handle.value in c.turns && c.turns[handle.value].session == session
            && c.turns[handle.value].phase == Staged ==>
              CommitTurn(d, session, handle, user, assistant, draw) == Failure(TurnAborted)
    ensures CommitTurn(d, session, handle, user, assistant, draw).Success? ==>
              CommitTurn(d, session, handle, user, assistant, draw).value == d
  {
    OnlyOpenAccepts(d, session, handle, user, assistant, draw);
    hide Freeze, BudgetRefused;
  }

  /** The turn is staged in its open session, and the caller's user text is its own. */
  predicate StagedFor(c: Control, session: Scope, h: Job, user: Option<Text>) {
    && IsOpen(c, session) && h in c.turns && c.turns[h].session == session && c.turns[h].phase == Staged
    && (user.Some? ==> user.value == c.turns[h].userSha)
  }

  /** The budget allows the answer, the journal has room and the plan drafted for it is sound. */
  ghost predicate Takes(c: Control, ask: Ask, assistant: Text, draw: Draw) {
    var d := DraftOf(c.journal, ask, draw.now, draw.build, Tip(c.journal, ask.scope));
    && BudgetRefused(c.turns, assistant.bytes, false).None?
    && Room(c.journal, ask.scope, RecordBytes(d.records)) && Sound(d.header, d.records)
  }

  predicate PendingUnder(c: Control, h: Job, assistant: Text, receipt: nat) {
    && h in c.turns && c.turns[h].phase == Pending && c.turns[h].receipt == Some(receipt)
    && c.turns[h].assistant == Some(assistant)
  }

  /** A staged turn of an open session, with its own user text, is accepted exactly when the budget
      allows the answer, the journal has room and the plan drafted for it is sound; then it is pending
      under its receipt. */
  lemma StagedIsAccepted(c: Control, session: Scope, h: Job, user: Option<Text>, assistant: Text, draw: Draw)
    requires JournalValid(c.journal) && TurnsFit(c) && StagedWhole(c) && StagedFor(c, session, h, user)
    ensures var r := CommitTurn(c, session, Some(h), user, assistant, draw);
      && (r.Success? <==> Takes(c, AskFor(session, h, c.turns[h].userSha, assistant, draw), assistant, draw))
      && (r.Success? ==> PendingUnder(r.value, h, assistant, draw.receipt))
  {
    hide JournalValid, TurnsFit, StagedWhole, Freeze, BudgetRefused, DraftOf, Tip, Room, Sound, RecordBytes, AskFor;
    hide CommitTurn;
    NoPlanYet(c, h);
    var ask := AskFor(session, h, c.turns[h].userSha, assistant, draw);
    AskIs(session, h, c.turns[h].userSha, assistant, draw);
    FreezeTakes(c.journal, ask, draw.now, draw.build);
    ThroughFreeze(c, session, h, user, assistant, draw);
  }

  lemma AskIs(session: Scope, h: Job, user: Text, assistant: Text, draw: Draw)
    ensures AskFor(session, h, user, assistant, draw).job == h
    ensures AskFor(session, h, user, assistant, draw).scope == session
  {
  }

  lemma ThroughFreeze(c: Control, session: Scope, h: Job, user: Option<Text>, assistant: Text, draw: Draw)
    requires StagedWhole(c) && StagedFor(c, session, h, user)
    ensures var ask := AskFor(session, h, c.turns[h].userSha, assistant, draw);
      var r := CommitTurn(c, session, Some(h), user, assistant, draw);
      && (r.Success? <==>
            && BudgetRefused(c.turns, assistant.bytes, false).None?
            && Freeze(c.journal, ask, draw.now, draw.build).Success?)
      && (r.Success? ==> PendingUnder(r.value, h, assistant, draw.receipt))
  {
    hide Freeze, BudgetRefused, AskFor;
  }

  /** An accepted turn answers the same texts again, and refuses any others. */
  lemma AcceptedIsAnswered(c: Control, session: Scope, h: Job, user: Option<Text>, assistant: Text, draw: Draw)
    requires session in c.sessions && h in c.turns && c.turns[h].session == session
    requires c.turns[h].phase in {Pending, Done}
    ensures CommitTurn(c, session, Some(h), user, assistant, draw)
            == if (user.Some? ==> user.value == c.turns[h].userSha) && Some(assistant) == c.turns[h].assistantSha
               then Success(c) else Failure(TurnConflict)
  {
    hide Freeze, BudgetRefused;
  }

  // ----- one turn from nothing -----

  const STARTED: Control := Control(EMPTY_JOURNAL, map[], map[0 := true])

  function Pair(created: nat, previous: Option<Ref>): Built {
    Built([Record(1, 1, Episode, created, [], 10),
           Record(2, 2, Continuity, created, [Relation(DERIVED_FROM, 1)], 10)], 1, 2)
  }

  /** The first turn of a new session is accepted, and its plan is the pair. */
  lemma FirstTurnIsAccepted(user: Text, assistant: Text, now: nat)
    requires user.bytes + assistant.bytes <= MAX_PENDING_BYTES
    ensures var r := CommitTurn(STARTED, 0, None, Some(user), assistant, Draw(5, 9, now, Pair));
      && r.Success? && r.value.turns.Keys == {5} && r.value.turns[5].phase == Pending
      && 5 in r.value.journal.jobs && !r.value.journal.jobs[5].header.saved
      && r.value.journal.jobs[5].header.episode == 1 && r.value.journal.jobs[5].header.continuity == 2
  {
    hide Freeze, JournalValid, BudgetRefused, Runs.RowsOf;
    var draw := Draw(5, 9, now, Pair);
    var ask := AskFor(0, 5, user, assistant, draw);
    PairIsFrozen(user, assistant, now);
    Runs.FreezeEnters(EMPTY_JOURNAL, ask, now, Pair);
    NothingHeld(user.bytes + assistant.bytes);
  }

  lemma NothingHeld(bytes: nat)
    requires bytes <= MAX_PENDING_BYTES
    ensures BudgetRefused(map[], bytes, true).None?
  {
    assert OpenTurns(map[]) == {};
  }

  lemma PairIsFrozen(user: Text, assistant: Text, now: nat)
    ensures var ask := AskFor(0, 5, user, assistant, Draw(5, 9, now, Pair));
      && Freeze(EMPTY_JOURNAL, ask, now, Pair).Success?
      && Parent(EMPTY_JOURNAL, 0) == Success(None)
      && var h := DraftOf(EMPTY_JOURNAL, ask, now, Pair, None).header;
        h.episode == 1 && h.continuity == 2 && !h.saved
  {
    hide Freeze, JournalValid, Sound;
    var ask := AskFor(0, 5, user, assistant, Draw(5, 9, now, Pair));
    EmptyIsValid();
    FreezeTakes(EMPTY_JOURNAL, ask, now, Pair);
    var d := DraftOf(EMPTY_JOURNAL, ask, now, Pair, None);
    PairIsSound(d.header, now);
    assert d.records == Pair(now, None).records;
    PairBytes(now);
  }

  lemma PairBytes(now: nat)
    ensures RecordBytes(Pair(now, None).records) == 20
  {
    var r := Pair(now, None).records;
    assert |r| == 2 && r[..1] == [r[0]];
    assert RecordBytes([r[0]]) == RecordBytes([r[0]][..0]) + 10;
    assert [r[0]][..0] == [];
  }

  lemma EmptyIsValid()
    ensures JournalValid(EMPTY_JOURNAL) && PendingJobs(EMPTY_JOURNAL) == {}
  {
  }

  lemma PairIsSound(h: Header, created: nat)
    requires h.episode == 1 && h.continuity == 2 && h.count == 2 && h.created == created && h.previous.None?
    requires h.profile == TURN_PROFILE
    ensures Sound(h, Pair(created, None).records)
  {
    var a, b := Pair(created, None).records[0], Pair(created, None).records[1];
    assert Pair(created, None).records == [a, b];
    TwoRecordTurn(h, a, b);
  }
}
