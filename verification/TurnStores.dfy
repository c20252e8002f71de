/** Host turns in a control database, materialised into the vault, with a crash possible
    between the two commits. */
module TurnStores {
  import opened Wrappers
  import opened Graphs
  import opened Sorting
  import opened VaultStore
  import opened DeliveryRuns
  import opened CapturePlans
  import Runs = CaptureRuns

  const MAX_ACTIVE_SESSIONS: nat := 128
  const MAX_PENDING_TURNS: nat := 256
  const MAX_CONTROL_ROWS: nat := 100_000

  datatype Phase = Staged | Pending | Done | Aborted

  datatype Reason = SessionClosed | CaptureDisabled | HostReason(name: nat)

  datatype Turn = Turn(session: Scope, phase: Phase, user: Option<Text>, assistant: Option<Text>,
                       userSha: Text, assistantSha: Option<Text>, created: nat, receipt: Option<nat>,
                       reason: Option<Reason>, memory: Option<Id>)

  /** The control database; a session maps to whether it is open. */
  datatype Control = Control(journal: Journal, turns: map<Job, Turn>, sessions: map<Scope, bool>)

  /** A request receipt, its hash held as the projection it covers. */
  datatype Filed = Filed(records: seq<Record>, anchor: Id)

  datatype VaultSide = VaultSide(store: Store, requests: map<nat, Filed>)

  datatype Stores = Stores(control: Control, vault: VaultSide)

  // ----- the vault transaction -----

  type Signer = Record -> Attestation

  function ProofOf(sign: Option<Signer>, r: Record): Option<Attestation> {
    if sign.Some? then Some(sign.value(r)) else None
  }

  function LocalState(sign: Option<Signer>): Admission {
    if sign.Some? then Verified else LocalUnsigned
  }

  /** A record already there keeps its own admission; a new one enters with its targets present. */
  function StoreOne(b: Batch, trusted: Trust, sign: Option<Signer>, r: Record): Result<Batch> {
    if r.id in b.store.records then
      if b.store.records[r.id] != r then Failure(InvalidCompatProjection)
      else if RankOf(b.store, trusted, r.id) == 0 then Failure(EvidenceNotAdmitted)
      else Success(b)
    else if !(Targets(r) <= b.store.records.Keys) then Failure(DanglingRelation)
    else AdmitOne(b, trusted, r, LocalState(sign), ProofOf(sign, r))
  }

  function StoreEach(s: Store, trusted: Trust, sign: Option<Signer>, records: seq<Record>, n: nat): Result<Batch>
    requires n <= |records|
  {
    if n == 0 then Success(Batch(s, {}, 0))
    else
      match StoreEach(s, trusted, sign, records, n - 1)
      case Failure(e) => Failure(e)
      case Success(b) => StoreOne(b, trusted, sign, records[n - 1])
  }

  function PreviousRefused(s: Store, trusted: Trust, previous: Option<Ref>): Option<Error> {
    if previous.None? then None
    else if previous.value.id !in s.records then Some(InvalidCompatReceipt)
    else if s.records[previous.value.id].kind != Continuity
            || s.records[previous.value.id].sha != previous.value.sha then
      Some(CapturePredecessorChanged)
    else if RankOf(s, trusted, previous.value.id) == 0 then Some(EvidenceNotAdmitted)
    else None
  }

  predicate HasRecords(s: Store, records: seq<Record>) {
    forall r :: r in records ==> r.id in s.records && s.records[r.id] == r
  }

  /** _store_records for a frozen capture, under its own receipt. */
  ghost function StoreFrozen(v: VaultSide, trusted: Trust, sign: Option<Signer>, request: nat, records: seq<Record>,
                             anchor: Id, previous: Option<Ref>): Result<VaultSide>
  {
    if PreviousRefused(v.store, trusted, previous).Some? then Failure(PreviousRefused(v.store, trusted, previous).value)
    else if request in v.requests then
      if v.requests[request] != Filed(records, anchor) then Failure(RequestConflict)
      else if !HasRecords(v.store, records) then Failure(InvalidCompatReceipt)
      else if exists r :: r in records && RankOf(v.store, trusted, r.id) == 0 then Failure(EvidenceNotAdmitted)
      else Success(v)
    else
      match StoreEach(v.store, trusted, sign, records, |records|)
      case Failure(e) => Failure(e)
      case Success(b) =>
        match Committed(Requeue(b.store, trusted, b.upgraded))
        case Failure(e) => Failure(e)
        case Success(t) => Success(VaultSide(t, v.requests[request := Filed(records, anchor)]))
  }

  // ----- turns -----

  /** validate_capture_turn */
  predicate TurnFits(handle: Job, t: Turn, p: Plan) {
    var h := p.header;
    && t.receipt.Some? && h.job == handle && h.scope == t.session && h.profile == TURN_PROFILE
    && h.created == t.created && h.request == t.receipt.value
    && match t.phase
       case Pending =>
         && !h.saved && t.memory.None? && p.records != [] && t.user.Some? && t.assistant.Some?
         && t.user.value == t.userSha && Some(t.assistant.value) == t.assistantSha
         && h.input == Input(t.user, t.assistant)
       case Done => h.saved && t.memory == Some(h.episode) && t.user.None? && t.assistant.None?
       case Staged => false
       case Aborted => false
  }

  function TextBytes(t: Turn): nat {
    (if t.user.Some? then t.user.value.bytes else 0) + if t.assistant.Some? then t.assistant.value.bytes else 0
  }

  function OpenTurns(turns: map<Job, Turn>): (open: set<Job>)
    ensures forall h :: h in open <==> h in turns && turns[h].phase in {Staged, Pending}
  {
    set h | h in turns && turns[h].phase in {Staged, Pending}
  }

  function HeldBytes(turns: map<Job, Turn>, some: set<Job>): nat
    requires some <= turns.Keys
  {
    if some == {} then 0 else TextBytes(turns[MinOf(some)]) + HeldBytes(turns, some - {MinOf(some)})
  }

  /** pending_budget */
  function BudgetRefused(turns: map<Job, Turn>, additional: nat, starting: bool): Option<Error> {
    var open := OpenTurns(turns);
    if HeldBytes(turns, open) + additional > MAX_PENDING_BYTES || (starting && |open| >= MAX_PENDING_TURNS) then
      Some(HostPendingLimit)
    else if starting && |turns| >= MAX_CONTROL_ROWS then Some(HostTurnLimit)
    else None
  }

  function TurnRefused(c: Control, session: Scope, handle: Option<Job>): Option<Error> {
    if session !in c.sessions then Some(UnknownSession)
    else if handle.None? then None
    else if handle.value !in c.turns then Some(UnknownTurn)
    else if c.turns[handle.value].session != session then Some(TurnConflict)
    else None
  }

  function OpenSession(c: Control, session: Scope): Result<Control> {
    if !(session in c.sessions && c.sessions[session])
       && |set s | s in c.sessions && c.sessions[s]| >= MAX_ACTIVE_SESSIONS then Failure(HostSessionLimit)
    else Success(c.(sessions := c.sessions[session := true]))
  }

  function Abandoned(t: Turn, reason: Reason): Turn {
    t.(phase := Aborted, user := None, assistant := None, reason := Some(reason))
  }

  function CloseSession(c: Control, session: Scope): Result<Control> {
    if session !in c.sessions then Failure(UnknownSession)
    else
      Success(c.(turns := map h | h in c.turns ::
                   if c.turns[h].session == session && c.turns[h].phase == Staged
                   then Abandoned(c.turns[h], SessionClosed) else c.turns[h],
                 sessions := c.sessions[session := false]))
  }

  /** turn.input; a handle is drawn fresh, and without capture it is sealed at once. */
  function TakeInput(c: Control, session: Scope, handle: Option<Job>, drawn: Job, user: Text, capture: bool,
                     now: nat): Result<Control> {
    var refused := TurnRefused(c, session, handle);
    if refused.Some? then Failure(refused.value)
    else if !c.sessions[session] then Failure(SessionIsClosed)
    else if handle.Some? then
      var t := c.turns[handle.value];
      var reusable := if capture then t.phase == Staged else t.phase == Aborted && t.reason == Some(CaptureDisabled);
      if !reusable || t.userSha != user then Failure(TurnConflict) else Success(c)
    else if capture then
      if BudgetRefused(c.turns, user.bytes, true).Some? then Failure(BudgetRefused(c.turns, user.bytes, true).value)
      else
        var turn := Turn(session, Staged, Some(user), None, user, None, now, None, None, None);
        Success(c.(turns := c.turns[drawn := turn]))
    else if |c.turns| >= MAX_CONTROL_ROWS then Failure(HostTurnLimit)
    else
      Success(c.(turns := c.turns[drawn := Turn(session, Aborted, None, None, user, None, now, None,
                                                Some(CaptureDisabled), None)]))
  }

  /** turn.abort: an accepted turn is beyond recall. */
  function Abort(c: Control, session: Scope, handle: Job, reason: Reason): Result<Control> {
    var refused := TurnRefused(c, session, Some(handle));
    if refused.Some? then Failure(refused.value)
    else
      var t := c.turns[handle];
      if t.phase in {Pending, Done} || (t.phase == Aborted && t.reason == Some(CaptureDisabled)) then Success(c)
      else if t.phase == Aborted && t.reason != Some(reason) && t.reason != Some(SessionClosed) then
        Failure(TurnConflict)
      else Success(c.(turns := c.turns[handle := Abandoned(t, reason)]))
  }

  /** What the accepting part of turn.commit needs: drawn handle, receipt, clock and builder. */
  datatype Draw = Draw(handle: Job, receipt: nat, now: nat, build: Builder)

  function AskFor(session: Scope, handle: Job, user: Text, assistant: Text, d: Draw): Ask {
    Ask(session, handle, Input(Some(user), Some(assistant)), TURN_PROFILE, d.receipt, Some(d.now))
  }

  /** turn.commit, up to the control commit. */
  function CommitTurn(c: Control, session: Scope, handle: Option<Job>, user: Option<Text>, assistant: Text,
                      d: Draw): Result<Control> {
    var refused := TurnRefused(c, session, handle);
    if refused.Some? then Failure(refused.value)
    else if handle.Some? && c.turns[handle.value].phase == Aborted then Failure(TurnAborted)
    else if handle.Some? && user.Some? && user.value != c.turns[handle.value].userSha then Failure(TurnConflict)
    else if handle.Some? && c.turns[handle.value].phase in {Pending, Done} then
      if Some(assistant) != c.turns[handle.value].assistantSha then Failure(TurnConflict) else Success(c)
    else if !c.sessions[session] then Failure(SessionIsClosed)
    else
      var seen := if user.Some? then user else if handle.Some? then c.turns[handle.value].user else None;
      if seen.None? then Failure(VisibleUserRequired)
      else
        var additional := assistant.bytes + if handle.None? then seen.value.bytes else 0;
        var budget := BudgetRefused(c.turns, additional, handle.None?);
        if budget.Some? then Failure(budget.value)
        else
          var turn := if handle.Some? then handle.value else d.handle;
          match Freeze(c.journal, AskFor(session, turn, seen.value, assistant, d), d.now, d.build)
          case Failure(e) => Failure(e)
          case Success(f) =>
            var was := if handle.Some? then c.turns[turn]
                       else Turn(session, Staged, seen, None, seen.value, None, 0, None, None, None);
            Success(c.(journal := f.journal,
                       turns := c.turns[turn := was.(phase := Pending, assistant := Some(assistant),
                                                     assistantSha := Some(assistant), created := f.plan.header.created,
                                                     receipt := Some(d.receipt))]))
  }

  // ----- materialising -----

  /** The predecessor checks of _materialize. */
  function PredecessorRefused(c: Control, p: Plan): Option<Error> {
    if p.header.previous.None? then if p.header.sequence == 1 then None else Some(InvalidCapturePredecessor)
    else
      var previous := p.header.previous.value;
      match Load(c.journal, previous.job)
      case Failure(e) => Some(e)
      case Success(None) => Some(InvalidCapturePredecessor)
      case Success(Some(parent)) =>
        if parent.header.scope != p.header.scope || parent.header.sequence + 1 != p.header.sequence
           || parent.header.continuity != previous.continuity.id || previous.continuity !in parent.refs then
          Some(InvalidCapturePredecessor)
        else if previous.job !in c.turns then Some(InvalidCapturePredecessor)
        else if !TurnFits(previous.job, c.turns[previous.job], parent) then Some(InvalidCaptureTurn)
        else if !parent.header.saved then Some(CapturePredecessorPending)
        else None
  }

  // ----- a saved plan against the vault -----

  function RefRefused(s: Store, trusted: Trust, ref: Ref): Option<Error> {
    if ref.id !in s.records then Some(InvalidCompatReceipt)
    else if s.records[ref.id].sha != ref.sha then Some(CaptureProjectionChanged)
    else if RankOf(s, trusted, ref.id) == 0 then Some(EvidenceNotAdmitted)
    else None
  }

  /** The first refusal among the references, in their order. */
  function RefsRefused(s: Store, trusted: Trust, refs: seq<Ref>): (e: Option<Error>)
    ensures e.None? ==> forall ref :: ref in refs ==> RefRefused(s, trusted, ref).None?
    ensures e.Some? ==> exists ref :: ref in refs && RefRefused(s, trusted, ref) == e
  {
    if refs == [] then None
    else
      var init, last := refs[..|refs| - 1], refs[|refs| - 1];
      assert refs == init + [last];
      var earlier := RefsRefused(s, trusted, init);
      if earlier.Some? then earlier else RefRefused(s, trusted, last)
  }

  function RecordsAt(s: Store, refs: seq<Ref>): (records: seq<Record>)
    requires forall ref :: ref in refs ==> ref.id in s.records
    ensures |records| == |refs| && forall i :: 0 <= i < |refs| ==> records[i] == s.records[refs[i].id]
  {
    seq(|refs|, i requires 0 <= i < |refs| => s.records[refs[i].id])
  }

  /** _verify_saved_capture: the records a saved plan refers to, its predecessor and its receipt are
      still in the vault and still admitted; nothing is stored or readmitted. */
  function SavedRefused(v: VaultSide, trusted: Trust, p: Plan): Option<Error> {
    if RefsRefused(v.store, trusted, p.refs).Some? then RefsRefused(v.store, trusted, p.refs)
    else
      var records := RecordsAt(v.store, p.refs);
      if ProjectionRefused(p.header, records).Some? then ProjectionRefused(p.header, records)
      else if PreviousRefused(v.store, trusted, PreviousRef(p.header)).Some? then
        PreviousRefused(v.store, trusted, PreviousRef(p.header))
      else if p.header.request !in v.requests || v.requests[p.header.request] != Filed(records, p.header.episode) then
        Some(InvalidCompatReceipt)
      else None
  }

  datatype Ready = AlreadyDone(saved: Option<Plan>) | ToStore(plan: Plan)

  /** Everything _materialize checks in the control database. */
  function Prepare(c: Control, handle: Job): Result<Ready> {
    if handle !in c.turns then Failure(UnknownTurn)
    else
      match Load(c.journal, handle)
      case Failure(e) => Failure(e)
      case Success(plan) =>
        if plan.Some? && !TurnFits(handle, c.turns[handle], plan.value) then Failure(InvalidCaptureTurn)
        else if c.turns[handle].phase == Done then Success(AlreadyDone(plan))
        else if c.turns[handle].phase != Pending then Failure(TurnNotAccepted)
        else if plan.None? then Failure(UnknownCaptureJob)
        else
          var refused := PredecessorRefused(c, plan.value);
          if refused.Some? then Failure(refused.value) else Success(ToStore(plan.value))
  }

  function Settled(c: Control, handle: Job, p: Plan): Control
    requires handle in c.turns && MarkSaved(c.journal, handle).Success?
  {
    c.(journal := MarkSaved(c.journal, handle).value,
       turns := c.turns[handle := c.turns[handle].(phase := Done, user := None, assistant := None,
                                                   memory := Some(p.header.episode))])
  }

  datatype Outcome = Outcome(world: Stores, error: Option<Error>)

  /** _materialize, cut short after the given number of commits: the vault's, then the control's. */
  ghost function Materialize(w: Stores, trusted: Trust, sign: Option<Signer>, handle: Job, commits: nat): Outcome {
    match Prepare(w.control, handle)
    case Failure(e) => Outcome(w, Some(e))
    case Success(AlreadyDone(p)) => Outcome(w, if p.Some? then SavedRefused(w.vault, trusted, p.value) else None)
    case Success(ToStore(p)) =>
      match StoreFrozen(w.vault, trusted, sign, p.header.request, p.records, p.header.episode, PreviousRef(p.header))
      case Failure(e) => Outcome(w, Some(e))
      case Success(v) =>
        if commits == 0 then Outcome(w, None)
        else if commits == 1 || MarkSaved(w.control.journal, handle).Failure? then Outcome(w.(vault := v), None)
        else Outcome(Stores(Settled(w.control, handle, p), v), None)
  }

  // ----- what always holds -----

  /** The receipt of a plan covers exactly its frozen records, and they are in the vault. */
  ghost predicate Kept(v: VaultSide, h: Header) {
    h.request in v.requests ==>
      v.requests[h.request] == Filed(h.projection.records, h.episode) && HasRecords(v.store, h.projection.records)
  }

  ghost predicate TurnsFit(c: Control) {
    forall job :: job in c.journal.jobs ==>
      job in c.turns && LoadEntry(c.journal.jobs[job]).Success?
      && TurnFits(job, c.turns[job], LoadEntry(c.journal.jobs[job]).value)
  }

  /** Accepted turns are exactly those with a plan. */
  ghost predicate AcceptedHavePlans(c: Control) {
    forall h :: h in c.turns && c.turns[h].phase in {Pending, Done} ==> h in c.journal.jobs
  }

  ghost predicate OwnRequests(c: Control) {
    forall a, b :: a in c.journal.jobs && b in c.journal.jobs && a != b ==>
      c.journal.jobs[a].header.request != c.journal.jobs[b].header.request
  }

  ghost predicate AllKept(c: Control, v: VaultSide) {
    forall job :: job in c.journal.jobs ==>
      Kept(v, c.journal.jobs[job].header)
      && (c.journal.jobs[job].header.saved ==> c.journal.jobs[job].header.request in v.requests)
  }

  /** A saved plan's predecessor is saved. */
  ghost predicate SavedInOrder(c: Control) {
    forall job :: job in c.journal.jobs ==>
      var h := c.journal.jobs[job].header;
      h.saved && h.previous.Some? ==>
        h.previous.value.job in c.journal.jobs && c.journal.jobs[h.previous.value.job].header.saved
  }

  /** A staged turn still holds the text it was opened with, and nothing else. */
  ghost predicate StagedWhole(c: Control) {
    forall h :: h in c.turns && c.turns[h].phase == Staged ==>
      c.turns[h].user == Some(c.turns[h].userSha) && c.turns[h].memory.None?
  }

  /** Saved or not, a plan still answers for the records its projection hash covers. */
  ghost predicate PlansFrozen(c: Control) {
    forall job :: job in c.journal.jobs ==> PlanFrozen(c.journal.jobs[job])
  }

  ghost predicate PlanFrozen(e: Entry) {
    RowRefs(e.rows) == RefsOf(e.header.projection.records)
    && ProjectionRefused(e.header, e.header.projection.records).None?
  }

  ghost predicate StoresValid(w: Stores) {
    && JournalValid(w.control.journal) && TurnsFit(w.control) && AcceptedHavePlans(w.control)
    && OwnRequests(w.control) && SavedInOrder(w.control) && StagedWhole(w.control)
    && PlansFrozen(w.control)
    && Valid(w.vault.store) && AllKept(w.control, w.vault)
  }

  const START: Stores := Stores(Control(EMPTY_JOURNAL, map[], map[]), VaultSide(EMPTY, map[]))
}
