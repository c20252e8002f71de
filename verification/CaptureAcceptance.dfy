/** When a new plan is frozen: exactly which builds are accepted, and which record plays which part. */
module CaptureAcceptance {
  import opened Wrappers
  import opened VaultStore
  import opened CapturePlans
  import Runs = CaptureRuns

  // ----- plans -----

  /** The records a builder may hand over for this header. */
  predicate Sound(h: Header, records: seq<Record>) {
    && h.episode != h.continuity && (h.previous.Some? ==> h.previous.value.continuity.id != h.continuity)
    && 2 <= |records| <= MAX_RECORDS && (forall r :: r in records ==> r.bytes <= MAX_LINE)
    && (if h.profile == FRAGMENT_PROFILE then FragmentShape(h, records) else TurnShape(h, records))
  }

  /** There is room for one more plan, and the scope's sequence can go on. */
  ghost predicate Room(j: Journal, scope: Scope, bytes: nat) {
    && |j.jobs| < MAX_JOBS && |PendingJobs(j)| < MAX_PENDING
    && Occupied(j.jobs, PendingJobs(j)) + bytes <= MAX_PENDING_BYTES
    && (scope in j.heads ==> j.heads[scope].sequence < MAX_SEQUENCE)
  }

  /** The continuity record a new plan of the scope continues. */
  ghost function Tip(j: Journal, scope: Scope): Option<Previous> {
    if Parent(j, scope).Success? then Parent(j, scope).value else None
  }

  lemma ParentStands(j: Journal, scope: Scope)
    requires JournalValid(j)
    ensures Parent(j, scope).Success? <==> (scope in j.heads ==> j.heads[scope].sequence < MAX_SEQUENCE)
    ensures NextSequence(j, scope) >= 1
    ensures Parent(j, scope).Success? && Parent(j, scope).value.Some? ==> Parent(j, scope).value.value.job in j.jobs
  {
    hide LoadEntry, WithinLimits, AllLinked, UniqueSequences, HeaderFits, RefNamed;
    if scope in j.heads {
      assert AtTip(j, scope);
      var job := j.heads[scope].job;
      LoadNames(j.jobs[job]);
      LoadedFits(j.jobs[job]);
      SequenceFits(j.jobs[job].header);
    }
  }

  lemma SequenceFits(h: Header)
    requires HeaderFits(h)
    ensures 1 <= h.sequence <= MAX_SEQUENCE
  {
  }

  lemma LoadedFits(e: Entry)
    requires LoadEntry(e).Success?
    ensures HeaderFits(e.header)
  {
  }

  lemma {:induction false} StagedRows(records: seq<Record>)
    ensures RowsRefused(Staged(records), false).None? <==> forall r :: r in records ==> r.bytes <= MAX_LINE
    ensures Bodies(Staged(records)) == records && RowRefs(Staged(records)) == RefsOf(records)
  {
    Runs.StagedBodies(records);
    if records != [] {
      var init, last := records[..|records| - 1], records[|records| - 1];
      StagedRows(init);
      assert records == init + [last];
      assert Staged(records)[..|records| - 1] == Staged(init);
    }
  }

  /** The shape already tells the records and the two roles apart. */
  lemma ShapeNames(h: Header, records: seq<Record>)
    requires h.episode != h.continuity
    requires if h.profile == FRAGMENT_PROFILE then FragmentShape(h, records) else TurnShape(h, records)
    ensures |records| == h.count && DistinctRefs(RefsOf(records))
    ensures Names(RefsOf(records), h.episode) && Names(RefsOf(records), h.continuity)
  {
    var refs := RefsOf(records);
    forall r | r in records
      ensures RefOf(r) in refs
    {
      var i :| 0 <= i < |records| && records[i] == r;
      assert refs[i] == RefOf(r);
    }
    hide SameEdges, Links;
    if h.profile == FRAGMENT_PROFILE {
      assert RefOf(records[0]) in refs && RefOf(records[1]) in refs;
    }
  }

  /** A drafted plan is accepted exactly when its records are sound. */
  lemma DraftAccepted(j: Journal, h: Header, records: seq<Record>)
    requires h.sequence >= 1 && h.sequence <= MAX_SEQUENCE && !h.saved && h.count == |records|
    requires h.projection == Digest(h, records) && (h.previous.Some? ==> h.previous.value.job != h.job)
    ensures Accept(j, h, records).Success? <==> Sound(h, records)
  {
    hide FragmentShape, TurnShape, RowsRefused, Bodies, RowRefs, RefsOf, DistinctRefs, Names, Digest;
    StagedRows(records);
    if h.episode != h.continuity
       && (if h.profile == FRAGMENT_PROFILE then FragmentShape(h, records) else TurnShape(h, records)) {
      ShapeNames(h, records);
    }
  }

  /** A new job is frozen exactly when there is room for it and what the builder made is sound. */
  lemma FreezeTakes(j: Journal, ask: Ask, now: nat, build: Builder)
    requires JournalValid(j) && ask.job !in j.jobs
    ensures var d := DraftOf(j, ask, now, build, Tip(j, ask.scope));
      Freeze(j, ask, now, build).Success? <==>
        Room(j, ask.scope, RecordBytes(d.records)) && Sound(d.header, d.records)
  {
    hide JournalValid, Parent, Accept, PendingJobs, Occupied, RecordBytes, SameAsk, DraftOf, LoadEntry, Sound;
    hide NextSequence, Digest;
    ParentStands(j, ask.scope);
    if Parent(j, ask.scope).Success? {
      var previous := Parent(j, ask.scope).value;
      var d := DraftOf(j, ask, now, build, previous);
      DraftedIs(j, ask, now, build, previous);
      DraftAccepted(j, d.header, d.records);
      SoundCounts(d.header, d.records);
    }
  }

  lemma SoundCounts(h: Header, records: seq<Record>)
    ensures Sound(h, records) ==> 2 <= |records| <= MAX_RECORDS
  {
  }

  lemma DraftedIs(j: Journal, ask: Ask, now: nat, build: Builder, previous: Option<Previous>)
    requires NextSequence(j, ask.scope) >= 1 && (ask.scope in j.heads ==> j.heads[ask.scope].sequence < MAX_SEQUENCE)
    requires ask.job !in j.jobs && (previous.Some? ==> previous.value.job in j.jobs)
    ensures var d := DraftOf(j, ask, now, build, previous);
      && 1 <= d.header.sequence <= MAX_SEQUENCE && !d.header.saved && d.header.count == |d.records|
      && d.header.projection == Digest(d.header, d.records)
      && (d.header.previous.Some? ==> d.header.previous.value.job != d.header.job)
  {
  }

  // ----- which of two records is which -----

  /** A record of the turn that only points within it. */
  predicate Inside(r: Record, ids: set<Id>) {
    forall e :: e in r.relations ==> e.target in ids
  }

  /** Of a turn's two records, in either order, the one named by the continuity id is the continuity record,
      derives from the other and continues the predecessor; the other is the episode. */
  lemma TwoRecordTurn(h: Header, a: Record, b: Record)
    requires h.count == 2 && h.episode != h.continuity
    ensures TurnShape(h, [a, b]) <==>
      && {a.id, b.id} == {h.episode, h.continuity}
      && var (e, k) := if a.id == h.episode then (a, b) else (b, a);
        && e.created == h.created && k.created == h.created && e.kind == Episode && k.kind == Continuity
        && SameEdges(k.relations, Links(h)) && Inside(e, {h.episode, h.continuity})
  {
  }
}
