/** Closures that no page holds: exactly when a page passes them by, and what that leaves of
    delivery over whole runs. */
module DeliveryLimits {
  import opened Wrappers
  import opened Graphs
  import opened Sorting
  import opened VaultStore
  import opened Delivery
  import opened DeliveryRuns

  // ----- one page -----

  /** Everything a stored record leads to. */
  ghost function Closure(s: Store, root: Id): set<Id> {
    ReachSet(RelationGraph(s), root, s.records.Keys)
  }

  /** A closure is too large exactly when its own records are too many or too big, which a caller
      can count. */
  lemma TooLargeMeans(s: Store, q: Request, root: Id)
    requires Valid(s) && root in s.records
    ensures TooLarge(s, q, root) <==>
              |Closure(s, root)| > RecordLimit(q) || Total(s, q, Closure(s, root)) > q.maximumBytes - Envelope(q)
  {
    hide Reach, Total;
    var c := Closure(s, root);
    assert InClosure(s, root, c);
    forall part | InClosure(s, root, part)
      ensures Total(s, q, part) <= Total(s, q, c) && |part| <= |c|
    {
      WithinClosure(s, root, part);
      TotalMore(s, q, part, c);
    }
  }

  /** What has at most 1024 records and 3072 bytes on the wire fits every request the vault accepts. */
  lemma SmallClosuresFit(s: Store, q: Request, root: Id)
    requires Valid(s) && root in s.records && RequestRefused(s, q).None? && !q.complete
    requires |Closure(s, root)| <= 1024 && Total(s, q, Closure(s, root)) <= 3072
    ensures !TooLarge(s, q, root)
  {
    TooLargeMeans(s, q, root);
    hide TooLarge, Closure, Total;
  }

  lemma WithinClosure(s: Store, root: Id, part: set<Id>)
    requires Valid(s) && root in s.records && InClosure(s, root, part)
    ensures part <= Closure(s, root)
  {
    hide Reach;
    var g := RelationGraph(s);
    assert ClosedUnder(g, s.records.Keys);
    forall id | id in part
      ensures id in Closure(s, root)
    {
      ReachStays(g, s.records.Keys, root, id);
    }
  }

  /** A closure inside a page is within the page's limits. */
  lemma InsideFits(s: Store, trusted: Trust, q: Request, page: Page, id: Id)
    requires PageOf(s, trusted, q, page) && q.boundary.None? && id in page.records
    ensures !TooLarge(s, q, id)
  {
    hide Reach, Total, DispositionBytes, Covered, ClosedPage, StrongPage, BlockedOk, Asked, Outside, RelationGraph;
    var used :| PageSoFar(s, trusted, q, page.records.Keys, page.blocked, used, page.cursor);
    forall part | InClosure(s, id, part)
      ensures |part| <= RecordLimit(q) && Total(s, q, part) <= q.maximumBytes - Envelope(q)
    {
      forall d | d in part
        ensures d in page.records
      {
        PageHoldsClosures(s, trusted, q, page, id, d);
      }
      TotalMore(s, q, part, page.records.Keys);
    }
  }

  /** Of the deliverable rows a page passes, it sends every one, but on the wire those whose closure
      is too large. */
  lemma PassedIsSent(s: Store, trusted: Trust, q: Request, page: Page, i: nat)
    requires PageOf(s, trusted, q, page) && q.after <= i < page.cursor && i < |s.log|
    requires Deliverable(s, trusted, Floor(q), s.log[i])
    ensures s.log[i] in page.records <==> q.complete || !TooLarge(s, q, s.log[i])
  {
    hide PageSoFar, TooLarge, Deliverable, Outside, Passed;
    RowSettled(s, trusted, q, page, i);
    if s.log[i] in page.records && !q.complete {
      WireHasNoBoundary(s, q);
      InsideFits(s, trusted, q, page, s.log[i]);
    }
    if s.log[i] in Oversized(page) {
      ListedIsTooLarge(s, trusted, q, page, s.log[i]);
    }
  }

  lemma WireHasNoBoundary(s: Store, q: Request)
    requires RequestRefused(s, q).None? && !q.complete
    ensures q.boundary.None?
  {
  }

  /** The cursor moves past a log entry of the record. */
  ghost predicate Passed(s: Store, from: int, to: nat, id: Id) {
    exists i :: 0 <= i && from <= i < to && i < |s.log| && s.log[i] == id
  }

  lemma ListedIsTooLarge(s: Store, trusted: Trust, q: Request, page: Page, id: Id)
    requires PageOf(s, trusted, q, page) && id in Oversized(page)
    ensures !q.complete && TooLarge(s, q, id) && Passed(s, q.after, page.cursor, id)
  {
    hide Covered, ClosedPage, StrongPage, WithinBudget, Asked, TooLarge, Outside;
    var j :| 0 <= j < |page.blocked| && page.blocked[j].id == id && page.blocked[j].reason == BudgetExceeded;
    assert s.log[page.blocked[j].sequence - 1] == id;
  }

  // ----- runs and what their requests ask for -----

  ghost predicate StepFor(w: World, v: World, trusted: Trust, requireVerified: bool, ask: Option<Request>) {
    match ask
    case None => StoreStep(w.store, v.store, trusted) && v == w.(store := v.store)
    case Some(q) => PageStepFor(w, v, trusted, requireVerified, q)
  }

  /** A run together with the request of each of its pages; the other steps have none. */
  ghost predicate RunFor(run: seq<World>, asks: seq<Option<Request>>, trusted: Trust, requireVerified: bool) {
    && |run| == |asks| + 1 && run[0] == World(EMPTY, 0, {}, {})
    && forall i :: 0 <= i < |asks| ==> StepFor(run[i], run[i + 1], trusted, requireVerified, asks[i])
  }

  lemma RunForIsRun(run: seq<World>, asks: seq<Option<Request>>, trusted: Trust, requireVerified: bool)
    requires RunFor(run, asks, trusted, requireVerified)
    ensures Run(run, trusted, requireVerified)
  {
    hide StoreStep, PageStepFor;
    forall i | 0 <= i < |run| - 1
      ensures Next(run[i], run[i + 1], trusted, requireVerified)
    {
      assert StepFor(run[i], run[i + 1], trusted, requireVerified, asks[i]);
    }
  }

  /** Every run is one with some requests. */
  lemma {:induction false} RunIsRunFor(run: seq<World>, trusted: Trust, requireVerified: bool)
    returns (asks: seq<Option<Request>>)
    requires Run(run, trusted, requireVerified)
    ensures RunFor(run, asks, trusted, requireVerified)
    decreases |run|
  {
    hide StoreStep, PageStepFor;
    if |run| == 1 {
      asks := [];
    } else {
      var w, v := run[|run| - 2], run[|run| - 1];
      assert Next(run[|run| - 2], run[|run| - 2 + 1], trusted, requireVerified);
      var init := run[..|run| - 1];
      assert Run(init, trusted, requireVerified) by {
        forall i | 0 <= i < |init| - 1
          ensures Next(init[i], init[i + 1], trusted, requireVerified)
        {
          assert Next(run[i], run[i + 1], trusted, requireVerified);
        }
      }
      var before := RunIsRunFor(init, trusted, requireVerified);
      var ask := None;
      if !(StoreStep(w.store, v.store, trusted) && v == w.(store := v.store)) {
        var q :| PageStepFor(w, v, trusted, requireVerified, q);
        ask := Some(q);
      }
      asks := before + [ask];
      forall i | 0 <= i < |asks|
        ensures StepFor(run[i], run[i + 1], trusted, requireVerified, asks[i])
      {
        if i < |before| {
          assert StepFor(init[i], init[i + 1], trusted, requireVerified, before[i]);
        }
      }
    }
  }

  /** One of the first n requests finds the closure of the record too large for the wire, and
      passes it. */
  ghost predicate FoundTooLarge(run: seq<World>, asks: seq<Option<Request>>, n: nat, id: Id)
    requires n <= |asks| < |run|
  {
    exists j :: 0 <= j < n && TooLargeAt(run, asks, j, id)
  }

  ghost predicate TooLargeAt(run: seq<World>, asks: seq<Option<Request>>, j: nat, id: Id)
    requires j < |asks| < |run|
  {
    && asks[j].Some? && !asks[j].value.complete && TooLarge(run[j].store, asks[j].value, id)
    && Passed(run[j].store, run[j].cursor, run[j + 1].cursor, id)
  }

  /** What was reported as oversized is too large for a request that was made. */
  lemma {:induction false} ReportedIsTooLarge(run: seq<World>, asks: seq<Option<Request>>, trusted: Trust,
                                              requireVerified: bool, i: nat, id: Id)
    requires RunFor(run, asks, trusted, requireVerified) && i < |run| && id in run[i].oversized
    ensures FoundTooLarge(run, asks, i, id)
  {
    hide StoreStep, PageOf, TooLarge, SoundRequest, Passed;
    if i > 0 {
      assert StepFor(run[i - 1], run[i - 1 + 1], trusted, requireVerified, asks[i - 1]);
      if id in run[i - 1].oversized {
        ReportedIsTooLarge(run, asks, trusted, requireVerified, i - 1, id);
        var j :| 0 <= j < i - 1 && TooLargeAt(run, asks, j, id);
        assert TooLargeAt(run, asks, j, id);
      } else {
        var w, v, q := run[i - 1], run[i], asks[i - 1].value;
        var page :| PageStepBy(w, v, trusted, requireVerified, q, page);
        ListedIsTooLarge(w.store, trusted, q, page, id);
        assert TooLargeAt(run, asks, i - 1, id);
      }
    }
  }

  /** No lost delivery, from the requests alone: in every state of every run a record whose whole
      closure is admitted has been sent or has a log entry past the cursor, unless some request
      found that closure too large when it passed the record. */
  lemma NothingElseIsLost(run: seq<World>, asks: seq<Option<Request>>, trusted: Trust, requireVerified: bool, i: nat,
                          id: Id)
    requires RunFor(run, asks, trusted, requireVerified) && i < |run| && id in run[i].store.records
    requires Deliverable(run[i].store, trusted, if requireVerified then 2 else 1, id)
    requires !FoundTooLarge(run, asks, i, id)
    ensures id in run[i].sent || id in Ahead(run[i].store, run[i].cursor)
  {
    hide RunFor, Run, FoundTooLarge, Deliverable;
    RunForIsRun(run, asks, trusted, requireVerified);
    NoLostDelivery(run, trusted, requireVerified, i);
    if id in run[i].oversized {
      ReportedIsTooLarge(run, asks, trusted, requireVerified, i, id);
    }
  }

  /** At the head of the log the subscriber holds every deliverable record whose closure every
      request that passed it had room for. */
  lemma CaughtUpWithRoom(run: seq<World>, asks: seq<Option<Request>>, trusted: Trust, requireVerified: bool, i: nat,
                         id: Id)
    requires RunFor(run, asks, trusted, requireVerified) && i < |run| && id in run[i].store.records
    requires Deliverable(run[i].store, trusted, if requireVerified then 2 else 1, id)
    requires run[i].cursor == |run[i].store.log| && !FoundTooLarge(run, asks, i, id)
    ensures id in run[i].sent
  {
    hide RunFor, FoundTooLarge, Deliverable;
    NothingElseIsLost(run, asks, trusted, requireVerified, i, id);
    assert Ahead(run[i].store, run[i].cursor) == [];
  }

  // ----- a record no page of this size can carry -----

  const LARGE: Record := Record(1, 11, Episode, 0, [], 4000)

  function LargeStore(): Store {
    Store(map[1 := LARGE], map[1 := 0], map[1 := AdmissionRow(AcceptedUnsigned, None, None)], map[], [1], map[])
  }

  /** The smallest wire request there is. */
  const SMALLEST: Request := Request(0, 1, 4096, false, false, 0, None)

  function PassingPage(): Page {
    Page(0, 1, false, map[], [Disposition(1, 1, BudgetExceeded)], {})
  }

  function LargeRun(): seq<World> {
    [World(EMPTY, 0, {}, {}), World(LargeStore(), 0, {}, {}), World(LargeStore(), 1, {}, {1})]
  }

  lemma LargeImported(trusted: Trust)
    ensures StoreStep(EMPTY, LargeStore(), trusted)
  {
    assert Readable(LargeStore(), trusted, Dependents(LargeStore(), {})) == {};
    RequeueNothing(LargeStore(), trusted);
    assert Targets(LARGE) == {};
    var b := AdmitOne(Batch(EMPTY, {}, 0), trusted, LARGE, AcceptedUnsigned, None);
    assert b.value.store.ingest == map[1 := 0] && b.value.store.log == [1] && b.value.store.pins == map[];
    assert b == Success(Batch(LargeStore(), {}, 1));
    assert AdmitBatch(EMPTY, trusted, [LARGE], AcceptedUnsigned, map[], 0) == Success(Batch(EMPTY, {}, 0));
    hide Requeue, AdmitOne, Remember, RequeueRecords, QuarantineSigner;
    assert Import(EMPTY, trusted, [LARGE], true) == Success(LargeStore());
  }

  lemma LargeIsTooLarge()
    ensures TooLarge(LargeStore(), SMALLEST, 1)
  {
    var s := LargeStore();
    ReachSelf(RelationGraph(s), 1);
    assert InClosure(s, 1, {1});
    TotalPlus(s, SMALLEST, {}, 1);
    assert {} + {1} == {1};
    assert Total(s, SMALLEST, {1}) == 4256;
  }

  lemma LargePasses(trusted: Trust)
    ensures PageOf(LargeStore(), trusted, SMALLEST, PassingPage())
  {
    var s, q, page := LargeStore(), SMALLEST, PassingPage();
    LargeIsTooLarge();
    hide TooLarge;
    assert Why(s, trusted, q, 1, BudgetExceeded);
    assert page.records.Keys == {};
    assert DispositionBytes(q, page.blocked) == DispositionCost(q, page.blocked[0]) by {
      assert page.blocked[..0] == [];
    }
    assert Listed(page.blocked, 1) by { assert page.blocked[0].sequence == 1; }
    assert PageSoFar(s, trusted, q, {}, page.blocked, 1024 + DispositionBytes(q, page.blocked), 1);
  }

  /** One readable record of 4000 bytes, its closure itself alone, and one wire page of 4096 bytes:
      the page stands at the head of the log and the record was not sent. */
  lemma LargeRecordIsPassed(trusted: Trust)
    ensures RunFor(LargeRun(), [None, Some(SMALLEST)], trusted, false)
    ensures var w := LargeRun()[2];
      && Deliverable(w.store, trusted, 1, 1) && w.cursor == |w.store.log|
      && 1 !in w.sent && 1 !in Ahead(w.store, w.cursor)
  {
    LargeImported(trusted);
    LargeTaken(trusted);
    LargeDelivers(trusted);
    hide StoreStep, PageStepBy, LargeStore, Deliverable;
    var run, asks := LargeRun(), [None, Some(SMALLEST)];
    forall i | 0 <= i < 2
      ensures StepFor(run[i], run[i + 1], trusted, false, asks[i])
    {
      assert i == 0 || i == 1;
    }
  }

  lemma LargeTaken(trusted: Trust)
    ensures PageStepBy(LargeRun()[1], LargeRun()[2], trusted, false, SMALLEST, PassingPage())
  {
    LargePasses(trusted);
    assert Oversized(PassingPage()) == {1} by {
      assert PassingPage().blocked[0] in PassingPage().blocked;
    }
    hide PageOf;
  }

  lemma LargeDelivers(trusted: Trust)
    ensures Deliverable(LargeStore(), trusted, 1, 1) && LargeStore().log == [1]
  {
    var s := LargeStore();
    assert Targets(LARGE) == {};
    assert ClosedUnder(RelationGraph(s), {1});
    forall d | Reach(RelationGraph(s), 1, d)
      ensures RankOf(s, trusted, d) >= 1
    {
      ReachStays(RelationGraph(s), {1}, 1, d);
    }
  }
}
