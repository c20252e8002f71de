/** What a validator has to read for the ids it is asked about, and exactly when it can: every
    record it meets passes on its own, and all of them together fit in its budgets. */
module DependencyDemand {
  import opened Wrappers
  import opened Graphs
  import opened VaultStore
  import opened DependencyEpoch

  const MAX_STORED_PROOF_BYTES: nat := 1024

  /** What a validator holds: rows read, records held, and the bytes of each. */
  datatype Holding = Holding(rows: set<Id>, loaded: map<Id, Record>, databaseBytes: nat, bytesRead: nat)

  /** One call: the snapshot, the registry of its begin, the ids a certificate answers for, the ids
      already checked, the ids asked about, and what is held before. */
  datatype Demand = Demand(db: Db, registry: Registry, ranks: Trust, hits: set<Id>, checked: set<Id>,
                           ids: seq<Id>, held: Holding)

  /** The relations that are followed: those of records neither checked nor answered for. */
  function Followed(m: Demand): (g: Graph) {
    map id | id in m.db.memories && id !in m.checked && id !in m.hits :: Targets(m.db.memories[id])
  }

  ghost predicate Needs(m: Demand, id: Id) {
    id !in m.checked && exists root :: root in m.ids && Reach(Followed(m), root, id)
  }

  ghost function NeedSet(m: Demand): set<Id> {
    set id | id in m.db.memories && Needs(m, id)
  }

  /** The row is shown and verified by a key trusted now, and its proof is small enough to be read. */
  predicate RowLoads(d: Db, r: Registry, ranks: Trust, id: Id) {
    && id in d.memories && id in d.rows && Rank(ranks, d.rows[id]) > 0
    && d.rows[id].state == Verified && d.rows[id].proof.Some?
    && d.rows[id].proof.value.bytes <= MAX_STORED_PROOF_BYTES
    && d.rows[id].signer.Some? && d.rows[id].signer.value in r.trusted
  }

  /** The record is the one held under its id. */
  predicate BodyLoads(d: Db, loaded: map<Id, Record>, id: Id)
    requires id in d.memories
  {
    if id in loaded then loaded[id].sha == d.memories[id].sha else d.memories[id].id == id
  }

  predicate Loads(d: Db, r: Registry, ranks: Trust, loaded: map<Id, Record>, id: Id) {
    RowLoads(d, r, ranks, id) && BodyLoads(d, loaded, id)
  }

  predicate ProofHolds(d: Db, r: Registry, id: Id)
    requires id in d.memories && id in d.rows && d.rows[id].proof.Some?
  {
    var proof := d.rows[id].proof.value;
    proof.wellFormed && proof.digest == d.memories[id].sha && proof.key in r.trusted
  }

  predicate Passes(m: Demand, id: Id) {
    && Loads(m.db, m.registry, m.ranks, m.held.loaded, id)
    && (id in m.hits || ProofHolds(m.db, m.registry, id))
  }

  predicate RoomForRow(d: Db, h: Holding, id: Id)
    requires id in d.memories
  {
    || id in h.rows
    || (|h.rows| < MAX_BUNDLE_RECORDS && h.databaseBytes + d.memories[id].bytes <= MAX_BUNDLE_BYTES)
  }

  predicate RoomForBody(d: Db, h: Holding, id: Id)
    requires id in d.memories
  {
    || id in h.loaded
    || (|h.loaded| < MAX_BUNDLE_RECORDS && h.bytesRead + d.memories[id].bytes <= MAX_BUNDLE_BYTES)
  }

  /** Room to read one more. */
  predicate Room(d: Db, h: Holding, id: Id)
    requires id in d.memories
  {
    RoomForRow(d, h, id) && RoomForBody(d, h, id)
  }

  /** What is held after reading one more. */
  function WithOne(d: Db, h: Holding, id: Id): Holding
    requires id in d.memories
  {
    Holding(h.rows + {id}, h.loaded[id := d.memories[id]],
            h.databaseBytes + if id in h.rows then 0 else d.memories[id].bytes,
            h.bytesRead + if id in h.loaded then 0 else d.memories[id].bytes)
  }

  /** touch: a record met twice must be the same one; a new one must fit. */
  function WithTouched(h: Holding, record: Record): Result<Holding> {
    if record.id in h.loaded then
      if h.loaded[record.id] == record then Success(h) else Failure(MemoryIdentityConflict)
    else if |h.loaded| >= MAX_BUNDLE_RECORDS || h.bytesRead + record.bytes > MAX_BUNDLE_BYTES then
      Failure(DependencyRevalidationRequired)
    else
      Success(h.(loaded := h.loaded[record.id := record], bytesRead := h.bytesRead + record.bytes))
  }

  /** What is held after touching the records in order. */
  function WithAllTouched(h: Holding, records: seq<Record>): Result<Holding> {
    if records == [] then Success(h)
    else
      match WithAllTouched(h, records[..|records| - 1])
      case Failure(e) => Failure(e)
      case Success(before) => WithTouched(before, records[|records| - 1])
  }

  lemma TouchedPrefix(h: Holding, records: seq<Record>, k: nat)
    requires k < |records|
    ensures WithAllTouched(h, records[..k + 1]) ==
            match WithAllTouched(h, records[..k])
            case Failure(e) => Failure(e)
            case Success(before) => WithTouched(before, records[k])
  {
    assert records[..k + 1][..k] == records[..k];
  }

  lemma {:induction false} TouchedFails(h: Holding, records: seq<Record>, k: nat)
    requires k <= |records| && WithAllTouched(h, records[..k]).Failure?
    ensures WithAllTouched(h, records).Failure?
    decreases |records| - k
  {
    if k < |records| {
      TouchedPrefix(h, records, k);
      TouchedFails(h, records, k + 1);
    } else {
      assert records[..k] == records;
    }
  }

  function IdList(records: seq<Record>): (r: seq<Id>)
    ensures |r| == |records| && forall i :: 0 <= i < |r| ==> r[i] == records[i].id
  {
    seq(|records|, i requires 0 <= i < |records| => records[i].id)
  }

  /** Everything needed fits, on top of what is held. */
  ghost predicate Fits(m: Demand) {
    var need := NeedSet(m);
    && |m.held.rows + need| <= MAX_BUNDLE_RECORDS && |m.held.loaded.Keys + need| <= MAX_BUNDLE_RECORDS
    && m.held.databaseBytes + SizeOf(m.db.memories, need - m.held.rows) <= MAX_BUNDLE_BYTES
    && m.held.bytesRead + SizeOf(m.db.memories, need - m.held.loaded.Keys) <= MAX_BUNDLE_BYTES
  }

  ghost predicate AllPass(m: Demand) {
    forall id :: Needs(m, id) ==> Passes(m, id)
  }

  /** The call can be answered. */
  ghost predicate Satisfied(m: Demand) {
    AllPass(m) && Fits(m)
  }

  // ----- part way through -----

  /** What is held once the visited records have been read, and nothing else. */
  ghost predicate Holds(m: Demand, visited: set<Id>, now: Holding) {
    && visited <= m.db.memories.Keys
    && now.rows == m.held.rows + visited && now.loaded.Keys == m.held.loaded.Keys + visited
    && (forall id :: id in m.held.loaded && id !in visited ==> now.loaded[id] == m.held.loaded[id])
    && now.databaseBytes == m.held.databaseBytes + SizeOf(m.db.memories, visited - m.held.rows)
    && now.bytesRead == m.held.bytesRead + SizeOf(m.db.memories, visited - m.held.loaded.Keys)
  }

  /** Whatever is asked for or followed to is checked, visited or pending. */
  ghost predicate Covers(m: Demand, visited: set<Id>, pending: seq<Id>) {
    && (forall id :: id in m.ids ==> id in m.checked || id in visited || id in pending)
    && (forall id, t :: id in visited && t in Succ(Followed(m), id) ==>
          t in m.checked || t in visited || t in pending)
  }

  /** Only what is needed is visited or pending, and each once. */
  ghost predicate Wanted(m: Demand, visited: set<Id>, pending: seq<Id>) {
    && (forall id :: id in visited ==> Needs(m, id)) && (forall id :: id in pending ==> Needs(m, id))
    && (forall i, j :: 0 <= i < j < |pending| ==> pending[i] != pending[j])
    && (forall id :: id in pending ==> id !in visited)
  }

  ghost predicate VisitedPass(m: Demand, visited: set<Id>) {
    forall id :: id in visited ==> Passes(m, id)
  }

  ghost predicate Underway(m: Demand, steady: bool, visited: set<Id>, pending: seq<Id>, now: Holding) {
    && Holds(m, visited, now) && Covers(m, visited, pending) && Wanted(m, visited, pending)
    && (steady ==> VisitedPass(m, visited))
  }

  lemma UnderwayStart(m: Demand, steady: bool, pending: seq<Id>)
    requires forall id :: id in pending <==> id in m.ids && id !in m.checked
    requires forall i, j :: 0 <= i < j < |pending| ==> pending[i] != pending[j]
    ensures Underway(m, steady, {}, pending, m.held)
  {
    assert {} - m.held.rows == {} && {} - m.held.loaded.Keys == {};
    forall id | id in pending
      ensures Needs(m, id)
    {
      ReachSelf(Followed(m), id);
    }
  }

  lemma UnderwaySkip(m: Demand, steady: bool, visited: set<Id>, rest: seq<Id>, id: Id, now: Holding)
    requires Underway(m, steady, visited, rest + [id], now) && (id in m.checked || id in visited)
    ensures Underway(m, steady, visited, rest, now)
  {
    hide Holds, VisitedPass, Needs;
    Dropped(m, visited, rest, id);
  }

  /** Popping the last pending id leaves the others wanted, and apart from it. */
  lemma Dropped(m: Demand, visited: set<Id>, rest: seq<Id>, id: Id)
    requires Wanted(m, visited, rest + [id])
    ensures Wanted(m, visited, rest) && Needs(m, id) && id !in rest && id !in visited
    ensures forall x :: x in rest + [id] <==> x in rest || x == id
  {
    hide Needs;
    var all := rest + [id];
    assert all[|rest|] == id;
    forall i | 0 <= i < |rest|
      ensures rest[i] == all[i] && rest[i] != id
    {
      assert all[i] != all[|rest|];
    }
  }

  lemma HoldsOne(m: Demand, visited: set<Id>, now: Holding, id: Id)
    requires Holds(m, visited, now) && id in m.db.memories && id !in visited
    ensures Holds(m, visited + {id}, WithOne(m.db, now, id))
  {
    OneMore(m.db, visited, m.held.rows, id);
    OneMore(m.db, visited, m.held.loaded.Keys, id);
  }

  lemma OneMore(d: Db, visited: set<Id>, before: set<Id>, id: Id)
    requires visited <= d.memories.Keys && id in d.memories && id !in visited
    ensures SizeOf(d.memories, (visited + {id}) - before)
            == SizeOf(d.memories, visited - before) + if id in before + visited then 0 else d.memories[id].bytes
  {
    if id in before {
      assert (visited + {id}) - before == visited - before;
    } else {
      assert (visited + {id}) - before == (visited - before) + {id};
      SizeWith(d.memories, visited - before, id);
    }
  }

  lemma NeedsNext(m: Demand, id: Id, t: Id)
    requires Needs(m, id) && t in Succ(Followed(m), id) && t !in m.checked
    ensures Needs(m, t)
  {
    var root :| root in m.ids && Reach(Followed(m), root, id);
    ReachEdge(Followed(m), id, t);
    ReachTrans(Followed(m), root, id, t);
  }

  lemma UnderwayHit(m: Demand, before: bool, after: bool, visited: set<Id>, rest: seq<Id>, id: Id, now: Holding)
    requires Underway(m, before, visited, rest + [id], now) && id in m.db.memories && id in m.hits
    requires after ==> before && Loads(m.db, m.registry, m.ranks, now.loaded, id)
    ensures Underway(m, after, visited + {id}, rest, WithOne(m.db, now, id))
  {
    Dropped(m, visited, rest, id);
    HoldsOne(m, visited, now, id);
    SameLoads(m, visited, now, id);
    hide Holds, Needs, Loads;
  }

  lemma UnderwayOpened(m: Demand, before: bool, after: bool, visited: set<Id>, rest: seq<Id>, id: Id, now: Holding,
                       more: seq<Id>)
    requires Underway(m, before, visited, rest + [id], now) && id in m.db.memories && id !in m.hits
    requires after ==> before && Loads(m.db, m.registry, m.ranks, now.loaded, id)
                       && ProofHolds(m.db, m.registry, id)
    requires forall t :: t in more <==>
               t in Targets(m.db.memories[id]) && t !in rest && t !in visited + {id} && t !in m.checked
    requires forall i, j :: 0 <= i < j < |more| ==> more[i] != more[j]
    ensures Underway(m, after, visited + {id}, rest + more, WithOne(m.db, now, id))
  {
    hide Needs, Loads, ProofHolds;
    Dropped(m, visited, rest, id);
    HoldsOne(m, visited, now, id);
    SameLoads(m, visited, now, id);
    assert after ==> VisitedPass(m, visited + {id});
    hide Holds, Passes, VisitedPass;
    WantedMore(m, visited, rest, id, more);
    CoversMore(m, visited, rest, id, more);
  }

  lemma WantedMore(m: Demand, visited: set<Id>, rest: seq<Id>, id: Id, more: seq<Id>)
    requires Wanted(m, visited, rest) && Needs(m, id) && id !in rest && id in m.db.memories && id !in m.hits
    requires forall t :: t in more ==>
               t in Targets(m.db.memories[id]) && t !in rest && t !in visited + {id} && t !in m.checked
    requires forall i, j :: 0 <= i < j < |more| ==> more[i] != more[j]
    ensures Wanted(m, visited + {id}, rest + more)
  {
    assert id in Followed(m);
    hide Targets;
    forall t | t in more
      ensures Needs(m, t)
    {
      NeedsNext(m, id, t);
    }
    hide Needs, Followed;
    EachOnce(rest, more);
  }

  lemma EachOnce(rest: seq<Id>, more: seq<Id>)
    requires forall i, j :: 0 <= i < j < |rest| ==> rest[i] != rest[j]
    requires forall i, j :: 0 <= i < j < |more| ==> more[i] != more[j]
    requires forall t :: t in more ==> t !in rest
    ensures forall x :: x in rest + more <==> x in rest || x in more
    ensures forall i, j :: 0 <= i < j < |rest + more| ==> (rest + more)[i] != (rest + more)[j]
  {
    forall i, j | 0 <= i < j < |rest + more|
      ensures (rest + more)[i] != (rest + more)[j]
    {
      if j >= |rest| {
        assert (rest + more)[j] == more[j - |rest|] && more[j - |rest|] in more;
        assert (rest + more)[i] == if i < |rest| then rest[i] else more[i - |rest|];
      }
    }
  }

  lemma CoversMore(m: Demand, visited: set<Id>, rest: seq<Id>, id: Id, more: seq<Id>)
    requires Covers(m, visited, rest + [id]) && id in m.db.memories
    requires forall t :: t in Targets(m.db.memories[id]) ==>
               t in more || t in rest || t in visited + {id} || t in m.checked
    ensures Covers(m, visited + {id}, rest + more)
  {
    assert forall x :: x in rest + [id] <==> x in rest || x == id;
    assert forall x :: x in rest + more <==> x in rest || x in more;
  }

  // ----- how it ends -----

  /** With nothing pending, exactly the needed records have been visited. */
  lemma VisitedAll(m: Demand, steady: bool, visited: set<Id>, now: Holding)
    requires Underway(m, steady, visited, [], now)
    ensures NeedSet(m) == visited && forall id :: Needs(m, id) ==> id in visited
  {
    hide Holds, VisitedPass, Targets;
    assert visited <= m.db.memories.Keys by { VisitedAreStored(m, visited, now); }
    var g := Followed(m);
    assert ClosedUnder(g, visited + m.checked);
    forall id | Needs(m, id)
      ensures id in visited
    {
      var root :| root in m.ids && Reach(g, root, id);
      ReachStays(g, visited + m.checked, root, id);
    }
  }

  lemma VisitedAreStored(m: Demand, visited: set<Id>, now: Holding)
    requires Holds(m, visited, now)
    ensures visited <= m.db.memories.Keys
  {
  }

  /** The budgets of a bundle. */
  predicate WithinBudgets(h: Holding) {
    && |h.rows| <= MAX_BUNDLE_RECORDS && |h.loaded.Keys| <= MAX_BUNDLE_RECORDS
    && h.databaseBytes <= MAX_BUNDLE_BYTES && h.bytesRead <= MAX_BUNDLE_BYTES
  }

  /** The walk that gets through could be answered. */
  lemma WalkSatisfies(m: Demand, visited: set<Id>, now: Holding)
    requires Underway(m, true, visited, [], now) && WithinBudgets(now)
    ensures Satisfied(m)
  {
    VisitedAll(m, true, visited, now);
    hide Needs, Loads, Followed, Covers, Wanted, Passes;
  }

  /** A record that cannot be loaded where the walk stands. */
  lemma LoadRefused(m: Demand, steady: bool, visited: set<Id>, rest: seq<Id>, id: Id, now: Holding)
    requires Underway(m, steady, visited, rest + [id], now)
    requires !Loads(m.db, m.registry, m.ranks, now.loaded, id) || !Room(m.db, now, id)
    ensures !Satisfied(m)
  {
    Dropped(m, visited, rest, id);
    hide Needs, Covers;
    if Satisfied(m) {
      assert Passes(m, id);
      assert Loads(m.db, m.registry, m.ranks, now.loaded, id) by { SameLoads(m, visited, now, id); }
      RoomFor(m, visited, now, id);
      assert false;
    }
  }

  lemma SameLoads(m: Demand, visited: set<Id>, now: Holding, id: Id)
    requires Holds(m, visited, now) && id !in visited
    ensures Loads(m.db, m.registry, m.ranks, now.loaded, id) <==> Loads(m.db, m.registry, m.ranks, m.held.loaded, id)
  {
    assert id in now.loaded <==> id in m.held.loaded;
  }

  /** Where everything needed fits, the next one does. */
  lemma RoomFor(m: Demand, visited: set<Id>, now: Holding, id: Id)
    requires Holds(m, visited, now) && Fits(m) && visited <= NeedSet(m) && id in NeedSet(m) && id !in visited
    ensures id in m.db.memories && Room(m.db, now, id)
  {
    assert NeedSet(m) <= m.db.memories.Keys;
    hide Needs, NeedSet;
    RowFits(m, visited, now, id, NeedSet(m));
    BodyFits(m, visited, now, id, NeedSet(m));
  }

  lemma RowFits(m: Demand, visited: set<Id>, now: Holding, id: Id, need: set<Id>)
    requires Holds(m, visited, now) && visited <= need <= m.db.memories.Keys && id in need && id !in visited
    requires |m.held.rows + need| <= MAX_BUNDLE_RECORDS
    requires m.held.databaseBytes + SizeOf(m.db.memories, need - m.held.rows) <= MAX_BUNDLE_BYTES
    ensures RoomForRow(m.db, now, id)
  {
    OneFits(m.db, visited, m.held.rows, need, id);
  }

  lemma BodyFits(m: Demand, visited: set<Id>, now: Holding, id: Id, need: set<Id>)
    requires Holds(m, visited, now) && visited <= need <= m.db.memories.Keys && id in need && id !in visited
    requires |m.held.loaded.Keys + need| <= MAX_BUNDLE_RECORDS
    requires m.held.bytesRead + SizeOf(m.db.memories, need - m.held.loaded.Keys) <= MAX_BUNDLE_BYTES
    ensures RoomForBody(m.db, now, id)
  {
    OneFits(m.db, visited, m.held.loaded.Keys, need, id);
    assert id in now.loaded <==> id in now.loaded.Keys;
    assert |now.loaded| == |now.loaded.Keys|;
  }

  lemma OneFits(d: Db, visited: set<Id>, before: set<Id>, need: set<Id>, id: Id)
    requires visited <= need <= d.memories.Keys && id in need && id !in visited
    ensures id !in before ==> |before + visited| + 1 <= |before + need|
    ensures id !in before ==>
              SizeOf(d.memories, visited - before) + d.memories[id].bytes <= SizeOf(d.memories, need - before)
  {
    if id in before {
      return;
    }
    assert before + (visited + {id}) == (before + visited) + {id};
    CountMonotone(before + (visited + {id}), before + need);
    OneMore(d, visited, before, id);
    SizeMonotone(d.memories, (visited + {id}) - before, need - before);
  }

  lemma ProofRefused(m: Demand, steady: bool, visited: set<Id>, rest: seq<Id>, id: Id, now: Holding)
    requires Underway(m, steady, visited, rest + [id], now)
    requires id in m.db.memories && id in m.db.rows && m.db.rows[id].proof.Some?
    requires id !in m.hits && !ProofHolds(m.db, m.registry, id)
    ensures !Satisfied(m)
  {
    Dropped(m, visited, rest, id);
    hide Needs, Covers, Holds;
  }

  lemma TargetsNeeded(m: Demand, id: Id, added: set<Id>)
    requires Needs(m, id) && id in m.db.memories && id !in m.hits
    requires forall t :: t in added ==> t in Targets(m.db.memories[id]) && t !in m.checked
    ensures forall t :: t in added ==> Needs(m, t)
  {
    assert id in Followed(m);
    forall t | t in added
      ensures Needs(m, t)
    {
      hide Targets;
      NeedsNext(m, id, t);
    }
  }

  /** New targets that would take the worklist past the record bound. */
  lemma TargetsRefused(m: Demand, steady: bool, visited: set<Id>, rest: seq<Id>, id: Id, now: Holding,
                       queued: set<Id>, added: set<Id>)
    requires Underway(m, steady, visited, rest + [id], now) && id in m.db.memories && id !in m.hits
    requires m.checked <= m.held.rows
    requires queued == set x | x in rest
    requires forall t :: t in added ==>
               t in Targets(m.db.memories[id]) && t !in rest && t !in visited + {id} && t !in m.checked
    requires |queued + added| + |visited + {id}| + |m.checked| > MAX_BUNDLE_RECORDS
    ensures !Satisfied(m)
  {
    hide Needs, NeedSet, AllPass, Covers, Holds, Targets, Loads, Passes, Followed, SizeOf;
    Dropped(m, visited, rest, id);
    TargetsNeeded(m, id, added);
    if AllPass(m) {
      PassedIsNeeded(m);
      TooMany(m, queued + added, visited + {id});
    }
  }

  lemma TooMany(m: Demand, a: set<Id>, b: set<Id>)
    requires a <= NeedSet(m) && b <= NeedSet(m) && a !! b && NeedSet(m) !! m.checked && m.checked <= m.held.rows
    requires |a| + |b| + |m.checked| > MAX_BUNDLE_RECORDS
    ensures !Fits(m)
  {
    ThreeParts(a, b, m.checked, m.held.rows, NeedSet(m));
  }

  lemma PassedIsNeeded(m: Demand)
    requires AllPass(m)
    ensures forall id :: Needs(m, id) ==> id in NeedSet(m)
    ensures NeedSet(m) !! m.checked
  {
    hide Reach;
  }

  lemma ThreeParts(a: set<Id>, b: set<Id>, c: set<Id>, before: set<Id>, need: set<Id>)
    requires a <= need && b <= need && a !! b && need !! c && c <= before
    ensures |a| + |b| + |c| <= |before + need|
  {
    assert |a + b| == |a| + |b|;
    assert |(a + b) + c| == |a + b| + |c|;
    CountMonotone((a + b) + c, before + need);
  }

  // ----- without certificates and with nothing held -----

  /** A sufficient condition a caller can read off the closure itself. */
  lemma GoodClosureSatisfies(m: Demand, closure: set<Id>)
    requires forall id :: id in closure <==> exists root :: root in m.ids && Reach(DependencyGraph(m.db), root, id)
    requires forall id :: id in closure ==>
               && RecordGood(m.db, m.registry, id) && Rank(m.ranks, m.db.rows[id]) > 0
               && m.db.rows[id].proof.value.bytes <= MAX_STORED_PROOF_BYTES && m.db.memories[id].id == id
    requires m.held == Holding({}, map[], 0, 0)
    requires closure <= m.db.memories.Keys
    requires |closure| <= MAX_BUNDLE_RECORDS && SizeOf(m.db.memories, closure) <= MAX_BUNDLE_BYTES
    ensures Satisfied(m)
  {
    hide RecordGood, Passes, Reach, Followed, SizeOf;
    forall id | Needs(m, id)
      ensures id in closure && Passes(m, id)
    {
      var root :| root in m.ids && Reach(Followed(m), root, id);
      FollowedReaches(m, root, id);
      GoodPasses(m, id);
    }
    SmallFits(m, closure);
  }

  lemma SmallFits(m: Demand, closure: set<Id>)
    requires closure <= m.db.memories.Keys && forall id :: Needs(m, id) ==> id in closure
    requires m.held == Holding({}, map[], 0, 0)
    requires |closure| <= MAX_BUNDLE_RECORDS && SizeOf(m.db.memories, closure) <= MAX_BUNDLE_BYTES
    ensures Fits(m)
  {
    hide Needs;
    var need := NeedSet(m);
    assert need <= closure;
    hide SizeOf;
    NothingBeside(need);
    assert m.held.rows == {} && m.held.loaded.Keys == {};
    CountMonotone(need, closure);
    SizeMonotone(m.db.memories, need, closure);
  }

  lemma NothingBeside(need: set<Id>)
    ensures {} + need == need && need - {} == need
  {
  }

  lemma GoodPasses(m: Demand, id: Id)
    requires RecordGood(m.db, m.registry, id) && Rank(m.ranks, m.db.rows[id]) > 0
    requires m.db.rows[id].proof.value.bytes <= MAX_STORED_PROOF_BYTES && m.db.memories[id].id == id
    requires m.held.loaded == map[]
    ensures Passes(m, id)
  {
  }

  lemma FollowedReaches(m: Demand, a: Id, b: Id)
    requires Reach(Followed(m), a, b)
    ensures Reach(DependencyGraph(m.db), a, b)
  {
    var p :| IsPath(Followed(m), p) && p[0] == a && p[|p| - 1] == b;
    assert IsPath(DependencyGraph(m.db), p) by {
      forall i | 0 <= i < |p| - 1
        ensures p[i + 1] in Succ(DependencyGraph(m.db), p[i])
      {
        assert p[i + 1] in Succ(Followed(m), p[i]);
      }
    }
  }
}
