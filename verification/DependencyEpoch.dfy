/** The dependency-validation cache over whole runs: epoch triggers, concurrent writers
    that commit or roll back, and certificates that are stored arbitrarily late. */
module DependencyEpoch {
  import opened Wrappers
  import opened Graphs
  import opened VaultStore

  const COUNTER_LIMIT: nat := 9223372036854775807

  /** A trust registry; each write to it raises the revision, so equal digests mean one
      and the same registry. */
  datatype Registry = Registry(revision: nat, trusted: set<Key>)

  datatype Epoch = Epoch(nonce: nat, counter: nat)

  /** The tables the triggers watch, and the trigger extension itself. */
  datatype Db = Db(memories: map<Id, Record>, rows: map<Id, AdmissionRow>, installed: bool, nonce: nat, counter: nat)

  /** dependency_epoch: no stamp without the exact triggers. */
  function EpochOf(d: Db): Option<Epoch> {
    if d.installed && d.counter <= COUNTER_LIMIT then Some(Epoch(d.nonce, d.counter)) else None
  }

  /** One row change of some writer, known or older, or a change to the extension. */
  datatype Op =
    | InsertMemory(record: Record)
    | ReplaceMemory(record: Record)
    | UpdateMemory(id: Id, record: Record)
    | DeleteMemory(id: Id)
    | InsertRow(id: Id, row: AdmissionRow)
    | UpdateRow(id: Id, row: AdmissionRow)
    | ReplaceRow(id: Id, row: AdmissionRow)
    | DeleteRow(id: Id)
    | DropTriggers
    | EnsureEpoch(nonce: nat)

  /** A change of an existing row steps the counter, and aborts when it cannot. */
  function Step(d: Db): Option<Db> {
    if !d.installed then Some(d)
    else if d.counter < COUNTER_LIMIT then Some(d.(counter := d.counter + 1))
    else None
  }

  /** Rows an INSERT OR REPLACE of this record would displace. */
  function Displaced(d: Db, record: Record): set<Id> {
    set id | id in d.memories && (id == record.id || d.memories[id].sha == record.sha)
  }

  function Apply(d: Db, op: Op): Option<Db> {
    match op
    case InsertMemory(record) =>
      if Displaced(d, record) != {} then None else Some(d.(memories := d.memories[record.id := record]))
    case ReplaceMemory(record) =>
      if Displaced(d, record) == {} then Some(d.(memories := d.memories[record.id := record]))
      else
        var s := Step(d);
        if s.None? then None
        else Some(s.value.(memories := (d.memories - Displaced(d, record))[record.id := record]))
    case UpdateMemory(id, record) =>
      if id !in d.memories then Some(d)
      else if Displaced(d.(memories := d.memories - {id}), record) != {} then None
      else
        var s := Step(d);
        if s.None? then None else Some(s.value.(memories := (d.memories - {id})[record.id := record]))
    case DeleteMemory(id) =>
      if id !in d.memories then Some(d) else
        var s := Step(d);
        if s.None? then None else Some(s.value.(memories := d.memories - {id}))
    case InsertRow(id, row) =>
      if id in d.rows then None else Some(d.(rows := d.rows[id := row]))
    case UpdateRow(id, row) =>
      if id !in d.rows then Some(d) else
        var s := Step(d);
        if s.None? then None else Some(s.value.(rows := d.rows[id := row]))
    case ReplaceRow(id, row) =>
      if id !in d.rows then Some(d.(rows := d.rows[id := row])) else
        var s := Step(d);
        if s.None? then None else Some(s.value.(rows := d.rows[id := row]))
    case DeleteRow(id) =>
      if id !in d.rows then Some(d) else
        var s := Step(d);
        if s.None? then None else Some(s.value.(rows := d.rows - {id}))
    case DropTriggers => Some(d.(installed := false))
    case EnsureEpoch(nonce) =>
      if EpochOf(d).Some? then Some(d) else Some(d.(installed := true, nonce := nonce, counter := 0))
  }

  // ----- what a certificate says -----

  function DependencyGraph(d: Db): (g: Graph)
    ensures g.Keys == d.memories.Keys
  {
    map id | id in d.memories :: Targets(d.memories[id])
  }

  /** Present, verified, signed, and signed by a key of the registry. */
  predicate RecordGood(d: Db, r: Registry, id: Id) {
    && id in d.memories && id in d.rows && d.rows[id].state == Verified
    && d.rows[id].signer.Some? && d.rows[id].signer.value in r.trusted
    && d.rows[id].proof.Some? && d.rows[id].proof.value.key in r.trusted
    && d.rows[id].proof.value.wellFormed && d.rows[id].proof.value.digest == d.memories[id].sha
  }

  /** Full closure verification, the meaning of a certificate. */
  ghost predicate ClosureGood(d: Db, r: Registry, id: Id) {
    forall e :: Reach(DependencyGraph(d), id, e) ==> RecordGood(d, r, e)
  }

  datatype Certificate = Certificate(sha: nat, epoch: Epoch, registry: Registry)

  type Cache = map<Id, Certificate>

  /** The stored stamp applies to the record in this state under this registry. */
  predicate Hits(cache: Cache, d: Db, r: Registry, id: Id) {
    && id in cache && id in d.memories && EpochOf(d) == Some(cache[id].epoch)
    && cache[id].registry == r && cache[id].sha == d.memories[id].sha
  }

  ghost predicate CacheSound(cache: Cache, d: Db) {
    forall r, id :: Hits(cache, d, r, id) ==> ClosureGood(d, r, id)
  }

  /** Only rows that were not there before. */
  ghost predicate FreshOnly(a: Db, b: Db) {
    && (forall id :: id in a.memories ==> id in b.memories && b.memories[id] == a.memories[id])
    && (forall id :: id in a.rows ==> id in b.rows && b.rows[id] == a.rows[id])
  }

  /** Fresh rows cannot change a closure that was already whole. */
  lemma FreshKeepsClosure(a: Db, b: Db, r: Registry, id: Id)
    requires FreshOnly(a, b) && ClosureGood(a, r, id)
    ensures ClosureGood(b, r, id)
  {
    hide RecordGood;
    var g, h := DependencyGraph(a), DependencyGraph(b);
    var s := ReachSet(g, id, a.memories.Keys);
    ReachSelf(g, id);
    forall e | Reach(g, id, e)
      ensures e in s
    {
      assert e in a.memories by { GoodIsPresent(a, r, e); }
    }
    forall n, m | n in s && m in Succ(g, n)
      ensures m in s
    {
      ReachEdge(g, n, m);
      ReachTrans(g, id, n, m);
    }
    assert forall n :: n in s ==> Succ(g, n) == Succ(h, n);
    forall e | Reach(h, id, e)
      ensures RecordGood(b, r, e)
    {
      ReachAgrees(g, h, s, id, e);
      FreshKeepsGood(a, b, r, e);
    }
  }

  lemma GoodIsPresent(d: Db, r: Registry, id: Id)
    requires RecordGood(d, r, id)
    ensures id in d.memories && id in d.rows
  {
  }

  lemma FreshKeepsGood(a: Db, b: Db, r: Registry, id: Id)
    requires FreshOnly(a, b) && RecordGood(a, r, id)
    ensures RecordGood(b, r, id)
  {
  }

  // ----- runs -----

  /** Certificates a finished validation holds and has not stored yet. */
  datatype Pending = Pending(certificates: map<Id, Record>, epoch: Epoch, registry: Registry)

  /** All committed states so far, the nonces ever drawn, the cache, and what waits to be stored. */
  datatype World = World(history: seq<Db>, nonces: set<nat>, cache: Cache, pending: seq<Pending>)

  /** The last committed state; a history is never empty in a run. */
  function Current(w: World): Db {
    if |w.history| > 0 then w.history[|w.history| - 1] else Db(map[], map[], false, 0, 0)
  }

  /** What a validation that finished on a state certifies. */
  ghost predicate Certified(d: Db, p: Pending) {
    EpochOf(d) == Some(p.epoch)
    && forall id :: id in p.certificates ==>
         id in d.memories && d.memories[id] == p.certificates[id] && ClosureGood(d, p.registry, id)
  }

  /** The working state after a writer's operations; nonces are drawn fresh. */
  ghost predicate Works(d: Db, nonces: set<nat>, ops: seq<Op>, e: Db, used: set<nat>)
    decreases |ops|
  {
    if ops == [] then d == e && used == nonces
    else
      var op := ops[0];
      && (op.EnsureEpoch? ==> op.nonce !in nonces)
      && Apply(d, op).Some?
      && Works(Apply(d, op).value, if op.EnsureEpoch? then nonces + {op.nonce} else nonces, ops[1..], e, used)
  }

  function Stored(cache: Cache, p: Pending): Cache {
    cache + map id | id in p.certificates :: Certificate(p.certificates[id].sha, p.epoch, p.registry)
  }

  /** A writer commits, with or without a validation inside its transaction. */
  ghost predicate Commits(w: World, v: World, ops: seq<Op>, e: Db, used: set<nat>, found: Option<Pending>) {
    && Works(Current(w), w.nonces, ops, e, used) && (found.Some? ==> Certified(e, found.value))
    && v == World(w.history + [e], used, w.cache, if found.Some? then w.pending + [found.value] else w.pending)
  }

  /** A writer rolls back; the nonces it drew are spent. */
  ghost predicate RollsBack(w: World, v: World, ops: seq<Op>, e: Db, used: set<nat>) {
    Works(Current(w), w.nonces, ops, e, used) && v == w.(nonces := used)
  }

  /** A reader validates the committed state. */
  ghost predicate Finds(w: World, v: World, p: Pending) {
    Certified(Current(w), p) && v == w.(pending := w.pending + [p])
  }

  /** Finished certificates are stored, in any order, however late. */
  ghost predicate Persists(w: World, v: World, k: nat) {
    k < |w.pending| && v == w.(cache := Stored(w.cache, w.pending[k]), pending := w.pending[..k] + w.pending[k + 1..])
  }

  /** One of these, or the disposable index is lost. */
  ghost predicate Next(w: World, v: World) {
    |w.history| > 0
    && (|| (exists ops, e, used, found :: Commits(w, v, ops, e, used, found))
        || (exists ops, e, used :: RollsBack(w, v, ops, e, used))
        || (exists p :: Finds(w, v, p))
        || (exists k :: Persists(w, v, k))
        || v == w.(cache := map[]))
  }

  ghost predicate Initial(w: World) {
    |w.history| == 1 && w.cache == map[] && w.pending == []
    && (EpochOf(w.history[0]).Some? ==> w.history[0].nonce in w.nonces)
  }

  /** A state is later than every committed one: under an old nonce its counter has not
      fallen, and where it has not moved either only fresh rows were added. */
  ghost predicate Tracks(history: seq<Db>, nonces: set<nat>, d: Db) {
    forall i :: 0 <= i < |history| && EpochOf(history[i]).Some? ==>
      && history[i].nonce in nonces
      && (d.installed && d.nonce == history[i].nonce ==>
            d.counter >= history[i].counter && (d.counter == history[i].counter ==> FreshOnly(history[i], d)))
  }

  lemma ApplyTracks(history: seq<Db>, nonces: set<nat>, d: Db, op: Op)
    requires Tracks(history, nonces, d) && Apply(d, op).Some?
    requires op.EnsureEpoch? ==> op.nonce !in nonces
    ensures Tracks(history, if op.EnsureEpoch? then nonces + {op.nonce} else nonces, Apply(d, op).value)
  {
    var e := Apply(d, op).value;
    forall i | 0 <= i < |history| && EpochOf(history[i]).Some? && e.installed && e.nonce == history[i].nonce
      ensures e.counter >= history[i].counter && (e.counter == history[i].counter ==> FreshOnly(history[i], e))
    {
      if e.counter == d.counter && e.nonce == d.nonce && d.installed {
        OpAddsOnly(d, op);
        if e.counter == history[i].counter {
          assert FreshOnly(history[i], d) && FreshOnly(d, e);
        }
      }
    }
  }

  /** With the triggers in place, an operation that leaves the counter alone only adds rows. */
  lemma OpAddsOnly(d: Db, op: Op)
    requires d.installed && Apply(d, op).Some?
    requires Apply(d, op).value.counter == d.counter
    ensures FreshOnly(d, Apply(d, op).value)
  {
    forall record: Record | record.id in d.memories
      ensures Displaced(d, record) != {}
    {
      assert record.id in Displaced(d, record);
    }
  }

  /** The operation changes or removes a stored row, or the triggers. */
  predicate Touches(d: Db, op: Op) {
    match op
    case InsertMemory(_) => false
    case ReplaceMemory(record) => Displaced(d, record) != {}
    case UpdateMemory(id, _) => id in d.memories
    case DeleteMemory(id) => id in d.memories
    case InsertRow(_, _) => false
    case UpdateRow(id, _) => id in d.rows
    case ReplaceRow(id, _) => id in d.rows
    case DeleteRow(id) => id in d.rows
    case DropTriggers => true
    case EnsureEpoch(_) => false
  }

  /** While the triggers are in place the stamp changes exactly when a stored row does, so new rows
      leave every certificate current. */
  lemma StampsFollowChanges(d: Db, op: Op)
    requires EpochOf(d).Some? && Apply(d, op).Some?
    ensures EpochOf(Apply(d, op).value) == EpochOf(d) <==> !Touches(d, op)
  {
  }

  /** A certificate just stored answers for its record, and goes on doing so until a stored row changes. */
  lemma CertificatesLast(cache: Cache, p: Pending, d: Db, op: Op, id: Id)
    requires Certified(d, p) && id in p.certificates && Apply(d, op).Some? && !Touches(d, op)
    ensures Hits(Stored(cache, p), d, p.registry, id) && Hits(Stored(cache, p), Apply(d, op).value, p.registry, id)
  {
    hide ClosureGood, Touches;
    StampsFollowChanges(d, op);
    UntouchedStays(d, op, id);
  }

  lemma UntouchedStays(d: Db, op: Op, id: Id)
    requires !Touches(d, op) && Apply(d, op).Some? && id in d.memories
    ensures id in Apply(d, op).value.memories && Apply(d, op).value.memories[id] == d.memories[id]
  {
    match op {
      case InsertMemory(record) => SameIdDisplaces(d, record);
      case ReplaceMemory(record) => SameIdDisplaces(d, record);
      case _ =>
    }
  }

  lemma SameIdDisplaces(d: Db, record: Record)
    ensures record.id in d.memories ==> record.id in Displaced(d, record)
  {
  }

  lemma {:induction false} WorksTracks(history: seq<Db>, nonces: set<nat>, d: Db, ops: seq<Op>, e: Db, used: set<nat>)
    requires Tracks(history, nonces, d) && Works(d, nonces, ops, e, used)
    ensures Tracks(history, used, e) && nonces <= used
    decreases |ops|
  {
    hide Apply, Tracks;
    if ops != [] {
      var op := ops[0];
      ApplyTracks(history, nonces, d, op);
      var more := if op.EnsureEpoch? then nonces + {op.nonce} else nonces;
      WorksTracks(history, more, Apply(d, op).value, ops[1..], e, used);
    }
  }

  /** A stored or waiting certificate was true of some committed state with its stamp. */
  ghost predicate Witnessed(history: seq<Db>, id: Id, sha: nat, epoch: Epoch, r: Registry) {
    exists i :: 0 <= i < |history| && EpochOf(history[i]) == Some(epoch)
                && id in history[i].memories && history[i].memories[id].sha == sha
                && ClosureGood(history[i], r, id)
  }

  ghost predicate PendingWitnessed(history: seq<Db>, p: Pending) {
    forall id :: id in p.certificates ==> Witnessed(history, id, p.certificates[id].sha, p.epoch, p.registry)
  }

  ghost predicate CacheWitnessed(history: seq<Db>, cache: Cache) {
    forall id :: id in cache ==> Witnessed(history, id, cache[id].sha, cache[id].epoch, cache[id].registry)
  }

  ghost predicate AllWitnessed(history: seq<Db>, pending: seq<Pending>) {
    forall k :: 0 <= k < |pending| ==> PendingWitnessed(history, pending[k])
  }

  ghost predicate Ok(w: World) {
    && |w.history| > 0 && Tracks(w.history, w.nonces, Current(w))
    && CacheWitnessed(w.history, w.cache) && AllWitnessed(w.history, w.pending)
  }

  /** A witnessed certificate whose stamp is current is true now. */
  lemma StampedIsTrue(history: seq<Db>, nonces: set<nat>, d: Db, id: Id, sha: nat, epoch: Epoch, r: Registry)
    requires Tracks(history, nonces, d) && Witnessed(history, id, sha, epoch, r) && EpochOf(d) == Some(epoch)
    ensures ClosureGood(d, r, id) && id in d.memories && d.memories[id].sha == sha
  {
    hide ClosureGood;
    var i :| 0 <= i < |history| && EpochOf(history[i]) == Some(epoch)
             && id in history[i].memories && history[i].memories[id].sha == sha
             && ClosureGood(history[i], r, id);
    assert FreshOnly(history[i], d);
    FreshKeepsClosure(history[i], d, r, id);
  }

  /** The cache is sound for the committed state and for any writer's working state. */
  lemma CacheIsSound(w: World, ops: seq<Op>, e: Db, used: set<nat>)
    requires Ok(w) && Works(Current(w), w.nonces, ops, e, used)
    ensures CacheSound(w.cache, e)
  {
    hide ClosureGood, Tracks, Witnessed, Works;
    WorksTracks(w.history, w.nonces, Current(w), ops, e, used);
    forall r, id | Hits(w.cache, e, r, id)
      ensures ClosureGood(e, r, id)
    {
      StampedIsTrue(w.history, used, e, id, w.cache[id].sha, w.cache[id].epoch, r);
    }
  }

  lemma WitnessedLater(history: seq<Db>, e: Db, id: Id, sha: nat, epoch: Epoch, r: Registry)
    requires Witnessed(history, id, sha, epoch, r)
    ensures Witnessed(history + [e], id, sha, epoch, r)
  {
    hide ClosureGood;
    var i :| 0 <= i < |history| && EpochOf(history[i]) == Some(epoch)
             && id in history[i].memories && history[i].memories[id].sha == sha
             && ClosureGood(history[i], r, id);
    assert (history + [e])[i] == history[i];
  }

  lemma CertifiedIsWitnessed(history: seq<Db>, p: Pending)
    requires |history| > 0 && Certified(history[|history| - 1], p)
    ensures PendingWitnessed(history, p)
  {
    hide ClosureGood;
  }

  lemma AllLater(history: seq<Db>, e: Db, cache: Cache, pending: seq<Pending>)
    requires CacheWitnessed(history, cache) && AllWitnessed(history, pending)
    ensures CacheWitnessed(history + [e], cache) && AllWitnessed(history + [e], pending)
  {
    hide Witnessed;
    forall id | id in cache
      ensures Witnessed(history + [e], id, cache[id].sha, cache[id].epoch, cache[id].registry)
    {
      WitnessedLater(history, e, id, cache[id].sha, cache[id].epoch, cache[id].registry);
    }
    forall k | 0 <= k < |pending|
      ensures PendingWitnessed(history + [e], pending[k])
    {
      var p := pending[k];
      assert PendingWitnessed(history, pending[k]);
      forall id | id in p.certificates
        ensures Witnessed(history + [e], id, p.certificates[id].sha, p.epoch, p.registry)
      {
        WitnessedLater(history, e, id, p.certificates[id].sha, p.epoch, p.registry);
      }
    }
  }

  lemma CommitTracks(history: seq<Db>, used: set<nat>, e: Db)
    requires Tracks(history, used, e) && (EpochOf(e).Some? ==> e.nonce in used)
    ensures Tracks(history + [e], used, e)
  {
  }

  /** Every installed stamp's nonce has been drawn. */
  ghost predicate NonceKnown(d: Db, nonces: set<nat>) {
    d.installed ==> d.nonce in nonces
  }

  lemma {:induction false} WorksKnown(d: Db, nonces: set<nat>, ops: seq<Op>, e: Db, used: set<nat>)
    requires NonceKnown(d, nonces) && Works(d, nonces, ops, e, used)
    ensures NonceKnown(e, used)
    decreases |ops|
  {
    if ops != [] {
      var op := ops[0];
      var more := if op.EnsureEpoch? then nonces + {op.nonce} else nonces;
      assert NonceKnown(Apply(d, op).value, more);
      WorksKnown(Apply(d, op).value, more, ops[1..], e, used);
    }
  }

  ghost predicate Reachable(w: World) {
    Ok(w) && NonceKnown(Current(w), w.nonces)
  }

  lemma StoreKeeps(history: seq<Db>, cache: Cache, p: Pending)
    requires CacheWitnessed(history, cache) && PendingWitnessed(history, p)
    ensures CacheWitnessed(history, Stored(cache, p))
  {
    hide Witnessed;
  }

  lemma CommitKeeps(w: World, v: World, ops: seq<Op>, e: Db, used: set<nat>, found: Option<Pending>)
    requires Reachable(w) && Commits(w, v, ops, e, used, found)
    ensures Reachable(v)
  {
    hide Works, Tracks, CacheWitnessed, AllWitnessed, PendingWitnessed, Certified;
    WorksTracks(w.history, w.nonces, Current(w), ops, e, used);
    WorksKnown(Current(w), w.nonces, ops, e, used);
    CommitTracks(w.history, used, e);
    AllLater(w.history, e, w.cache, w.pending);
    if found.Some? {
      CertifiedIsWitnessed(w.history + [e], found.value);
      MorePending(w.history + [e], w.pending, found.value);
    }
  }

  lemma MorePending(history: seq<Db>, pending: seq<Pending>, p: Pending)
    requires AllWitnessed(history, pending) && PendingWitnessed(history, p)
    ensures AllWitnessed(history, pending + [p])
  {
    hide PendingWitnessed;
  }

  lemma FewerPending(history: seq<Db>, pending: seq<Pending>, k: nat)
    requires AllWitnessed(history, pending) && k < |pending|
    ensures AllWitnessed(history, pending[..k] + pending[k + 1..])
  {
    hide PendingWitnessed;
    var rest := pending[..k] + pending[k + 1..];
    forall j | 0 <= j < |rest|
      ensures PendingWitnessed(history, rest[j])
    {
      assert rest[j] == pending[if j < k then j else j + 1];
    }
  }

  lemma RollbackKeeps(w: World, v: World, ops: seq<Op>, e: Db, used: set<nat>)
    requires Reachable(w) && RollsBack(w, v, ops, e, used)
    ensures Reachable(v)
  {
    hide Works, CacheWitnessed, AllWitnessed;
    WorksTracks(w.history, w.nonces, Current(w), ops, e, used);
  }

  lemma FindKeeps(w: World, v: World, p: Pending)
    requires Reachable(w) && Finds(w, v, p)
    ensures Reachable(v)
  {
    hide Tracks, CacheWitnessed, AllWitnessed, PendingWitnessed, Certified;
    CertifiedIsWitnessed(w.history, p);
    MorePending(w.history, w.pending, p);
  }

  lemma PersistKeeps(w: World, v: World, k: nat)
    requires Reachable(w) && Persists(w, v, k)
    ensures Reachable(v)
  {
    hide Tracks, CacheWitnessed, AllWitnessed, PendingWitnessed, Stored;
    FewerPending(w.history, w.pending, k);
    OnePending(w.history, w.pending, k);
    StoreKeeps(w.history, w.cache, w.pending[k]);
  }

  lemma LoseCacheKeeps(w: World)
    requires Reachable(w)
    ensures Reachable(w.(cache := map[]))
  {
    hide Tracks, AllWitnessed;
  }

  lemma NextKeeps(w: World, v: World)
    requires Reachable(w) && Next(w, v)
    ensures Reachable(v)
  {
    hide Commits, RollsBack, Finds, Persists, Reachable;
    if ops, e, used, found :| Commits(w, v, ops, e, used, found) {
      CommitKeeps(w, v, ops, e, used, found);
    } else if ops, e, used :| RollsBack(w, v, ops, e, used) {
      RollbackKeeps(w, v, ops, e, used);
    } else if p :| Finds(w, v, p) {
      FindKeeps(w, v, p);
    } else if k :| Persists(w, v, k) {
      PersistKeeps(w, v, k);
    } else {
      LoseCacheKeeps(w);
    }
  }

  lemma OnePending(history: seq<Db>, pending: seq<Pending>, k: nat)
    requires AllWitnessed(history, pending) && k < |pending|
    ensures PendingWitnessed(history, pending[k])
  {
    hide PendingWitnessed;
  }

  ghost predicate Run(run: seq<World>) {
    |run| > 0 && Initial(run[0]) && NonceKnown(run[0].history[0], run[0].nonces)
    && forall i :: 0 <= i < |run| - 1 ==> Next(run[i], run[i + 1])
  }

  lemma {:induction false} RunKeeps(run: seq<World>, i: nat)
    requires Run(run) && i < |run|
    ensures Reachable(run[i])
  {
    hide Next, Reachable;
    if i == 0 {
      InitialIsReachable(run[0]);
    } else {
      RunKeeps(run, i - 1);
      assert Next(run[i - 1], run[i - 1 + 1]);
      NextKeeps(run[i - 1], run[i]);
    }
  }

  lemma InitialIsReachable(w: World)
    requires Initial(w) && NonceKnown(w.history[0], w.nonces)
    ensures Reachable(w)
  {
  }

  /** In every state of every run, committed or still inside a writer's transaction, a
      certificate stamped with the state's epoch and a registry's digest means that the
      record's whole closure is present, verified and trusted by that registry. */
  lemma CertificatesAreTrue(run: seq<World>, i: nat, ops: seq<Op>, e: Db, used: set<nat>)
    requires Run(run) && i < |run| && Works(Current(run[i]), run[i].nonces, ops, e, used)
    ensures CacheSound(run[i].cache, e)
  {
    hide Run, Works, CacheSound;
    RunKeeps(run, i);
    CacheIsSound(run[i], ops, e, used);
  }

  // ----- readers on older snapshots -----

  /** What the foreign keys and the admission of every stored record give a committed state. */
  predicate Whole(d: Db) {
    d.memories.Keys <= d.rows.Keys && forall id :: id in d.memories ==> Targets(d.memories[id]) <= d.memories.Keys
  }

  /** In a whole state, what later fresh rows make of a record's closure was already there. */
  lemma FreshAddsNothing(a: Db, b: Db, r: Registry, id: Id)
    requires FreshOnly(a, b) && Whole(a) && id in a.memories && ClosureGood(b, r, id)
    ensures ClosureGood(a, r, id)
  {
    hide RecordGood;
    var g, h := DependencyGraph(a), DependencyGraph(b);
    assert forall n :: n in a.memories ==> Succ(g, n) == Succ(h, n);
    forall e | Reach(g, id, e)
      ensures RecordGood(a, r, e)
    {
      ReachAgrees(g, h, a.memories.Keys, id, e);
      StaysWithin(g, a.memories.Keys, id, e);
      SameGood(a, b, r, e);
    }
  }

  lemma {:induction false} StaysWithin(g: Graph, s: set<Id>, id: Id, e: Id)
    requires Reach(g, id, e) && id in s && forall n, m :: n in s && m in Succ(g, n) ==> m in s
    ensures e in s
  {
    var p :| IsPath(g, p) && p[0] == id && p[|p| - 1] == e;
    for i := 0 to |p| - 1
      invariant p[i] in s
    {
      assert p[i + 1] in Succ(g, p[i]);
    }
  }

  lemma SameGood(a: Db, b: Db, r: Registry, id: Id)
    requires FreshOnly(a, b) && id in a.memories && id in a.rows && RecordGood(b, r, id)
    ensures RecordGood(a, r, id)
  {
  }

  /** Of two committed states with the same stamp the later one only has more rows. */
  ghost predicate Ordered(history: seq<Db>) {
    forall i, j :: 0 <= i < j < |history| && EpochOf(history[i]).Some? && EpochOf(history[j]) == EpochOf(history[i]) ==>
      FreshOnly(history[i], history[j])
  }

  lemma NextOrders(w: World, v: World)
    requires Ok(w) && Ordered(w.history) && Next(w, v)
    ensures Ordered(v.history)
  {
    hide Works, Tracks, CacheWitnessed, AllWitnessed, Certified, Stored, FreshOnly;
    if v.history != w.history {
      var ops, e, used, found :| Commits(w, v, ops, e, used, found);
      WorksTracks(w.history, w.nonces, Current(w), ops, e, used);
      forall i | 0 <= i < |w.history| && EpochOf(w.history[i]).Some? && EpochOf(e) == EpochOf(w.history[i])
        ensures FreshOnly(w.history[i], e)
      {
        TrackedOnly(w.history, used, e, i);
      }
    }
  }

  lemma TrackedOnly(history: seq<Db>, nonces: set<nat>, e: Db, i: nat)
    requires Tracks(history, nonces, e) && i < |history|
    requires EpochOf(history[i]).Some? && EpochOf(e) == EpochOf(history[i])
    ensures FreshOnly(history[i], e)
  {
  }

  lemma {:induction false} RunOrders(run: seq<World>, i: nat)
    requires Run(run) && i < |run|
    ensures Ordered(run[i].history)
  {
    hide Next, Ok, Ordered, NonceKnown;
    if i == 0 {
      OneIsOrdered(run[0].history);
    } else {
      RunOrders(run, i - 1);
      RunKeeps(run, i - 1);
      assert Next(run[i - 1], run[i - 1 + 1]);
      NextOrders(run[i - 1], run[i]);
    }
  }

  lemma OneIsOrdered(history: seq<Db>)
    requires |history| == 1
    ensures Ordered(history)
  {
  }

  /** A reader still on an older snapshot may meet certificates stored since: under the same stamp
      they hold of the snapshot too, as long as it keeps its foreign keys and admissions. */
  lemma OlderReadersAreSafe(run: seq<World>, i: nat, k: nat)
    requires Run(run) && i < |run| && k < |run[i].history| && Whole(run[i].history[k])
    ensures CacheSound(run[i].cache, run[i].history[k])
  {
    RunKeeps(run, i);
    RunOrders(run, i);
    hide Run, Whole, ClosureGood, Tracks, AllWitnessed, Ordered, FreshOnly, Witnessed;
    var w := run[i];
    forall r, id | Hits(w.cache, w.history[k], r, id)
      ensures ClosureGood(w.history[k], r, id)
    {
      assert Witnessed(w.history, id, w.cache[id].sha, w.cache[id].epoch, r);
      WitnessedHolds(w.history, k, id, w.cache[id].sha, w.cache[id].epoch, r);
    }
  }

  lemma WitnessedHolds(history: seq<Db>, k: nat, id: Id, sha: nat, epoch: Epoch, r: Registry)
    requires Ordered(history) && Witnessed(history, id, sha, epoch, r)
    requires k < |history| && EpochOf(history[k]) == Some(epoch) && id in history[k].memories && Whole(history[k])
    ensures ClosureGood(history[k], r, id)
  {
    hide ClosureGood, FreshOnly, Whole;
    var i :| 0 <= i < |history| && EpochOf(history[i]) == Some(epoch)
             && id in history[i].memories && history[i].memories[id].sha == sha
             && ClosureGood(history[i], r, id);
    if i < k {
      FreshKeepsClosure(history[i], history[k], r, id);
    } else if i > k {
      FreshAddsNothing(history[k], history[i], r, id);
    }
  }
}
