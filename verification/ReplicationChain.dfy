/** Signed catalogs of ciphertexts and the receiver that follows them. */
module ReplicationChain {
  import opened Wrappers
  import opened DeviceTrust

  const MAX_CATALOG_ENTRIES: nat := 1_000_000
  const MAX_CATALOG_BYTES: nat := 2 * 1024 * 1024 * 1024
  const HEADER_BYTES: nat := 64 * 1024 * 2 + 16384

  /** A path as its text, already safe and relative; encoded is its entry's size in the catalog. */
  datatype CatalogEntry = CatalogEntry(path: string, bytes: int, epoch: int, encoded: nat)

  /** The trust state's hash and the previous catalog's hash are held as what they are hashes of,
      the all-zero hash as no catalog. */
  datatype Catalog = Catalog(trust: TrustState, trustGeneration: int, generation: int, previous: Option<Catalog>,
                             publisher: Fingerprint, entries: seq<CatalogEntry>, signed: bool)

  datatype Summary = Summary(generation: nat, count: nat, bytes: int)

  // ----- paths -----

  /** The order of Python strings. */
  predicate Before(a: string, b: string) {
    if b == [] then false
    else if a == [] then true
    else a[0] < b[0] || (a[0] == b[0] && Before(a[1..], b[1..]))
  }

  predicate Under(parent: string, child: string) {
    |parent| < |child| && child[..|parent|] == parent && child[|parent|] == '/'
  }

  type Fold = string -> string

  function Folded(fold: Fold, paths: seq<string>): (names: seq<string>)
    ensures |names| == |paths| && forall i :: 0 <= i < |names| ==> names[i] == fold(paths[i])
  {
    seq(|paths|, i requires 0 <= i < |paths| => fold(paths[i]))
  }

  /** No two names alike, and none the directory of another. */
  predicate Apart(names: seq<string>) {
    && (forall i, j :: 0 <= i < j < |names| ==> names[i] != names[j])
    && (forall i, j :: 0 <= i < |names| && 0 <= j < |names| ==> !Under(names[i], names[j]))
  }

  /** _distinct_paths */
  method DistinctPaths(paths: seq<string>, fold: Fold) returns (ok: bool)
    ensures ok <==> Apart(Folded(fold, paths))
  {
    var names := Folded(fold, paths);
    var seen: set<string> := {};
    for k := 0 to |names|
      invariant seen == set i | 0 <= i < k :: names[i]
      invariant forall i, j :: 0 <= i < j < k ==> names[i] != names[j]
    {
      if names[k] in seen {
        return false;
      }
      seen := seen + {names[k]};
    }
    for j := 0 to |names|
      invariant forall a, b :: 0 <= a < |names| && 0 <= b < j ==> !Under(names[a], names[b])
    {
      for cut := 0 to |names[j]|
        invariant forall a :: 0 <= a < |names| && |names[a]| < cut ==> !Under(names[a], names[j])
      {
        if names[j][cut] == '/' && names[j][..cut] in seen {
          ghost var a :| 0 <= a < |names| && names[a] == names[j][..cut];
          assert Under(names[a], names[j]);
          return false;
        }
        assert forall a :: 0 <= a < |names| && |names[a]| == cut ==> names[a] in seen;
      }
    }
    ok := true;
  }

  // ----- verifying one catalog -----

  function TotalBytes(entries: seq<CatalogEntry>): int {
    if entries == [] then 0 else TotalBytes(entries[..|entries| - 1]) + entries[|entries| - 1].bytes
  }

  function MetadataBytes(entries: seq<CatalogEntry>): nat {
    if entries == [] then HEADER_BYTES
    else MetadataBytes(entries[..|entries| - 1]) + entries[|entries| - 1].encoded + 1
  }

  predicate EntryOk(e: CatalogEntry, epoch: nat) {
    0 < e.epoch <= epoch && 1 <= e.bytes <= MAX_CATALOG_BYTES
  }

  predicate EntriesOk(entries: seq<CatalogEntry>, epoch: nat, budget: nat) {
    && (forall i :: 0 <= i < |entries| ==> EntryOk(entries[i], epoch))
    && (forall i :: 0 <= i < |entries| - 1 ==> Before(entries[i].path, entries[i + 1].path))
    && TotalBytes(entries) <= MAX_CATALOG_BYTES && (entries != [] ==> MetadataBytes(entries) <= budget)
  }

  /** What the trust state, the last head and the chain demand before any entry is read. */
  predicate HeadFits(c: Catalog, state: TrustState, last: Option<Catalog>, lastGeneration: nat) {
    && c.trust == state && c.trustGeneration == state.generation && CanPublish(state, c.publisher, state.epoch)
    && lastGeneration < c.generation <= MAX_COUNTER && c.previous == last && |c.entries| <= MAX_CATALOG_ENTRIES
  }

  function PathsOf(entries: seq<CatalogEntry>): (paths: seq<string>)
    ensures |paths| == |entries| && forall i :: 0 <= i < |paths| ==> paths[i] == entries[i].path
  {
    seq(|entries|, i requires 0 <= i < |entries| => entries[i].path)
  }

  predicate CatalogFits(c: Catalog, state: TrustState, last: Option<Catalog>, lastGeneration: nat, budget: nat,
                        fold: Fold) {
    && HeadFits(c, state, last, lastGeneration) && EntriesOk(c.entries, state.epoch, budget)
    && Apart(Folded(fold, PathsOf(c.entries))) && c.signed
  }

  lemma {:induction false} TotalsGrow(entries: seq<CatalogEntry>, epoch: nat, k: nat)
    requires k <= |entries| && forall i :: 0 <= i < |entries| ==> EntryOk(entries[i], epoch)
    ensures TotalBytes(entries[..k]) <= TotalBytes(entries) && MetadataBytes(entries[..k]) <= MetadataBytes(entries)
    decreases |entries|
  {
    if k < |entries| {
      var init := entries[..|entries| - 1];
      TotalsGrow(init, epoch, k);
      assert init[..k] == entries[..k];
    } else {
      assert entries[..k] == entries;
    }
  }

  /** verify_catalog: the entry loop stops at the first bad entry or the first total over its
      bound, and passes exactly the catalogs that fit. */
  method VerifyCatalog(c: Catalog, state: TrustState, last: Option<Catalog>, lastGeneration: nat, budget: nat,
                       fold: Fold)
    returns (r: Result<Summary>)
    ensures r.Success? <==> CatalogFits(c, state, last, lastGeneration, budget, fold)
    ensures r.Success? ==> c.generation >= 0 && r.value == Summary(c.generation, |c.entries|, TotalBytes(c.entries))
  {
    hide HeadFits, Apart, CanPublish;
    if !HeadFits(c, state, last, lastGeneration) {
      return Failure(CatalogRejected);
    }
    HeadMeans(c, state, last, lastGeneration);
    var read, total, metadata := VerifyEntries(c.entries, state.epoch, budget);
    if !read {
      return Failure(CatalogRejected);
    }
    var distinct := DistinctPaths(PathsOf(c.entries), fold);
    if !distinct || !c.signed {
      return Failure(CatalogRejected);
    }
    r := Success(Summary(c.generation, |c.entries|, total));
  }

  lemma HeadMeans(c: Catalog, state: TrustState, last: Option<Catalog>, lastGeneration: nat)
    requires HeadFits(c, state, last, lastGeneration)
    ensures c.generation > lastGeneration && c.previous == last && CanPublish(state, c.publisher, state.epoch)
  {
  }

  method VerifyEntries(entries: seq<CatalogEntry>, epoch: nat, budget: nat) returns (ok: bool, total: nat,
                       metadata: nat)
    ensures ok <==> EntriesOk(entries, epoch, budget)
    ensures ok ==> total == TotalBytes(entries) && metadata == MetadataBytes(entries)
  {
    hide Before, CanPublish;
    var previous: Option<string> := None;
    total, metadata := 0, HEADER_BYTES;
    for k := 0 to |entries|
      invariant EntriesOk(entries[..k], epoch, budget)
      invariant total == TotalBytes(entries[..k]) && metadata == MetadataBytes(entries[..k])
      invariant previous == if k == 0 then None else Some(entries[k - 1].path)
    {
      var e := entries[k];
      assert entries[..k + 1][..k] == entries[..k];
      BadPrefix(entries, epoch, budget, k + 1);
      if previous.Some? && !Before(previous.value, e.path) {
        assert !Before(entries[k - 1].path, entries[k - 1 + 1].path);
        return false, total, metadata;
      }
      previous := Some(e.path);
      if !EntryOk(e, epoch) {
        return false, total, metadata;
      }
      total := total + e.bytes;
      if total > MAX_CATALOG_BYTES {
        return false, total, metadata;
      }
      metadata := metadata + e.encoded + 1;
      if metadata > budget {
        return false, total, metadata;
      }
    }
    assert entries[..|entries|] == entries;
    ok := true;
  }

  /** Whatever is wrong with a prefix is wrong with the whole. */
  lemma BadPrefix(entries: seq<CatalogEntry>, epoch: nat, budget: nat, k: nat)
    requires 0 < k <= |entries|
    ensures EntriesOk(entries, epoch, budget) ==> EntriesOk(entries[..k], epoch, budget)
  {
    if EntriesOk(entries, epoch, budget) {
      TotalsGrow(entries, epoch, k);
      var init := entries[..k];
      forall i | 0 <= i < |init| - 1
        ensures Before(init[i].path, init[i + 1].path)
      {
        assert Before(entries[i].path, entries[i + 1].path);
      }
    }
  }

  // ----- the receiver -----

  /** Each catalog names the one before it by its hash, and generations only rise. */
  ghost predicate Chained(accepted: seq<Catalog>) {
    forall i :: 0 <= i < |accepted| ==> LinkedAt(accepted, i)
  }

  ghost predicate LinkedAt(accepted: seq<Catalog>, i: nat)
    requires i < |accepted|
  {
    if i == 0 then accepted[0].previous.None? && accepted[0].generation > 0
    else accepted[i].previous == Some(accepted[i - 1]) && accepted[i].generation > accepted[i - 1].generation
  }

  lemma ChainedPrefix(accepted: seq<Catalog>)
    requires Chained(accepted) && accepted != []
    ensures Chained(accepted[..|accepted| - 1])
  {
    var init := accepted[..|accepted| - 1];
    forall i: nat | i < |init|
      ensures LinkedAt(init, i)
    {
      assert LinkedAt(accepted, i);
    }
  }

  lemma ChainedMore(accepted: seq<Catalog>, c: Catalog)
    requires Chained(accepted)
    requires if accepted == [] then c.previous.None? && c.generation > 0
             else c.previous == Some(accepted[|accepted| - 1]) && c.generation > accepted[|accepted| - 1].generation
    ensures Chained(accepted + [c])
  {
    var more := accepted + [c];
    forall i: nat | i < |more|
      ensures LinkedAt(more, i)
    {
      if i < |accepted| {
        assert LinkedAt(accepted, i);
      }
    }
  }

  class ReplicationReceiver {
    var state: TrustState
    var lastCatalog: Option<Catalog>
    var lastGeneration: nat
    ghost var accepted: seq<Catalog>

    constructor (state: TrustState)
      ensures Valid() && this.state == state && lastCatalog.None? && accepted == []
    {
      this.state, lastCatalog, lastGeneration, accepted := state, None, 0, [];
    }

    ghost predicate Valid()
      reads this
    {
      && Chained(accepted)
      && (accepted == [] ==> lastCatalog.None? && lastGeneration == 0)
      && (accepted != [] ==>
            lastCatalog == Some(accepted[|accepted| - 1]) && lastGeneration == accepted[|accepted| - 1].generation)
    }

    /** The local trust state moves on by its own transitions. */
    method SetState(next: TrustState)
      requires Valid()
      modifies this`state
      ensures Valid() && state == next
    {
      state := next;
    }

    /** accept_catalog: the head advances last, after every ciphertext and the receipt are in
        place; copied says whether they are. */
    method Accept(c: Catalog, budget: nat, fold: Fold, copied: bool) returns (r: Result<Summary>)
      requires Valid()
      modifies this
      ensures Valid() && state == old(state)
      ensures r.Success? <==> copied && CatalogFits(c, state, old(lastCatalog), old(lastGeneration), budget, fold)
      ensures r.Success? ==> accepted == old(accepted) + [c] && CanPublish(state, c.publisher, state.epoch)
      ensures r.Failure? ==>
                accepted == old(accepted) && lastCatalog == old(lastCatalog) && lastGeneration == old(lastGeneration)
    {
      hide EntriesOk, Apart, CanPublish, Chained;
      r := VerifyCatalog(c, state, lastCatalog, lastGeneration, budget, fold);
      if r.Failure? {
        return r;
      }
      if !copied {
        return Failure(CatalogCopyFailed);
      }
      HeadMeans(c, state, lastCatalog, lastGeneration);
      ChainedMore(accepted, c);
      accepted := accepted + [c];
      lastCatalog, lastGeneration := Some(c), r.value.generation;
    }
  }

  /** One hash stands for one history: receivers with the same head accepted the same catalogs. */
  lemma {:induction false} SameHeadSameHistory(a: seq<Catalog>, b: seq<Catalog>)
    requires Chained(a) && Chained(b) && a != [] && b != [] && a[|a| - 1] == b[|b| - 1]
    ensures a == b
    decreases |a|
  {
    var x, y := a[..|a| - 1], b[..|b| - 1];
    assert LinkedAt(a, |a| - 1) && LinkedAt(b, |b| - 1);
    if x != [] {
      ChainedPrefix(a);
      ChainedPrefix(b);
      SameHeadSameHistory(x, y);
    }
    assert a == x + [a[|a| - 1]] && b == y + [b[|b| - 1]];
  }

  /** No catalog is accepted twice, and none from before an accepted one. */
  lemma {:induction false} GenerationsRise(accepted: seq<Catalog>, i: nat, j: nat)
    requires Chained(accepted) && i < j < |accepted|
    ensures accepted[i].generation < accepted[j].generation && accepted[i] != accepted[j]
  {
    assert LinkedAt(accepted, j);
    if i + 1 < j {
      GenerationsRise(accepted, i, j - 1);
    }
  }
}
