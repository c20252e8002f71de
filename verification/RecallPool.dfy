/** The statistics recall gathers over its pool of fragments, and what they make sure of for the
    version 2 score. */
module RecallPool {
  import opened Wrappers
  import opened Sorting
  import opened Ranking

  type Token = nat

  const MAX_QUERY_TOKENS: nat := 256
  const MAX_RERANK_FRAGMENTS: nat := 4096

  datatype Item = Item(counts: map<Token, nat>, length: nat)

  /** How often each query token occurs in a fragment, and the fragment's length, at least one. */
  function ItemOf(terms: seq<Token>, query: set<Token>): Item {
    Item(map t | t in query && t in terms :: multiset(terms)[t], if |terms| == 0 then 1 else |terms|)
  }

  /** The fragments that hold a token. */
  function Holding(fragments: seq<seq<Token>>, t: Token): (r: set<nat>)
    ensures forall k :: k in r <==> 0 <= k < |fragments| && t in fragments[k]
  {
    set k: nat | k < |fragments| && t in fragments[k]
  }

  function Occurring(fragments: seq<seq<Token>>, query: set<Token>): set<Token> {
    set t | t in query && Holding(fragments, t) != {}
  }

  function TotalLength(fragments: seq<seq<Token>>): (n: nat)
    ensures n >= |fragments|
  {
    if fragments == [] then 0
    else TotalLength(fragments[..|fragments| - 1]) + ItemOf(fragments[|fragments| - 1], {}).length
  }

  lemma HoldingMore(fragments: seq<seq<Token>>, terms: seq<Token>, t: Token)
    ensures |Holding(fragments + [terms], t)| == |Holding(fragments, t)| + if t in terms then 1 else 0
  {
    assert Holding(fragments + [terms], t) == Holding(fragments, t) + if t in terms then {|fragments|} else {};
  }

  lemma HoldingBound(fragments: seq<seq<Token>>, t: Token)
    ensures |Holding(fragments, t)| <= |fragments|
  {
    if fragments == [] {
      assert Holding(fragments, t) == {};
    } else {
      var init, last := fragments[..|fragments| - 1], fragments[|fragments| - 1];
      HoldingBound(init, t);
      HoldingMore(init, last, t);
      assert fragments == init + [last];
    }
  }

  /** The counts of a fragment's query tokens, one term after the other. */
  method CountTerms(terms: seq<Token>, query: set<Token>) returns (counts: map<Token, nat>)
    ensures counts == ItemOf(terms, query).counts
  {
    hide ItemOf;
    counts := map[];
    assert counts == ItemOf(terms[..0], query).counts by { NothingCounted(query); }
    for n := 0 to |terms|
      invariant counts == ItemOf(terms[..n], query).counts
    {
      CountMore(terms[..n], terms[n], query);
      assert terms[..n + 1] == terms[..n] + [terms[n]];
      if terms[n] in query {
        counts := counts[terms[n] := (if terms[n] in counts then counts[terms[n]] else 0) + 1];
      }
    }
    assert terms[..|terms|] == terms;
  }

  lemma NothingCounted(query: set<Token>)
    ensures ItemOf([], query).counts == map[]
  {
  }

  lemma CountMore(terms: seq<Token>, t: Token, query: set<Token>)
    ensures var c := ItemOf(terms, query).counts;
      ItemOf(terms + [t], query).counts == if t in query then c[t := (if t in c then c[t] else 0) + 1] else c
  {
    assert multiset(terms + [t]) == multiset(terms) + multiset{t};
    assert forall x :: x in terms + [t] <==> x in terms || x == t;
  }

  function Updated(documents: map<Token, nat>, tokens: set<Token>): (r: map<Token, nat>)
    ensures r.Keys == documents.Keys + tokens
  {
    map t | t in documents.Keys + tokens :: (if t in documents then documents[t] else 0) + if t in tokens then 1 else 0
  }

  /** Each token of a fragment counts once towards the fragments that hold it. */
  method CountDocuments(documents: map<Token, nat>, counts: map<Token, nat>) returns (r: map<Token, nat>)
    ensures r == Updated(documents, counts.Keys)
  {
    hide Updated;
    r := documents;
    var left := counts.Keys;
    assert r == Updated(documents, counts.Keys - left) by { NoneUpdated(documents, counts.Keys - left); }
    while left != {}
      invariant left <= counts.Keys && r == Updated(documents, counts.Keys - left)
      decreases |left|
    {
      var t := MinOf(left);
      UpdatedOne(documents, counts.Keys - left, t);
      assert counts.Keys - (left - {t}) == counts.Keys - left + {t};
      r := r[t := (if t in r then r[t] else 0) + 1];
      left := left - {t};
    }
    assert counts.Keys - left == counts.Keys;
  }

  lemma NoneUpdated(documents: map<Token, nat>, tokens: set<Token>)
    requires tokens == {}
    ensures Updated(documents, tokens) == documents
  {
  }

  lemma UpdatedOne(documents: map<Token, nat>, tokens: set<Token>, t: Token)
    requires t !in tokens
    ensures var r := Updated(documents, tokens);
      Updated(documents, tokens + {t}) == r[t := (if t in r then r[t] else 0) + 1]
  {
  }

  /** What the loop has after the given fragments. */
  ghost predicate Pooled(fragments: seq<seq<Token>>, query: set<Token>, pool: seq<Item>, documents: map<Token, nat>,
                         totalLength: nat)
  {
    && |pool| == |fragments| && (forall k :: 0 <= k < |pool| ==> pool[k] == ItemOf(fragments[k], query))
    && documents.Keys == Occurring(fragments, query)
    && (forall t :: t in documents ==> documents[t] == |Holding(fragments, t)|)
    && totalLength == TotalLength(fragments)
  }

  /** The loop over the selected fragments: counts and length of each, in how many of them each
      query token occurs, and the length of all of them. */
  method BuildPool(fragments: seq<seq<Token>>, query: set<Token>)
    returns (pool: seq<Item>, documents: map<Token, nat>, totalLength: nat)
    ensures Pooled(fragments, query, pool, documents, totalLength)
  {
    hide Pooled, ItemOf;
    pool, documents, totalLength := [], map[], 0;
    assert fragments[..0] == [];
    NothingPooled(query);
    for n := 0 to |fragments|
      invariant Pooled(fragments[..n], query, pool, documents, totalLength)
    {
      var counts := CountTerms(fragments[n], query);
      PooledMore(fragments[..n], query, pool, documents, totalLength, fragments[n]);
      assert fragments[..n + 1] == fragments[..n] + [fragments[n]];
      documents := CountDocuments(documents, counts);
      var item := Item(counts, if |fragments[n]| == 0 then 1 else |fragments[n]|);
      assert item == ItemOf(fragments[n], query) by { ItemIs(fragments[n], query); }
      pool, totalLength := pool + [item], totalLength + item.length;
    }
    assert fragments[..|fragments|] == fragments;
  }

  lemma NothingPooled(query: set<Token>)
    ensures Pooled([], query, [], map[], 0)
  {
    assert Occurring([], query) == {};
  }

  lemma ItemIs(terms: seq<Token>, query: set<Token>)
    ensures ItemOf(terms, query) == Item(ItemOf(terms, query).counts, if |terms| == 0 then 1 else |terms|)
  {
  }

  lemma PooledMore(fragments: seq<seq<Token>>, query: set<Token>, pool: seq<Item>, documents: map<Token, nat>,
                   totalLength: nat, terms: seq<Token>)
    requires Pooled(fragments, query, pool, documents, totalLength)
    ensures var item := ItemOf(terms, query);
      Pooled(fragments + [terms], query, pool + [item], Updated(documents, item.counts.Keys), totalLength + item.length)
  {
    assert (fragments + [terms])[..|fragments|] == fragments;
    DocumentsMore(fragments, terms, query, documents);
    hide ItemOf, Updated, Occurring;
    assert ItemOf(terms, {}).length == ItemOf(terms, query).length by { SameLength(terms, query); }
  }

  lemma SameLength(terms: seq<Token>, query: set<Token>)
    ensures ItemOf(terms, {}).length == ItemOf(terms, query).length
  {
  }

  lemma DocumentsMore(fragments: seq<seq<Token>>, terms: seq<Token>, query: set<Token>, before: map<Token, nat>)
    requires before.Keys == Occurring(fragments, query)
    requires forall t :: t in before ==> before[t] == |Holding(fragments, t)|
    ensures var documents := Updated(before, ItemOf(terms, query).counts.Keys);
      && documents.Keys == Occurring(fragments + [terms], query)
      && forall t :: t in documents ==> documents[t] == |Holding(fragments + [terms], t)|
  {
    var counts := ItemOf(terms, query).counts;
    assert forall t :: t in counts <==> t in query && t in terms;
    hide Holding, ItemOf;
    forall t | t in query
      ensures t in Occurring(fragments + [terms], query) <==> t in Occurring(fragments, query) || t in counts
      ensures |Holding(fragments + [terms], t)|
              == (if t in before then before[t] else 0) + if t in counts then 1 else 0
    {
      HoldingMore(fragments, terms, t);
      OccursMore(fragments, terms, t);
    }
  }

  lemma OccursMore(fragments: seq<seq<Token>>, terms: seq<Token>, t: Token)
    ensures Holding(fragments + [terms], t) != {} <==> Holding(fragments, t) != {} || t in terms
  {
    assert Holding(fragments + [terms], t) == Holding(fragments, t) + if t in terms then {|fragments|} else {};
  }

  function InSome(entities: seq<seq<Token>>, query: set<Token>): set<Token> {
    set t | t in query && exists k :: 0 <= k < |entities| && t in entities[k]
  }

  /** _entity_query_matches: each query token once, however many labels hold it; the loop stops
      when all have been met. */
  method EntityMatches(entities: seq<seq<Token>>, query: set<Token>) returns (matched: set<Token>)
    ensures matched == InSome(entities, query) && |matched| <= |query|
  {
    matched := {};
    for n := 0 to |entities|
      invariant matched == InSome(entities[..n], query)
    {
      if |matched| == |query| {
        AllMet(entities, n, query);
        return;
      }
      matched := matched + set t | t in query && t in entities[n];
    }
    assert entities[..|entities|] == entities;
    FewerOf(matched, query);
  }

  lemma AllMet(entities: seq<seq<Token>>, n: nat, query: set<Token>)
    requires n <= |entities| && |InSome(entities[..n], query)| == |query|
    ensures InSome(entities[..n], query) == InSome(entities, query)
  {
    var met := InSome(entities[..n], query);
    assert query == met + (query - met);
    assert query - met == {};
    forall t | t in query
      ensures t in InSome(entities, query)
    {
      assert t in met;
      var k :| 0 <= k < |entities[..n]| && t in entities[..n][k];
      assert t in entities[k];
    }
  }

  // ----- the score of a pool item -----

  function StatOf(fragments: seq<seq<Token>>, item: Item, t: Token): TermStat
    requires t in item.counts && |Holding(fragments, t)| <= |fragments|
  {
    TermStat(item.counts[t], |Holding(fragments, t)|, LogQ(2 * (|fragments| + 1), 2 * |Holding(fragments, t)| + 1))
  }

  /** What the scorer is given for the k-th fragment of the pool; other holds what does not come
      from the pool. */
  ghost function InputOf(fragments: seq<seq<Token>>, query: set<Token>, k: nat, matches: set<Token>,
                         other: ScoreInput): ScoreInput
    requires k < |fragments|
  {
    var item := ItemOf(fragments[k], query);
    var tokens := SetToSorted(item.counts.Keys);
    other.(terms := seq(|tokens|, n requires 0 <= n < |tokens| =>
                          HoldingBound(fragments, tokens[n]); assert tokens[n] in tokens;
                          StatOf(fragments, item, tokens[n])),
           totalLength := TotalLength(fragments), total := |fragments|, length := item.length,
           entityMatches := |matches|, queryTokens := |query|)
  }

  lemma {:induction false} FewerOf(a: set<Token>, b: set<Token>)
    requires a <= b
    ensures |a| <= |b|
  {
    assert b == a + (b - a);
  }

  /** Whatever the pool, its items are within the bounds under which the score never raises. */
  lemma PoolIsFromRecall(fragments: seq<seq<Token>>, query: set<Token>, k: nat, matches: set<Token>, other: ScoreInput)
    requires k < |fragments| <= MAX_RERANK_FRAGMENTS && |query| <= MAX_QUERY_TOKENS && matches <= query
    requires other.timeFactor <= SCALE
    ensures var i := InputOf(fragments, query, k, matches, other);
      FromRecall(i) && !Degenerate(i) && Final(i, Base(i)) <= SAFE_INTEGER
  {
    var i := InputOf(fragments, query, k, matches, other);
    var item := ItemOf(fragments[k], query);
    FewerOf(item.counts.Keys, query);
    FewerOf(matches, query);
    forall n | 0 <= n < |i.terms|
      ensures i.terms[n].documents <= i.total
    {
      HoldingBound(fragments, SetToSorted(item.counts.Keys)[n]);
    }
    hide LogQ, Final, Base, Degenerate, TotalLength;
    ScoreIsTotal(i);
  }
}
