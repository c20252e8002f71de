/** Paging through chosen records: bounded pages of whole characters, each cursor naming the
    records left and a byte offset into the first of them. */
module Recall {
  import opened Wrappers
  import opened Utf8

  type Id = nat

  type Texts = map<Id, seq<Scalar>>

  const FRAGMENT_BYTES: nat := 768
  const MAX_HITS: nat := 4

  datatype Hit = Hit(id: Id, text: seq<Scalar>, offset: nat, partial: bool)

  /** The hits of a page and its cursor. */
  datatype Page = Page(hits: seq<Hit>, remaining: seq<Id>, offset: nat)

  function Raw(texts: Texts, id: Id): seq<Byte> {
    if id in texts then EncodeAll(texts[id]) else []
  }

  // ----- what is delivered -----

  /** One byte of a record's text, or the end of that record. */
  datatype Item = ByteOf(id: Id, b: Byte) | EndOf(id: Id)

  function Mark(id: Id, raw: seq<Byte>): (items: seq<Item>)
    ensures |items| == |raw| && forall i :: 0 <= i < |raw| ==> items[i] == ByteOf(id, raw[i])
  {
    seq(|raw|, i requires 0 <= i < |raw| => ByteOf(id, raw[i]))
  }

  /** Everything a cursor still owes: the rest of its first record, then the others whole. */
  function Owed(texts: Texts, ids: seq<Id>, offset: nat): seq<Item> {
    if ids == [] then []
    else
      var raw := Raw(texts, ids[0]);
      (if offset <= |raw| then Mark(ids[0], raw[offset..]) else []) + [EndOf(ids[0])] + Owed(texts, ids[1..], 0)
  }

  function Given(h: Hit): seq<Item> {
    Mark(h.id, EncodeAll(h.text)) + if h.partial then [] else [EndOf(h.id)]
  }

  function AllGiven(hits: seq<Hit>): seq<Item> {
    if hits == [] then [] else AllGiven(hits[..|hits| - 1]) + Given(hits[|hits| - 1])
  }

  ghost predicate SoundCursor(texts: Texts, ids: seq<Id>, offset: nat) {
    ids != [] ==> Boundary(Raw(texts, ids[0]), offset) && (offset == 0 || offset < |Raw(texts, ids[0])|)
  }

  /** The contract of one page: it and its cursor make up what was owed, nothing twice and
      nothing lost, and it moves on. */
  ghost predicate PageOf(texts: Texts, ids: seq<Id>, offset: nat, p: Page) {
    && AllGiven(p.hits) + Owed(texts, p.remaining, p.offset) == Owed(texts, ids, offset)
    && |p.hits| <= MAX_HITS && (ids != [] ==> p.hits != [])
    && (ids != [] && offset < |Raw(texts, ids[0])| ==> p.hits[0].text != [])
    && (forall h :: h in p.hits && h.partial ==> h.text != [])
    && SoundCursor(texts, p.remaining, p.offset)
  }

  // ----- one fragment -----

  lemma FragmentIsWhole(t: seq<Scalar>, offset: nat, size: nat)
    requires var raw := EncodeAll(t); Boundary(raw, offset) && offset + size <= |raw|
    ensures var raw := EncodeAll(t);
      var next := offset + |EncodeAll(DecodeIgnore(raw[offset..offset + size]))|;
      && next <= offset + size && Boundary(raw, next)
      && EncodeAll(DecodeIgnore(raw[offset..offset + size])) == raw[offset..next]
  {
    hide EncodeAll, DecodeIgnore;
    var raw := EncodeAll(t);
    var k := SplitAt(t, offset);
    var rest := t[k..];
    assert raw[offset..] == EncodeAll(rest);
    var m := CutKeepsWhole(rest, size);
    assert raw[offset..offset + size] == EncodeAll(rest)[..size];
    EncodedEnds(rest, m);
    var length := |EncodeAll(rest[..m])|;
    assert raw[offset..][..length] == raw[offset..offset + length];
    assert offset + length < |raw| ==> raw[offset + length] == raw[offset..][length];
  }

  /** A fragment is empty exactly when the next character does not fit in its bytes. */
  lemma FragmentMoves(t: seq<Scalar>, offset: nat, size: nat)
    requires var raw := EncodeAll(t); Boundary(raw, offset) && offset < |raw| && offset + size <= |raw|
    ensures var raw := EncodeAll(t);
      && First(raw[offset..]).Found? && First(raw[offset..]).size <= 4
      && (|EncodeAll(DecodeIgnore(raw[offset..offset + size]))| > 0 <==> size >= First(raw[offset..]).size)
  {
    hide EncodeAll, DecodeIgnore, First, Encode;
    var raw := EncodeAll(t);
    var k := SplitAt(t, offset);
    var rest := t[k..];
    assert raw[offset..] == EncodeAll(rest);
    assert rest != [] by { EncodeAllNone(); }
    EncodeAllOne(rest);
    FirstOfEncoded(rest[0], EncodeAll(rest[1..]));
    var m := CutKeepsWhole(rest, size);
    assert raw[offset..offset + size] == EncodeAll(rest)[..size];
    if m > 0 {
      EncodeAllOne(rest[..m]);
    } else {
      EncodeAllNone();
      assert rest[..0] == [];
    }
  }

  /** A hit takes its bytes off the front of what is owed. */
  lemma HitTakes(texts: Texts, remaining: seq<Id>, offset: nat, next: nat, hit: Hit)
    requires remaining != [] && offset <= next <= |Raw(texts, remaining[0])|
    requires hit.id == remaining[0] && EncodeAll(hit.text) == Raw(texts, remaining[0])[offset..next]
    requires hit.partial == (next < |Raw(texts, remaining[0])|)
    ensures Given(hit) + (if hit.partial then Owed(texts, remaining, next) else Owed(texts, remaining[1..], 0))
            == Owed(texts, remaining, offset)
  {
    hide Raw, EncodeAll, Owed, Mark;
    var raw := Raw(texts, remaining[0]);
    OwedIs(texts, remaining, offset);
    OwedIs(texts, remaining, next);
    MarkSplits(hit.id, raw, offset, next);
    var taken, left := Mark(hit.id, raw[offset..next]), Mark(hit.id, raw[next..]);
    var owed := Owed(texts, remaining[1..], 0);
    Regrouped(taken, left, [EndOf(hit.id)] + owed);
    Regrouped(taken, [EndOf(hit.id)], owed);
    assert taken + [] == taken;
    if !hit.partial {
      assert left == [] by { MarkNothing(hit.id, raw[next..]); }
    }
  }

  lemma MarkNothing(id: Id, raw: seq<Byte>)
    ensures raw == [] ==> Mark(id, raw) == []
  {
  }

  lemma Regrouped(a: seq<Item>, b: seq<Item>, c: seq<Item>)
    ensures (a + b) + c == a + (b + c)
  {
  }

  lemma OwedIs(texts: Texts, ids: seq<Id>, offset: nat)
    requires ids != [] && offset <= |Raw(texts, ids[0])|
    ensures Owed(texts, ids, offset) == Mark(ids[0], Raw(texts, ids[0])[offset..])
            + ([EndOf(ids[0])] + Owed(texts, ids[1..], 0))
  {
    hide Raw, Mark;
  }

  lemma MarkSplits(id: Id, raw: seq<Byte>, offset: nat, next: nat)
    requires offset <= next <= |raw|
    ensures Mark(id, raw[offset..]) == Mark(id, raw[offset..next]) + Mark(id, raw[next..])
  {
    assert raw[offset..] == raw[offset..next] + raw[next..];
  }

  /** The sizes the halving loop goes through. */
  predicate Tried(size: nat) {
    size in {768, 384, 192, 96, 48, 24, 12, 6, 3, 1}
  }

  lemma HalfIsNext(size: nat)
    requires Tried(size)
    ensures 1 <= size <= FRAGMENT_BYTES && (size / 2 == 0 || Tried(size / 2))
    ensures forall other: nat :: Tried(other) ==> other >= size || other <= size / 2
  {
  }

  lemma FirstTried()
    ensures Tried(FRAGMENT_BYTES) && forall size: nat :: Tried(size) ==> 1 <= size <= FRAGMENT_BYTES
  {
  }

  type Limit = (seq<Hit>, seq<Id>, nat) -> bool

  function Taken(raw: seq<Byte>, offset: nat, size: nat): (n: nat)
    requires offset <= |raw|
    ensures offset + n <= |raw|
  {
    if offset + size <= |raw| then size else |raw| - offset
  }

  function Next(raw: seq<Byte>, offset: nat, size: nat): nat
    requires offset <= |raw|
  {
    offset + |EncodeAll(DecodeIgnore(raw[offset..offset + Taken(raw, offset, size)]))|
  }

  /** Some text is left and none of it fits in so few bytes. */
  ghost predicate Stuck(raw: seq<Byte>, offset: nat, size: nat)
    requires offset <= |raw|
  {
    offset < |raw| && Next(raw, offset, size) == offset
  }

  /** A fragment of this size moves on and its page stays within the limit. */
  ghost predicate TryFits(texts: Texts, hits: seq<Hit>, remaining: seq<Id>, offset: nat, size: nat, fits: Limit)
    requires remaining != [] && offset <= |Raw(texts, remaining[0])|
  {
    var raw := Raw(texts, remaining[0]);
    var next := Next(raw, offset, size);
    var fragment := DecodeIgnore(raw[offset..offset + Taken(raw, offset, size)]);
    && !Stuck(raw, offset, size)
    && fits(hits + [Hit(remaining[0], fragment, offset, next < |raw|)],
            if next < |raw| then remaining else remaining[1..], if next < |raw| then next else 0)
  }

  /** One of the tried sizes will do. */
  ghost predicate SomeFits(texts: Texts, hits: seq<Hit>, remaining: seq<Id>, offset: nat, fits: Limit)
    requires remaining != [] && offset <= |Raw(texts, remaining[0])|
  {
    exists size: nat :: Tried(size) && TryFits(texts, hits, remaining, offset, size, fits)
  }

  /** Where a size is stuck every smaller one is; 4 bytes are never stuck. */
  lemma StuckBelow(t: seq<Scalar>, offset: nat, size: nat)
    requires Boundary(EncodeAll(t), offset) && Stuck(EncodeAll(t), offset, size)
    ensures size < 4 && forall less: nat :: less <= size ==> Stuck(EncodeAll(t), offset, less)
  {
    hide EncodeAll, DecodeIgnore, First;
    var raw := EncodeAll(t);
    FragmentMoves(t, offset, Taken(raw, offset, size));
    forall less: nat | less <= size
      ensures Stuck(raw, offset, less)
    {
      FragmentMoves(t, offset, Taken(raw, offset, less));
    }
    FragmentMoves(t, offset, |raw| - offset);
    FragmentMovesWhole(t, offset);
  }

  lemma FragmentMovesWhole(t: seq<Scalar>, offset: nat)
    requires Boundary(EncodeAll(t), offset) && offset < |EncodeAll(t)|
    ensures First(EncodeAll(t)[offset..]).Found? && First(EncodeAll(t)[offset..]).size <= |EncodeAll(t)| - offset
  {
    hide EncodeAll, First;
    FragmentMoves(t, offset, 0);
  }

  lemma StuckTries(texts: Texts, hits: seq<Hit>, remaining: seq<Id>, offset: nat, size: nat, fits: Limit)
    requires remaining != [] && remaining[0] in texts && Boundary(Raw(texts, remaining[0]), offset)
    requires Stuck(Raw(texts, remaining[0]), offset, size)
    ensures size < 4
    ensures forall other: nat :: other <= size ==> !TryFits(texts, hits, remaining, offset, other, fits)
  {
    hide EncodeAll, DecodeIgnore, Stuck;
    StuckBelow(texts[remaining[0]], offset, size);
  }

  lemma RawIs(texts: Texts, id: Id)
    requires id in texts
    ensures Raw(texts, id) == EncodeAll(texts[id])
  {
  }

  lemma BoundaryWithin(raw: seq<Byte>, offset: nat)
    requires Boundary(raw, offset)
    ensures offset <= |raw|
  {
  }

  lemma TryIs(texts: Texts, hits: seq<Hit>, remaining: seq<Id>, offset: nat, size: nat, fits: Limit)
    requires remaining != [] && offset <= |Raw(texts, remaining[0])|
    ensures var raw := Raw(texts, remaining[0]);
      var fragment := DecodeIgnore(raw[offset..offset + Taken(raw, offset, size)]);
      var next := offset + |EncodeAll(fragment)|;
      && (Stuck(raw, offset, size) <==> offset < |raw| && next == offset)
      && (TryFits(texts, hits, remaining, offset, size, fits) <==>
            !(offset < |raw| && next == offset)
            && fits(hits + [Hit(remaining[0], fragment, offset, next < |raw|)],
                    if next < |raw| then remaining else remaining[1..], if next < |raw| then next else 0))
  {
    hide EncodeAll, DecodeIgnore, Raw, Taken;
  }

  datatype Fitted = TooBig | Fits(hit: Hit, next: nat) | Skip

  /** The halving loop: the longest tried fragment whose page stays within the result limit; on a
      fresh page it gives up exactly when no tried size will do. */
  method Fit(texts: Texts, hits: seq<Hit>, remaining: seq<Id>, offset: nat, fits: Limit)
    returns (r: Fitted)
    requires remaining != [] && remaining[0] in texts && Boundary(Raw(texts, remaining[0]), offset)
    ensures r.Skip? ==> hits != []
    ensures r.TooBig? ==> hits == [] && !SomeFits(texts, hits, remaining, offset, fits)
    ensures r.Fits? ==> SomeFits(texts, hits, remaining, offset, fits)
    ensures r.Fits? ==>
              var raw := Raw(texts, remaining[0]);
              && offset <= r.next <= |raw| && Boundary(raw, r.next) && (offset < |raw| ==> offset < r.next)
              && r.hit.id == remaining[0] && r.hit.offset == offset && EncodeAll(r.hit.text) == raw[offset..r.next]
              && r.hit.partial == (r.next < |raw|)
              && fits(hits + [r.hit], if r.hit.partial then remaining else remaining[1..],
                      if r.hit.partial then r.next else 0)
  {
    hide EncodeAll, DecodeIgnore, Tried, TryFits, Taken, Boundary, Stuck, Raw;
    var raw := Raw(texts, remaining[0]);
    assert raw == EncodeAll(texts[remaining[0]]) by { RawIs(texts, remaining[0]); }
    assert offset <= |raw| by { BoundaryWithin(raw, offset); }
    FirstTried();
    var size: nat := FRAGMENT_BYTES;
    while size >= 1
      invariant size == 0 || Tried(size)
      invariant size < FRAGMENT_BYTES ==> hits == []
      invariant forall other: nat :: Tried(other) && other > size ==>
                  !TryFits(texts, hits, remaining, offset, other, fits)
      decreases size
    {
      HalfIsNext(size);
      TryIs(texts, hits, remaining, offset, size, fits);
      var taken := Taken(raw, offset, size);
      FragmentIsWhole(texts[remaining[0]], offset, taken);
      var fragment := DecodeIgnore(raw[offset..offset + taken]);
      var next := offset + |EncodeAll(fragment)|;
      if offset < |raw| && next == offset {
        StuckTries(texts, hits, remaining, offset, size, fits);
        return TooBig;
      }
      var hit := Hit(remaining[0], fragment, offset, next < |raw|);
      var afterIds := if next < |raw| then remaining else remaining[1..];
      if fits(hits + [hit], afterIds, if next < |raw| then next else 0) {
        return Fits(hit, next);
      }
      if hits != [] {
        return Skip;
      }
      size := size / 2;
    }
    return TooBig;
  }

  /** The first record on the page can be given from here. */
  ghost predicate CanStart(texts: Texts, ids: seq<Id>, offset: nat, fits: Limit) {
    ids != [] ==> Boundary(Raw(texts, ids[0]), offset) && SomeFits(texts, [], ids, offset, fits)
  }

  /** Agent._recall from a cursor on.  readable says which records the vault still shows; fits
      says whether the encoded page stays within the result limit. */
  method RecallPage(texts: Texts, readable: set<Id>, ids: seq<Id>, offset: nat, fits: Limit)
    returns (r: Result<Page>)
    requires readable <= texts.Keys
    ensures r.Success? ==> PageOf(texts, ids, offset, r.value)
    ensures r.Success? && r.value.hits != [] ==> fits(r.value.hits, r.value.remaining, r.value.offset)
    ensures r.Failure? ==> r.error in {RecordNotReadable, InvalidRecallCursor, ResultExceedsBudget}
    ensures r == Failure(InvalidRecallCursor) <==>
              ids != [] && ids[0] in readable && !Boundary(Raw(texts, ids[0]), offset)
    ensures r == Failure(RecordNotReadable) ==> exists id :: id in ids && id !in readable
    ensures r == Failure(ResultExceedsBudget) <==>
              ids != [] && ids[0] in readable && Boundary(Raw(texts, ids[0]), offset)
              && !SomeFits(texts, [], ids, offset, fits)
    ensures (forall id :: id in ids ==> id in readable) ==> (r.Success? <==> CanStart(texts, ids, offset, fits))
  {
    hide Owed, AllGiven, Given, Raw, SomeFits;
    var hits: seq<Hit>, remaining, at: nat := [], ids, offset;
    NothingGiven(Owed(texts, ids, offset));
    while remaining != [] && |hits| < MAX_HITS
      invariant |hits| <= MAX_HITS
      invariant AllGiven(hits) + Owed(texts, remaining, at) == Owed(texts, ids, offset)
      invariant hits == [] ==> remaining == ids && at == offset
      invariant forall id :: id in remaining ==> id in ids
      invariant hits != [] ==> ids != [] && ids[0] in readable && CanStart(texts, ids, offset, fits)
      invariant forall h :: h in hits && h.partial ==> h.text != []
      invariant hits != [] ==> at == 0 && fits(hits, remaining, at)
      invariant hits != [] && ids != [] && offset < |Raw(texts, ids[0])| ==> hits[0].text != []
      decreases |remaining|
    {
      if remaining[0] !in readable {
        return Failure(RecordNotReadable);
      }
      var raw := Raw(texts, remaining[0]);
      if at > |raw| || (at < |raw| && Continues(raw[at])) {
        StartIsBoundary(texts, remaining[0]);
        return Failure(InvalidRecallCursor);
      }
      var fitted := Fit(texts, hits, remaining, at, fits);
      match fitted {
        case TooBig => return Failure(ResultExceedsBudget);
        case Skip =>
          StartIsBoundary(texts, remaining[0]);
          return Success(Page(hits, remaining, at));
        case Fits(hit, next) =>
          HitTakes(texts, remaining, at, next, hit);
          GivenMore(hits, hit, if hit.partial then Owed(texts, remaining, next) else Owed(texts, remaining[1..], 0));
          SomeText(hit, at, next);
          hits := hits + [hit];
          if next < |raw| {
            return Success(Page(hits, remaining, next));
          }
          remaining, at := remaining[1..], 0;
      }
    }
    if remaining != [] {
      StartIsBoundary(texts, remaining[0]);
    }
    return Success(Page(hits, remaining, at));
  }

  lemma NothingGiven(rest: seq<Item>)
    ensures AllGiven([]) + rest == rest
  {
  }

  lemma GivenMore(hits: seq<Hit>, hit: Hit, rest: seq<Item>)
    ensures AllGiven(hits + [hit]) + rest == AllGiven(hits) + (Given(hit) + rest)
  {
    assert (hits + [hit])[..|hits|] == hits;
  }

  lemma SomeText(hit: Hit, offset: nat, next: nat)
    requires |EncodeAll(hit.text)| == next - offset
    ensures offset < next ==> hit.text != []
  {
  }

  lemma StartIsBoundary(texts: Texts, id: Id)
    ensures Boundary(Raw(texts, id), 0)
  {
    if id in texts && texts[id] != [] {
      assert Raw(texts, id)[0] == Encode(texts[id][0])[0];
    }
  }

  // ----- following the cursors -----

  /** Pages of one recall, each taken from the cursor of the one before. */
  ghost predicate Follows(texts: Texts, ids: seq<Id>, pages: seq<Page>) {
    forall i :: 0 <= i < |pages| ==> FollowsAt(texts, ids, pages, i)
  }

  ghost predicate FollowsAt(texts: Texts, ids: seq<Id>, pages: seq<Page>, i: nat)
    requires i < |pages|
  {
    if i == 0 then PageOf(texts, ids, 0, pages[0])
    else PageOf(texts, pages[i - 1].remaining, pages[i - 1].offset, pages[i]) && pages[i - 1].remaining != []
  }

  lemma FollowsPrefix(texts: Texts, ids: seq<Id>, pages: seq<Page>)
    requires Follows(texts, ids, pages) && pages != []
    ensures Follows(texts, ids, pages[..|pages| - 1])
  {
    hide PageOf;
    var init := pages[..|pages| - 1];
    forall i: nat | i < |init|
      ensures FollowsAt(texts, ids, init, i)
    {
      assert FollowsAt(texts, ids, pages, i);
    }
  }

  function AllPages(pages: seq<Page>): seq<Item> {
    if pages == [] then [] else AllPages(pages[..|pages| - 1]) + AllGiven(pages[|pages| - 1].hits)
  }

  /** Whatever has been read and whatever the cursor owes always make up the chosen records, each
      text exactly once and in order; so at the end they have been read in full.  And since every
      page gives something, the end comes. */
  lemma {:induction false} CursorsReadEverything(texts: Texts, ids: seq<Id>, pages: seq<Page>)
    requires Follows(texts, ids, pages) && pages != [] && ids != []
    ensures var last := pages[|pages| - 1];
      && AllPages(pages) + Owed(texts, last.remaining, last.offset) == Owed(texts, ids, 0)
      && (last.remaining == [] ==> AllPages(pages) == Owed(texts, ids, 0))
    ensures |pages| <= |AllPages(pages)| <= |Owed(texts, ids, 0)|
  {
    hide Owed, AllGiven, PageOf, Follows;
    var n := |pages| - 1;
    var last := pages[n];
    assert FollowsAt(texts, ids, pages, n) by { FollowsHere(texts, ids, pages, n); }
    NothingOwed(texts, last.offset);
    if n == 0 {
      assert pages[..0] == [];
      PageGives(texts, ids, 0, last);
    } else {
      var init := pages[..n];
      FollowsPrefix(texts, ids, pages);
      CursorsReadEverything(texts, ids, init);
      PageGives(texts, init[n - 1].remaining, init[n - 1].offset, last);
      Regrouped(AllPages(init), AllGiven(last.hits), Owed(texts, last.remaining, last.offset));
    }
  }

  lemma FollowsHere(texts: Texts, ids: seq<Id>, pages: seq<Page>, i: nat)
    requires Follows(texts, ids, pages) && i < |pages|
    ensures FollowsAt(texts, ids, pages, i)
  {
    hide PageOf;
  }

  lemma PageGives(texts: Texts, ids: seq<Id>, offset: nat, p: Page)
    requires PageOf(texts, ids, offset, p) && ids != []
    ensures AllGiven(p.hits) + Owed(texts, p.remaining, p.offset) == Owed(texts, ids, offset)
    ensures |AllGiven(p.hits)| >= 1
  {
    hide Owed, AllGiven;
    GivesSomething(p.hits);
  }

  lemma NothingOwed(texts: Texts, offset: nat)
    ensures Owed(texts, [], offset) == []
  {
  }

  lemma GivesSomething(hits: seq<Hit>)
    requires forall h :: h in hits && h.partial ==> h.text != []
    ensures hits != [] ==> |AllGiven(hits)| >= 1
  {
    if hits != [] {
      var h := hits[|hits| - 1];
      assert h.text != [] ==> |EncodeAll(h.text)| >= 1;
      assert |AllGiven(hits)| >= |Given(h)|;
    }
  }
}
