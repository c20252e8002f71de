/** SQL's ORDER BY and Python's sorted() on ids. */
module Sorting {

  ghost predicate Ascending(s: seq<nat>) {
    forall i, j :: 0 <= i < j < |s| ==> s[i] <= s[j]
  }

  function Insert(x: nat, s: seq<nat>): (r: seq<nat>)
    ensures |r| == |s| + 1
    ensures forall y :: y in r <==> y == x || y in s
  {
    if s == [] then [x]
    else if x <= s[0] then [x] + s
    else
      var rest := Insert(x, s[1..]);
      assert s == [s[0]] + s[1..];
      [s[0]] + rest
  }

  function Sort(s: seq<nat>): (r: seq<nat>)
    ensures |r| == |s|
    ensures forall y :: y in r <==> y in s
  {
    if s == [] then []
    else
      assert s == [s[0]] + s[1..];
      Insert(s[0], Sort(s[1..]))
  }

  lemma {:induction false} InsertAscending(x: nat, s: seq<nat>)
    requires Ascending(s)
    ensures Ascending(Insert(x, s))
  {
    if s != [] && x > s[0] {
      InsertAscending(x, s[1..]);
      var rest := Insert(x, s[1..]);
      forall i | 0 <= i < |rest| ensures s[0] <= rest[i] {
        assert rest[i] in rest;
      }
    }
  }

  lemma {:induction false} SortAscending(s: seq<nat>)
    ensures Ascending(Sort(s))
  {
    if s != [] {
      SortAscending(s[1..]);
      InsertAscending(s[0], Sort(s[1..]));
    }
  }

  /** The elements of a set in ascending order, each once. */
  function SetToSorted(s: set<nat>): (r: seq<nat>)
    ensures |r| == |s|
    ensures forall y :: y in r <==> y in s
    decreases |s|
  {
    if s == {} then []
    else
      var m := MinOf(s);
      assert s == {m} + (s - {m});
      [m] + SetToSorted(s - {m})
  }

  function MinOf(s: set<nat>): (m: nat)
    requires s != {}
    ensures m in s && forall y :: y in s ==> m <= y
  {
    var x: nat :| x in s;
    HasMin(s, 0, x);
    var m: nat :| m in s && forall y :: y in s ==> m <= y;
    m
  }

  lemma {:induction false} HasMin(s: set<nat>, k: nat, x: nat)
    requires x in s && forall y :: y in s ==> k <= y
    ensures exists m :: m in s && forall y :: y in s ==> m <= y
    decreases x - k
  {
    if k !in s {
      HasMin(s, k + 1, x);
    }
  }

  lemma {:induction false} SetToSortedStrict(s: set<nat>)
    ensures forall i, j :: 0 <= i < j < |s| ==> SetToSorted(s)[i] < SetToSorted(s)[j]
    decreases |s|
  {
    if s != {} {
      var m := MinOf(s);
      var rest := SetToSorted(s - {m});
      SetToSortedStrict(s - {m});
      forall j | 0 <= j < |rest| ensures m < rest[j] {
        assert rest[j] in rest;
      }
    }
  }
}
