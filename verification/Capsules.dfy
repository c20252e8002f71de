/** Signed batches of one delivery stream, and the sender's index of what it has published. */
module Capsules {
  import opened Wrappers
  import opened VaultStore

  type Stream = nat

  /** universal-memory-delta v1, v2 and v3. */
  datatype Schema = PlainDelta | ChainedDelta | IncrementalDelta

  /** A capsule's previous-batch hash is held here as the batch it is the hash of: the hash
      is injective, so the two carry the same information. */
  datatype Capsule = Capsule(schema: Schema, stream: Stream, after: nat, cursor: nat, previous: Option<Capsule>,
                             closure: bool, records: seq<Record>)

  /** What the field checks of a received capsule leave. */
  predicate WellFormed(c: Capsule) {
    && c.after < c.cursor && DistinctIds(c.records)
    && (c.schema == PlainDelta ==> c.previous.None?)
    && (c.schema != PlainDelta ==> (c.after == 0 <==> c.previous.None?))
    && (c.schema == IncrementalDelta && c.after == 0 ==> c.closure)
    && (c.schema == IncrementalDelta && c.closure ==> SelfContained(c.records))
  }

  predicate SelfContained(records: seq<Record>) {
    forall r :: r in records ==> Targets(r) <= Ids(records)
  }

  /** Every record named in the hash chain that ends in this batch. */
  function ChainIds(c: Capsule): (ids: set<Id>)
    ensures Ids(c.records) <= ids
  {
    Ids(c.records) + if c.previous.Some? then ChainIds(c.previous.value) else {}
  }

  /** Whatever the batch leaves out of a closure, an earlier batch of its chain carries. */
  predicate ClosedInChain(c: Capsule) {
    forall r :: r in c.records ==> Targets(r) <= ChainIds(c)
  }

  // ----- the index -----

  datatype Head = Head(cursor: nat, batch: Capsule)

  datatype Member = Member(stream: Stream, id: Id)

  datatype Index = Index(heads: map<Stream, Head>, members: map<Member, nat>)

  const NO_INDEX: Index := Index(map[], map[])

  function MemberIds(ix: Index, stream: Stream): (ids: set<Id>)
    ensures forall id :: id in ids <==> Member(stream, id) in ix.members
  {
    set m | m in ix.members && m.stream == stream :: m.id
  }

  predicate HeadMatches(ix: Index, stream: Stream, cursor: nat, batch: Option<Capsule>) {
    stream in ix.heads && batch.Some? && ix.heads[stream] == Head(cursor, batch.value)
  }

  /** Publishing the head again. */
  predicate Replays(ix: Index, c: Capsule) {
    c.stream in ix.heads && ix.heads[c.stream] == Head(c.cursor, c)
  }

  predicate Follows(ix: Index, c: Capsule) {
    c.stream in ix.heads && ix.heads[c.stream].cursor == c.after
    && (c.previous == Some(ix.heads[c.stream].batch) || c.schema == PlainDelta)
  }

  /** Members are never overwritten: an id already there must come with the same hash. */
  function WithMembers(m: map<Member, nat>, stream: Stream, records: seq<Record>): Result<map<Member, nat>> {
    if records == [] then Success(m)
    else
      var r := records[|records| - 1];
      match WithMembers(m, stream, records[..|records| - 1])
      case Failure(e) => Failure(e)
      case Success(n) => WithMember(n, Member(stream, r.id), r.sha)
  }

  function WithMember(m: map<Member, nat>, key: Member, sha: nat): Result<map<Member, nat>> {
    if key in m && m[key] != sha then Failure(MemoryIdentityConflict) else Success(m[key := sha])
  }

  function Published(ix: Index, c: Capsule): Result<Index> {
    if c.stream in ix.heads && !Replays(ix, c) && !Follows(ix, c) then Failure(DependencyFrontierIncomplete)
    else if c.stream !in ix.heads && MemberIds(ix, c.stream) != {} then Failure(DependencyFrontierIncomplete)
    else
      match WithMembers(ix.members, c.stream, c.records)
      case Failure(e) => Failure(e)
      case Success(m) => Success(Index(ix.heads[c.stream := Head(c.cursor, c)], m))
  }

  /** The sender's private database of what its stream has carried. */
  class DependencyIndex {
    var heads: map<Stream, Head>
    var members: map<Member, nat>

    constructor ()
      ensures Contents() == NO_INDEX
    {
      heads, members := map[], map[];
    }

    ghost function Contents(): Index
      reads this
    {
      Index(heads, members)
    }

    /** One transaction: a refused batch leaves no member behind. */
    method Publish(c: Capsule) returns (refused: Option<Error>)
      modifies this
      ensures match Published(old(Contents()), c)
              case Failure(e) => refused == Some(e) && Contents() == old(Contents())
              case Success(ix) => refused == None && Contents() == ix
    {
      if c.stream in heads && heads[c.stream] != Head(c.cursor, c)
         && !(heads[c.stream].cursor == c.after
              && (c.previous == Some(heads[c.stream].batch) || c.schema == PlainDelta))
      {
        return Some(DependencyFrontierIncomplete);
      }
      if c.stream !in heads && exists m :: m in members && m.stream == c.stream {
        ghost var m :| m in members && m.stream == c.stream;
        assert m.id in MemberIds(Contents(), c.stream);
        return Some(DependencyFrontierIncomplete);
      }
      assert c.stream !in heads ==> MemberIds(Contents(), c.stream) == {};
      var before := members;
      var i := 0;
      while i < |c.records|
        invariant 0 <= i <= |c.records|
        invariant heads == old(heads) && WithMembers(before, c.stream, c.records[..i]) == Success(members)
      {
        var r := c.records[i];
        var key := Member(c.stream, r.id);
        WithMembersStep(before, c.stream, c.records, i);
        if key in members && members[key] != r.sha {
          WithMembersFails(before, c.stream, c.records, i + 1);
          members := before;
          return Some(MemoryIdentityConflict);
        }
        assert key in members ==> members[key := r.sha] == members;
        if key !in members {
          members := members[key := r.sha];
        }
        i := i + 1;
      }
      assert c.records[..i] == c.records;
      heads := heads[c.stream := Head(c.cursor, c)];
      return None;
    }
  }

  lemma WithMembersStep(m: map<Member, nat>, stream: Stream, records: seq<Record>, i: nat)
    requires i < |records| && WithMembers(m, stream, records[..i]).Success?
    ensures WithMembers(m, stream, records[..i + 1])
            == WithMember(WithMembers(m, stream, records[..i]).value, Member(stream, records[i].id), records[i].sha)
  {
    assert records[..i + 1][..i] == records[..i];
  }

  lemma {:induction false} WithMembersFails(m: map<Member, nat>, stream: Stream, records: seq<Record>, i: nat)
    requires i <= |records| && WithMembers(m, stream, records[..i]) == Failure(MemoryIdentityConflict)
    ensures WithMembers(m, stream, records) == Failure(MemoryIdentityConflict)
    decreases |records| - i
  {
    if i < |records| {
      assert records[..i + 1][..i] == records[..i];
      WithMembersFails(m, stream, records, i + 1);
    } else {
      assert records[..i] == records;
    }
  }

  /** What a recorded batch leaves: its own ids under their hashes, and every earlier member as it was. */
  lemma {:induction false} WithMembersMeans(m: map<Member, nat>, stream: Stream, records: seq<Record>)
    requires WithMembers(m, stream, records).Success?
    ensures var n := WithMembers(m, stream, records).value;
      && (forall k :: k in m ==> k in n && n[k] == m[k])
      && (forall k :: k in n ==> k in m || (k.stream == stream && k.id in Ids(records)))
      && (forall r :: r in records ==> Member(stream, r.id) in n && n[Member(stream, r.id)] == r.sha)
  {
    if records != [] {
      var init, r := records[..|records| - 1], records[|records| - 1];
      assert records == init + [r];
      hide Ids, WithMember;
      WithMembersMeans(m, stream, init);
      OneMoreMember(m, stream, init, WithMembers(m, stream, init).value, r);
    }
  }

  lemma OneMoreMember(m: map<Member, nat>, stream: Stream, init: seq<Record>, before: map<Member, nat>, r: Record)
    requires WithMember(before, Member(stream, r.id), r.sha).Success?
    requires forall k :: k in m ==> k in before && before[k] == m[k]
    requires forall k :: k in before ==> k in m || (k.stream == stream && k.id in Ids(init))
    requires forall x :: x in init ==> Member(stream, x.id) in before && before[Member(stream, x.id)] == x.sha
    ensures var n := WithMember(before, Member(stream, r.id), r.sha).value;
      && (forall k :: k in m ==> k in n && n[k] == m[k])
      && (forall k :: k in n ==> k in m || (k.stream == stream && k.id in Ids(init + [r])))
      && (forall x :: x in init + [r] ==> Member(stream, x.id) in n && n[Member(stream, x.id)] == x.sha)
  {
    assert forall x :: x in init + [r] <==> x in init || x == r;
    assert Ids(init + [r]) == Ids(init) + {r.id};
  }

  // ----- what the index promises -----

  /** The members of a stream were all carried by the hash chain of its head. */
  ghost predicate InChain(ix: Index, stream: Stream) {
    if stream in ix.heads then
      ix.heads[stream].cursor == ix.heads[stream].batch.cursor
      && MemberIds(ix, stream) <= ChainIds(ix.heads[stream].batch)
    else MemberIds(ix, stream) == {}
  }

  lemma PublishedMembers(ix: Index, c: Capsule)
    requires Published(ix, c).Success?
    ensures MemberIds(Published(ix, c).value, c.stream) == MemberIds(ix, c.stream) + Ids(c.records)
  {
    WithMembersMeans(ix.members, c.stream, c.records);
    var n := Published(ix, c).value.members;
    assert forall id :: id in Ids(c.records) ==> Member(c.stream, id) in n;
  }

  /** A chained batch always leaves the members inside the hash chain.  The plain schema is
      linked by cursor alone, and leaves them inside exactly when it opens the index, repeats
      the head, or carries every earlier member again. */
  lemma StaysInChain(ix: Index, c: Capsule)
    requires WellFormed(c) && InChain(ix, c.stream) && Published(ix, c).Success?
    ensures InChain(Published(ix, c).value, c.stream) <==>
              c.schema != PlainDelta || c.stream !in ix.heads || Replays(ix, c)
              || MemberIds(ix, c.stream) <= Ids(c.records)
  {
    PublishedMembers(ix, c);
  }

  const FIRST_PLAIN: Capsule := Capsule(PlainDelta, 0, 0, 1, None, false, [Record(1, 1, Episode, 0, [], 10)])
  const SECOND_PLAIN: Capsule := Capsule(PlainDelta, 0, 1, 2, None, false, [Record(2, 2, Episode, 0, [], 10)])

  /** Two plain batches in a row, from no index at all: the first one's record is a member, and no
      chain from the new head carries it. */
  lemma PlainBatchesLeaveTheChain()
    ensures WellFormed(FIRST_PLAIN) && WellFormed(SECOND_PLAIN) && Published(NO_INDEX, FIRST_PLAIN).Success?
    ensures var ix := Published(NO_INDEX, FIRST_PLAIN).value;
      && InChain(ix, 0) && Published(ix, SECOND_PLAIN).Success?
      && !InChain(Published(ix, SECOND_PLAIN).value, 0)
      && MemberIds(Published(ix, SECOND_PLAIN).value, 0) == {1, 2} && ChainIds(SECOND_PLAIN) == {2}
  {
    var first, second := FIRST_PLAIN, SECOND_PLAIN;
    var ix := Published(NO_INDEX, first).value;
    assert first.records[0] in first.records && second.records[0] in second.records;
    assert 1 in MemberIds(ix, 0) && 1 !in Ids(second.records);
    PublishedMembers(NO_INDEX, first);
    assert InChain(ix, 0);
    assert MemberIds(ix, 0) == {1};
    assert forall r :: r in second.records ==> r == Record(2, 2, Episode, 0, [], 10);
    assert Ids(second.records) == {2};
    PublishedMembers(ix, second);
    StaysInChain(ix, second);
  }

  /** With the members inside the chain, a batch that omits only members is closed in its own chain. */
  lemma OmittingMembersIsClosed(ix: Index, c: Capsule)
    requires InChain(ix, c.stream) && c.previous.Some? && HeadMatches(ix, c.stream, c.after, c.previous)
    requires forall r :: r in c.records ==> Targets(r) <= Ids(c.records) + MemberIds(ix, c.stream)
    ensures ClosedInChain(c)
  {
  }
}
