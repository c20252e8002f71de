/** Publishing a delivery stream and receiving it, with crashes and a lost index: a batch that
    leaves out published records still finds them at every receiver. */
module StreamSync {
  import opened Wrappers
  import opened Graphs
  import opened Sorting
  import opened VaultStore
  import opened Delivery
  import opened DeliveryRuns
  import opened Capsules

  // ----- the sender -----

  /** The published cursor and batch, the capsule signed but not yet acknowledged, the
      capsules in the shared folder and the private index. */
  datatype Sender = Sender(stream: Stream, cursor: nat, last: Option<Capsule>, pending: Option<Capsule>,
                           outputs: set<Capsule>, index: Index)

  ghost function Carried(page: Page): seq<Record> {
    Selected(page.records, SetToSorted(page.records.Keys))
  }

  function Selected(records: map<Id, Record>, ids: seq<Id>): seq<Record>
    requires forall id :: id in ids ==> id in records
  {
    if ids == [] then [] else Selected(records, ids[..|ids| - 1]) + [records[ids[|ids| - 1]]]
  }

  lemma {:induction false} SelectedAt(records: map<Id, Record>, ids: seq<Id>)
    requires forall id :: id in ids ==> id in records
    ensures |Selected(records, ids)| == |ids|
    ensures forall i :: 0 <= i < |ids| ==> Selected(records, ids)[i] == records[ids[i]]
  {
    if ids != [] {
      SelectedAt(records, ids[..|ids| - 1]);
    }
  }

  /** The capsule lists each record of the page once. */
  lemma CarriedIsPage(page: Page)
    requires forall id :: id in page.records ==> page.records[id].id == id
    ensures DistinctIds(Carried(page)) && Ids(Carried(page)) == page.records.Keys
    ensures forall r :: r in Carried(page) ==> r.id in page.records && page.records[r.id] == r
  {
    var ids, c := SetToSorted(page.records.Keys), Carried(page);
    SetToSortedStrict(page.records.Keys);
    SelectedAt(page.records, ids);
    hide Carried, Selected;
    ListedOnce(page.records, ids, c);
  }

  lemma ListedOnce(records: map<Id, Record>, ids: seq<Id>, c: seq<Record>)
    requires forall id :: id in records ==> records[id].id == id
    requires forall id :: id in records <==> id in ids
    requires forall i, j :: 0 <= i < j < |ids| ==> ids[i] != ids[j]
    requires |c| == |ids| && forall i :: 0 <= i < |ids| ==> c[i] == records[ids[i]]
    ensures DistinctIds(c) && Ids(c) == records.Keys
    ensures forall r :: r in c ==> r.id in records && records[r.id] == r
  {
    hide Ids;
    forall id | id in records
      ensures id in Ids(c)
    {
      var i :| 0 <= i < |ids| && ids[i] == id;
      assert c[i] in c;
    }
    forall i | 0 <= i < |c| ensures c[i].id == ids[i] {}
  }

  /** The capsule of one page: a page that leaves records out says so in its schema. */
  ghost function Draft(x: Sender, page: Page): Capsule {
    Capsule(if page.external == {} then ChainedDelta else IncrementalDelta, x.stream, page.after, page.cursor,
            x.last, false, Carried(page))
  }

  /** The boundary omits members of this stream, and only while the index stands at the
      sender's own head. */
  predicate OmitsMembers(x: Sender, q: Request) {
    OmitSet(q) <= if HeadMatches(x.index, x.stream, x.cursor, x.last) then MemberIds(x.index, x.stream) else {}
  }

  ghost predicate Builds(x: Sender, y: Sender, s: Store, trusted: Trust, q: Request, page: Page) {
    && x.pending.None? && Valid(s) && PageOf(s, trusted, q, page)
    && q.after == x.cursor && page.cursor > page.after && OmitsMembers(x, q)
    && (forall id :: id in page.records ==> page.records[id].id == id)
    && y == x.(pending := Some(Draft(x, page)))
  }

  /** publish with a capsule pending, cut short after the given number of durable writes:
      the shared output, the index, the published head, and the end of the pending file. */
  function Publish(x: Sender, writes: nat): Sender {
    if x.pending.None? then x
    else
      var p := x.pending.value;
      if p.cursor == x.cursor && x.last == Some(p) then
        match Published(x.index, p)
        case Failure(_) => x
        case Success(ix) =>
          if writes == 0 then x else if writes == 1 then x.(index := ix) else x.(index := ix, pending := None)
      else if p.after != x.cursor || writes == 0 then x
      else
        var shown := x.(outputs := x.outputs + {p});
        match Published(x.index, p)
        case Failure(_) => shown
        case Success(ix) =>
          var recorded := shown.(index := ix);
          var saved := recorded.(cursor := p.cursor, last := Some(p));
          if writes == 1 then shown else if writes == 2 then recorded
          else if writes == 3 then saved else saved.(pending := None)
  }

  ghost predicate SenderStep(x: Sender, y: Sender) {
    || (exists s, trusted, q, page :: Builds(x, y, s, trusted, q, page))
    || (exists writes :: y == Publish(x, writes))
    || y == x.(index := NO_INDEX)
  }

  /** A capsule this sender may have shown: chained, closed in its chain, on its own stream. */
  ghost predicate Honest(stream: Stream, c: Capsule) {
    && WellFormed(c) && c.schema != PlainDelta && c.stream == stream && ClosedInChain(c)
    && (c.previous.Some? ==> c.previous.value.cursor == c.after)
  }

  ghost predicate IndexStands(x: Sender) {
    && InChain(x.index, x.stream)
    && (x.stream in x.index.heads ==>
          var h := x.index.heads[x.stream];
          h.cursor == h.batch.cursor && (x.last == Some(h.batch) || x.pending == Some(h.batch)))
  }

  ghost predicate SenderValid(x: Sender) {
    && (x.last.None? <==> x.cursor == 0)
    && (x.last.Some? ==> x.last.value.cursor == x.cursor && x.last.value in x.outputs)
    && (x.pending.Some? ==>
          && Honest(x.stream, x.pending.value)
          && (x.last == x.pending || (x.pending.value.after == x.cursor && x.pending.value.previous == x.last)))
    && (forall c :: c in x.outputs ==> Honest(x.stream, c))
    && IndexStands(x)
  }

  lemma BuiltIsHonest(x: Sender, y: Sender, s: Store, trusted: Trust, q: Request, page: Page)
    requires SenderValid(x) && Builds(x, y, s, trusted, q, page)
    ensures Honest(x.stream, y.pending.value)
  {
    hide PageOf, Valid, Carried, InChain, MemberIds, ClosedInChain, WellFormed, SenderValid, Honest, OmitsMembers;
    DraftClosed(x, y, s, trusted, q, page);
    DraftFits(x, y, s, trusted, q, page);
    HonestDraft(x, Draft(x, page));
  }

  lemma HonestDraft(x: Sender, c: Capsule)
    requires SenderValid(x) && WellFormed(c) && ClosedInChain(c) && c.stream == x.stream && c.previous == x.last
    requires c.schema != PlainDelta && c.after == x.cursor
    ensures Honest(x.stream, c)
  {
    hide WellFormed, ClosedInChain, IndexStands;
  }

  lemma DraftFits(x: Sender, y: Sender, s: Store, trusted: Trust, q: Request, page: Page)
    requires SenderValid(x) && Builds(x, y, s, trusted, q, page)
    ensures WellFormed(Draft(x, page)) && page.after == x.cursor
  {
    CarriedIsPage(page);
    PageAfter(s, trusted, q, page);
    hide PageOf, Valid, Carried, OmitsMembers, IndexStands, Honest;
  }

  lemma PageAfter(s: Store, trusted: Trust, q: Request, page: Page)
    requires PageOf(s, trusted, q, page)
    ensures page.after == q.after && Outside(page)
  {
    hide SentFrom, RequestRefused, Outside;
  }

  /** A page's omissions are members, and members stand in the chain of the last batch. */
  lemma DraftClosed(x: Sender, y: Sender, s: Store, trusted: Trust, q: Request, page: Page)
    requires SenderValid(x) && Builds(x, y, s, trusted, q, page)
    ensures ClosedInChain(Draft(x, page))
  {
    hide PageOf, Valid, Carried, InChain, MemberIds, Honest, ClosedInChain;
    var c := Draft(x, page);
    CarriedOmits(s, trusted, q, page);
    PageAfter(s, trusted, q, page);
    CarriedIsPage(page);
    if HeadMatches(x.index, x.stream, x.cursor, x.last) {
      OmittingMembersIsClosed(x.index, c);
    } else {
      ClosedAlone(c);
    }
  }

  lemma ClosedAlone(c: Capsule)
    requires forall r :: r in c.records ==> Targets(r) <= Ids(c.records)
    ensures ClosedInChain(c)
  {
    hide Targets, Ids;
  }

  /** What a page's records point at is in the page or omitted. */
  lemma CarriedOmits(s: Store, trusted: Trust, q: Request, page: Page)
    requires PageOf(s, trusted, q, page) && forall id :: id in page.records ==> page.records[id].id == id
    ensures forall r :: r in Carried(page) ==> Targets(r) <= Ids(Carried(page)) + OmitSet(q)
  {
    PageLeavesOutMembers(s, trusted, q, page);
    PageAfter(s, trusted, q, page);
    CarriedIsPage(page);
    hide PageOf, Carried, OmitSet, Targets, Ids;
    forall r | r in Carried(page)
      ensures Targets(r) <= Ids(Carried(page)) + OmitSet(q)
    {
      assert page.records[r.id] == r;
      forall t | t in Targets(r) && t !in page.records
        ensures t in OmitSet(q)
      {
        assert t in page.external;
      }
    }
  }

  lemma PublishKeeps(x: Sender, writes: nat)
    requires SenderValid(x)
    ensures SenderValid(Publish(x, writes))
  {
    hide ClosedInChain, WellFormed, InChain, ChainIds, Published;
    if x.pending.Some? {
      var p := x.pending.value;
      PublishStays(x, p);
      PublishedHead(x.index, p);
      assert WellFormed(p);
      PendingMovesOn(p);
    }
  }

  lemma PendingMovesOn(c: Capsule)
    requires WellFormed(c)
    ensures c.after < c.cursor
  {
  }

  lemma PublishedHead(ix: Index, c: Capsule)
    ensures Published(ix, c).Success? ==>
              Published(ix, c).value.heads == ix.heads[c.stream := Head(c.cursor, c)]
  {
  }

  lemma PublishStays(x: Sender, p: Capsule)
    requires SenderValid(x) && x.pending == Some(p)
    ensures Published(x.index, p).Success? ==> InChain(Published(x.index, p).value, x.stream)
  {
    if Published(x.index, p).Success? {
      StaysInChain(x.index, p);
    }
  }

  lemma SenderKeeps(x: Sender, y: Sender)
    requires SenderValid(x) && SenderStep(x, y)
    ensures SenderValid(y) && y.stream == x.stream && x.outputs <= y.outputs
  {
    hide Honest, IndexStands, Publish, Builds;
    if exists s, trusted, q, page :: Builds(x, y, s, trusted, q, page) {
      var s, trusted, q, page :| Builds(x, y, s, trusted, q, page);
      BuildKeeps(x, y, s, trusted, q, page);
    } else if y == x.(index := NO_INDEX) {
      NoIndexStands(x);
    } else {
      var writes :| y == Publish(x, writes);
      PublishKeeps(x, writes);
      PublishShows(x, writes);
    }
  }

  lemma BuildKeeps(x: Sender, y: Sender, s: Store, trusted: Trust, q: Request, page: Page)
    requires SenderValid(x) && Builds(x, y, s, trusted, q, page)
    ensures SenderValid(y) && y.stream == x.stream && x.outputs <= y.outputs
  {
    BuiltIsHonest(x, y, s, trusted, q, page);
    hide Honest, PageOf, Valid, InChain, Carried;
  }

  lemma NoIndexStands(x: Sender)
    ensures IndexStands(x.(index := NO_INDEX))
  {
  }

  lemma PublishShows(x: Sender, writes: nat)
    ensures Publish(x, writes).stream == x.stream && x.outputs <= Publish(x, writes).outputs
  {
  }

  /** Whatever was lost or repeated, recording the pending capsule never finds the index
      at a foreign head: the frontier refusal is unreachable for the sender's own stream. */
  lemma FrontierNeverRefused(x: Sender)
    requires SenderValid(x) && x.pending.Some?
    ensures Published(x.index, x.pending.value) != Failure(DependencyFrontierIncomplete)
  {
    var p := x.pending.value;
    MembersFailOnlyOnConflict(x.index.members, p.stream, p.records);
  }

  lemma {:induction false} MembersFailOnlyOnConflict(m: map<Member, nat>, stream: Stream, records: seq<Record>)
    ensures WithMembers(m, stream, records).Failure? ==>
              WithMembers(m, stream, records).error == MemoryIdentityConflict
  {
    if records != [] {
      MembersFailOnlyOnConflict(m, stream, records[..|records| - 1]);
    }
  }

  // ----- the receiver -----

  datatype ReceivedHead = ReceivedHead(after: nat, cursor: nat, batch: Capsule, chained: bool)

  datatype Peer = Peer(received: nat, head: Option<ReceivedHead>)

  /** The vault, the saved heads and the retained envelopes. */
  datatype Receiver = Receiver(vault: Store, peers: map<Stream, Peer>, evidence: set<Capsule>)

  type Hash = Capsule -> nat

  ghost predicate Injective(hash: Hash) {
    forall a, b :: hash(a) == hash(b) ==> a == b
  }

  function PeerOf(rx: Receiver, stream: Stream): Peer {
    if stream in rx.peers then rx.peers[stream] else Peer(0, None)
  }

  /** _check_chain */
  function ChainRefused(head: Option<ReceivedHead>, c: Capsule): Option<Error> {
    if c.schema == PlainDelta then
      if head.Some? && head.value.chained then Some(TransferHistoryDowngrade) else None
    else if c.after == 0 then None
    else if head.None? then Some(LegacyHistoryAnchorRequired)
    else if head.value.cursor != c.after || Some(head.value.batch) != c.previous then
      Some(TransferHistoryAnchorMismatch)
    else None
  }

  /** _dependency_history */
  function HistoryRefused(evidence: set<Capsule>, c: Capsule): Option<Error> {
    if c.after == 0 || c.previous.None? then None
    else if c.previous.value !in evidence then Some(DependencyBaseEvidenceMissing)
    else if c.previous.value.stream != c.stream || c.previous.value.cursor != c.after then
      Some(DependencyBaseEvidenceMismatch)
    else None
  }

  function TransferOf(hash: Hash, c: Capsule): Transfer {
    Transfer(hash(c), hash(c),
             if c.schema == IncrementalDelta && c.after > 0 && c.previous.Some? then Some(hash(c.previous.value))
             else None)
  }

  /** _admit_payload: the vault transaction of one capsule. */
  ghost function Admit(rx: Receiver, trusted: Trust, hash: Hash, c: Capsule, proofs: map<Id, Attestation>,
                       validates: Store -> bool): Result<Store>
  {
    if c.schema == IncrementalDelta && c.closure && !SelfContained(c.records) then Failure(IncompleteTransferClosure)
    else if c.schema == IncrementalDelta && HistoryRefused(rx.evidence, c).Some? then
      Failure(HistoryRefused(rx.evidence, c).value)
    else
      Ingest(rx.vault, trusted, c.records, Verified, proofs, Some(TransferOf(hash, c)),
             if c.schema == IncrementalDelta || SelfContained(c.records) then Some(validates) else None)
  }

  datatype Received = Received(receiver: Receiver, error: Option<Error>)

  /** receive_capsule, cut short after the given number of durable writes: the envelope, the
      vault commit and the saved head. */
  ghost function Receive(rx: Receiver, trusted: Trust, hash: Hash, c: Capsule, after: nat,
                         proofs: map<Id, Attestation>, validates: Store -> bool, writes: nat): Received
  {
    var peer := PeerOf(rx, c.stream);
    if c.after != after then Received(rx, Some(ReceiveCursorChanged))
    else if peer.head.Some? && peer.head.value.batch == c
            && peer.head.value.after == c.after && peer.head.value.cursor == c.cursor then
      Received(rx, if HasReceipt(rx.vault, hash(c)) then None else Some(ReceiveReceiptMissing))
    else if peer.received != after then Received(rx, Some(ReceiveCursorChanged))
    else if ChainRefused(peer.head, c).Some? then Received(rx, ChainRefused(peer.head, c))
    else if writes == 0 then Received(rx, None)
    else
      var kept := rx.(evidence := rx.evidence + {c});
      match Admit(kept, trusted, hash, c, proofs, validates)
      case Failure(e) => Received(kept, Some(e))
      case Success(t) =>
        if writes == 1 then Received(kept, None)
        else if writes == 2 then Received(kept.(vault := t), None)
        else
          Received(kept.(vault := t,
                         peers := kept.peers[c.stream := Peer(c.cursor,
                           Some(ReceivedHead(c.after, c.cursor, c, c.schema != PlainDelta)))]), None)
  }

  /** A receipt stands for the whole hash chain of its batch. */
  ghost predicate ChainsHeld(s: Store, hash: Hash) {
    forall c :: HasReceipt(s, hash(c)) ==> ChainIds(c) <= s.records.Keys
  }

  ghost predicate HeadsReceipted(rx: Receiver, hash: Hash) {
    forall stream :: stream in rx.peers && rx.peers[stream].head.Some? ==>
      HasReceipt(rx.vault, hash(rx.peers[stream].head.value.batch))
  }

  ghost predicate ReceiverValid(rx: Receiver, hash: Hash) {
    Valid(rx.vault) && ChainsHeld(rx.vault, hash) && HeadsReceipted(rx, hash)
  }

  // ----- what a batch leaves in the vault -----

  /** Part way through a batch: what was stored before, and the records so far. */
  ghost predicate Holds(s: Store, t: Store, records: seq<Record>) {
    && t.receipts == s.receipts && t.records.Keys == s.records.Keys + Ids(records)
    && (forall id :: id in t.records && (id !in s.records || t.records[id] != s.records[id]) ==>
          t.records[id] in records)
  }

  lemma HoldsMore(s: Store, u: Store, t: Store, records: seq<Record>, record: Record)
    requires Holds(s, u, records) && t.receipts == u.receipts && t.records == u.records[record.id := record]
    ensures Holds(s, t, records + [record])
  {
    assert forall x :: x in records + [record] <==> x in records || x == record;
    assert Ids(records + [record]) == Ids(records) + {record.id};
  }

  lemma {:induction false} AdmitBatchHolds(s: Store, trusted: Trust, records: seq<Record>, state: Admission,
                                           proofs: map<Id, Attestation>, n: nat)
    requires n <= |records|
    ensures match AdmitBatch(s, trusted, records, state, proofs, n)
            case Failure(e) => e != DanglingRelation
            case Success(b) => Holds(s, b.store, records[..n])
  {
    hide AdmitOne;
    if n == 0 {
      assert Ids(records[..0]) == {};
    } else {
      hide Holds;
      AdmitBatchHolds(s, trusted, records, state, proofs, n - 1);
      assert records[..n] == records[..n - 1] + [records[n - 1]];
      match AdmitBatch(s, trusted, records, state, proofs, n - 1)
      case Failure(_) =>
      case Success(b) =>
        var proof := ProofFor(proofs, records[n - 1].id);
        AdmitOneHolds(b, trusted, records[n - 1], state, proof);
        match AdmitOne(b, trusted, records[n - 1], state, proof)
        case Failure(_) =>
        case Success(c) => HoldsMore(s, b.store, c.store, records[..n - 1], records[n - 1]);
    }
  }

  lemma SetAdmissionHolds(u: Store, trusted: Trust, record: Record, state: Admission, proof: Option<Attestation>)
    ensures match SetAdmission(u, trusted, record, state, proof)
      case Failure(e) => e != DanglingRelation
      case Success(a) => a.store.receipts == u.receipts && a.store.records == u.records
  {
    hide Rank;
  }

  lemma AdmitOneHolds(b: Batch, trusted: Trust, record: Record, state: Admission, proof: Option<Attestation>)
    ensures match AdmitOne(b, trusted, record, state, proof)
      case Failure(e) => e != DanglingRelation
      case Success(c) => c.store.receipts == b.store.receipts && c.store.records == b.store.records[record.id := record]
  {
    hide SetAdmission;
    assert record.id in b.store.records && b.store.records[record.id] == record ==>
             b.store.records[record.id := record] == b.store.records;
    match InsertRecord(b.store, record, true)
    case Failure(_) =>
    case Success(i) => SetAdmissionHolds(i.store, trusted, record, state, proof);
  }

  /** Commit finds no dangling relation when each target is held or in the batch. */
  lemma NeverDangles(s: Store, trusted: Trust, records: seq<Record>, state: Admission, proofs: map<Id, Attestation>,
                     transfer: Option<Transfer>, validates: Option<Store -> bool>)
    requires Valid(s)
    requires forall r :: r in records ==> Targets(r) <= s.records.Keys + Ids(records)
    ensures Ingest(s, trusted, records, state, proofs, transfer, validates) != Failure(DanglingRelation)
  {
    hide AdmitBatch, Targets, Holds, NoDangling, Requeue, Committed, WithReceipt, IngestRefused, HasReceipt, Valid;
    AdmitBatchHolds(s, trusted, records, state, proofs, |records|);
    assert records[..|records|] == records;
    match AdmitBatch(s, trusted, records, state, proofs, |records|)
    case Failure(_) => RefusedOtherwise(records, state, proofs, transfer, validates.Some?);
    case Success(b) =>
      HeldIsClosed(s, b.store, records);
      Closes(b.store, trusted, b.upgraded, transfer, Receipt(0, |records|, b.added, state));
      RefusedOtherwise(records, state, proofs, transfer, validates.Some?);
  }

  lemma HeldIsClosed(s: Store, t: Store, records: seq<Record>)
    requires Valid(s) && Holds(s, t, records)
    requires forall r :: r in records ==> Targets(r) <= s.records.Keys + Ids(records)
    ensures NoDangling(t)
  {
    hide Targets, Ids, ValidOpen;
  }

  lemma Closes(u: Store, trusted: Trust, seeds: set<Id>, transfer: Option<Transfer>, receipt: Receipt)
    requires NoDangling(u)
    ensures Committed(WithReceipt(Requeue(u, trusted, seeds), transfer, receipt)).Success?
  {
    hide Targets;
  }

  lemma RefusedOtherwise(records: seq<Record>, state: Admission, proofs: map<Id, Attestation>,
                         transfer: Option<Transfer>, validating: bool)
    ensures IngestRefused(records, state, proofs, transfer, validating) != Some(DanglingRelation)
  {
    hide DistinctIds, TotalBytes, Ids;
  }

  lemma IngestHolds(s: Store, trusted: Trust, records: seq<Record>, state: Admission, proofs: map<Id, Attestation>,
                    transfer: Transfer, validates: Option<Store -> bool>)
    requires Valid(s) && Ingest(s, trusted, records, state, proofs, Some(transfer), validates).Success?
    ensures var t := Ingest(s, trusted, records, state, proofs, Some(transfer), validates).value;
      && Valid(t) && s.records.Keys <= t.records.Keys && transfer.id in t.receipts
      && t.receipts[transfer.id].payload == transfer.payload
      && (t == s || (t.receipts.Keys == s.receipts.Keys + {transfer.id} && Ids(records) <= t.records.Keys))
      && (forall k :: k in s.receipts ==> k in t.receipts && t.receipts[k].payload == s.receipts[k].payload)
      && (t != s && transfer.previous.Some? ==> HasReceipt(s, transfer.previous.value))
  {
    hide AdmitBatch, Valid, Txn, Dependents, Readable, Requeue, NoDangling, IngestRefused;
    IngestIsTxn(s, trusted, records, state, proofs, Some(transfer), validates);
    TxnHolds(s, Ingest(s, trusted, records, state, proofs, Some(transfer), validates).value, trusted);
    AdmitBatchHolds(s, trusted, records, state, proofs, |records|);
    assert records[..|records|] == records;
    if AdmitBatch(s, trusted, records, state, proofs, |records|).Success? {
      var b := AdmitBatch(s, trusted, records, state, proofs, |records|).value;
      RequeueTables(b.store, trusted, b.upgraded);
    }
  }

  lemma TxnHolds(s: Store, t: Store, trusted: Trust)
    requires Txn(s, t, trusted)
    ensures Valid(t) && s.records.Keys <= t.records.Keys
  {
    hide Valid, Announces, Unblocks;
  }

  lemma RequeueTables(s: Store, trusted: Trust, seeds: set<Id>)
    ensures Requeue(s, trusted, seeds).records == s.records && Requeue(s, trusted, seeds).receipts == s.receipts
  {
  }

  /** Taking in a batch whose predecessor is receipted, or checked by the transaction. */
  lemma AdmitKeepsChains(rx: Receiver, trusted: Trust, hash: Hash, c: Capsule, proofs: map<Id, Attestation>,
                         validates: Store -> bool)
    requires Injective(hash) && Valid(rx.vault) && ChainsHeld(rx.vault, hash)
    requires c.previous.Some? ==> HasReceipt(rx.vault, hash(c.previous.value))
    requires Admit(rx, trusted, hash, c, proofs, validates).Success?
    ensures var t := Admit(rx, trusted, hash, c, proofs, validates).value;
      Valid(t) && ChainsHeld(t, hash) && HasReceipt(t, hash(c))
      && (forall k :: HasReceipt(rx.vault, k) ==> HasReceipt(t, k))
  {
    hide Valid, Ingest;
    var s := rx.vault;
    var t := Admit(rx, trusted, hash, c, proofs, validates).value;
    IngestHolds(s, trusted, c.records, Verified, proofs, TransferOf(hash, c),
                if c.schema == IncrementalDelta || SelfContained(c.records) then Some(validates) else None);
    forall b | HasReceipt(t, hash(b))
      ensures ChainIds(b) <= t.records.Keys
    {
      if !HasReceipt(s, hash(b)) {
        assert hash(b) == hash(c) && b == c;
      }
    }
  }

  /** Every receive, of any capsule of any stream and however it ends, keeps the receiver's promise. */
  lemma ReceiveKeeps(rx: Receiver, trusted: Trust, hash: Hash, c: Capsule, after: nat, proofs: map<Id, Attestation>,
                     validates: Store -> bool, writes: nat)
    requires Injective(hash) && ReceiverValid(rx, hash) && WellFormed(c)
    ensures ReceiverValid(Receive(rx, trusted, hash, c, after, proofs, validates, writes).receiver, hash)
  {
    hide Valid, Admit, HasReceipt, ChainsHeld, WellFormed;
    var kept := rx.(evidence := rx.evidence + {c});
    var peer := PeerOf(rx, c.stream);
    if ChainRefused(peer.head, c).None? && Admit(kept, trusted, hash, c, proofs, validates).Success? {
      PreviousIsReceipted(rx, hash, c);
      AdmitKeepsChains(kept, trusted, hash, c, proofs, validates);
    }
  }

  lemma PreviousIsReceipted(rx: Receiver, hash: Hash, c: Capsule)
    requires HeadsReceipted(rx, hash) && WellFormed(c) && ChainRefused(PeerOf(rx, c.stream).head, c).None?
    ensures c.previous.Some? ==> HasReceipt(rx.vault, hash(c.previous.value))
  {
  }

  /** A batch closed in its chain commits without a dangling relation, whatever it left out. */
  lemma ReceiveNeverDangles(rx: Receiver, trusted: Trust, hash: Hash, c: Capsule, after: nat,
                            proofs: map<Id, Attestation>, validates: Store -> bool, writes: nat)
    requires Injective(hash) && ReceiverValid(rx, hash) && WellFormed(c) && ClosedInChain(c)
    ensures Receive(rx, trusted, hash, c, after, proofs, validates, writes).error != Some(DanglingRelation)
  {
    hide Valid, Ingest, ChainsHeld, WellFormed, ClosedInChain, ChainIds, Targets, HeadsReceipted, Injective, HasReceipt;
    if ChainRefused(PeerOf(rx, c.stream).head, c).None? {
      PreviousIsReceipted(rx, hash, c);
      TargetsAreHeld(rx, hash, c);
      NeverDangles(rx.vault, trusted, c.records, Verified, proofs, Some(TransferOf(hash, c)),
                   if c.schema == IncrementalDelta || SelfContained(c.records) then Some(validates) else None);
    }
  }

  lemma TargetsAreHeld(rx: Receiver, hash: Hash, c: Capsule)
    requires ChainsHeld(rx.vault, hash) && ClosedInChain(c)
    requires c.previous.Some? ==> HasReceipt(rx.vault, hash(c.previous.value))
    ensures forall r :: r in c.records ==> Targets(r) <= rx.vault.records.Keys + Ids(c.records)
  {
    hide Targets;
  }

  // ----- whole runs -----

  datatype Link = Link(sender: Sender, receiver: Receiver)

  /** The receiver's vault is also written by its own users. */
  ghost predicate LocalStep(rx: Receiver, ry: Receiver) {
    && ry == rx.(vault := ry.vault) && Valid(ry.vault)
    && rx.vault.records.Keys <= ry.vault.records.Keys && ry.vault.receipts == rx.vault.receipts
  }

  /** Only the sender can sign for its stream; other streams may carry anything. */
  ghost predicate Offers(x: Sender, c: Capsule) {
    WellFormed(c) && (c.stream == x.stream ==> c in x.outputs)
  }

  ghost predicate ReceiveStep(a: Link, b: Link, trusted: Trust, hash: Hash) {
    exists c, after, proofs, validates, writes ::
      && Offers(a.sender, c)
      && b.receiver == Receive(a.receiver, trusted, hash, c, after, proofs, validates, writes).receiver
  }

  ghost predicate LinkStep(a: Link, b: Link, trusted: Trust, hash: Hash) {
    || (SenderStep(a.sender, b.sender) && b.receiver == a.receiver)
    || (LocalStep(a.receiver, b.receiver) && b.sender == a.sender)
    || (ReceiveStep(a, b, trusted, hash) && b.sender == a.sender)
  }

  ghost predicate LinkStart(a: Link) {
    && a.sender == Sender(a.sender.stream, 0, None, None, {}, NO_INDEX)
    && a.receiver == Receiver(a.receiver.vault, map[], {}) && Valid(a.receiver.vault)
    && a.receiver.vault.receipts == map[]
  }

  ghost predicate LinkRun(run: seq<Link>, trusted: Trust, hash: Hash) {
    && |run| > 0 && LinkStart(run[0])
    && forall i :: 0 <= i < |run| - 1 ==> LinkStep(run[i], run[i + 1], trusted, hash)
  }

  lemma LocalKeeps(rx: Receiver, ry: Receiver, hash: Hash)
    requires ReceiverValid(rx, hash) && LocalStep(rx, ry)
    ensures ReceiverValid(ry, hash)
  {
    hide Valid, ChainIds;
    assert forall k :: HasReceipt(rx.vault, k) == HasReceipt(ry.vault, k);
  }

  /** Publishing, losing the index, replaying, receiving and crashing in any order: the sender
      only ever shows batches closed in their chain, and a receipt always stands for a whole chain. */
  lemma {:induction false} LinkRunKeeps(run: seq<Link>, trusted: Trust, hash: Hash, i: nat)
    requires Injective(hash) && LinkRun(run, trusted, hash) && i < |run|
    ensures SenderValid(run[i].sender) && ReceiverValid(run[i].receiver, hash)
  {
    hide SenderValid, ReceiverValid, SenderStep, LocalStep, Receive;
    if i == 0 {
      StartValid(run[0], hash);
    } else {
      LinkRunKeeps(run, trusted, hash, i - 1);
      var a, b := run[i - 1], run[i];
      assert LinkStep(run[i - 1], run[i - 1 + 1], trusted, hash);
      if SenderStep(a.sender, b.sender) && b.receiver == a.receiver {
        SenderKeeps(a.sender, b.sender);
      } else if LocalStep(a.receiver, b.receiver) && b.sender == a.sender {
        LocalKeeps(a.receiver, b.receiver, hash);
      } else {
        var c, after, proofs, validates, writes :|
          && Offers(a.sender, c)
          && b.receiver == Receive(a.receiver, trusted, hash, c, after, proofs, validates, writes).receiver;
        ReceiveKeeps(a.receiver, trusted, hash, c, after, proofs, validates, writes);
      }
    }
  }

  lemma StartValid(a: Link, hash: Hash)
    requires LinkStart(a)
    ensures SenderValid(a.sender) && ReceiverValid(a.receiver, hash)
  {
    hide Valid;
  }

  /** At every point of every run, taking in any batch the sender has shown finds no dangling
      relation, and one with a receipt has its whole chain in the vault. */
  lemma OmittedTargetsAreHeld(run: seq<Link>, trusted: Trust, hash: Hash, i: nat, c: Capsule, after: nat,
                              proofs: map<Id, Attestation>, validates: Store -> bool, writes: nat)
    requires Injective(hash) && LinkRun(run, trusted, hash) && i < |run| && c in run[i].sender.outputs
    ensures Receive(run[i].receiver, trusted, hash, c, after, proofs, validates, writes).error != Some(DanglingRelation)
    ensures forall r :: r in c.records ==> Targets(r) <= ChainIds(c)
    ensures HasReceipt(run[i].receiver.vault, hash(c)) ==> ChainIds(c) <= run[i].receiver.vault.records.Keys
  {
    LinkRunKeeps(run, trusted, hash, i);
    hide Receive, LinkRun, IndexStands, Targets, Valid;
    ReceiveNeverDangles(run[i].receiver, trusted, hash, c, after, proofs, validates, writes);
  }
}
