/** What publishing and receiving achieve: which capsules are taken in, where the saved cursors stand
    afterwards, and what the receiver's vault shows of the batch. */
module StreamProgress {
  import opened Wrappers
  import opened VaultStore
  import opened Capsules
  import opened StreamSync
  import Admissions
  import opened DeliveryRuns
  import opened StateAuthority

  // ----- the saved heads -----

  /** Each saved head is a retained batch of its own stream, and the saved cursor is its cursor. */
  ghost predicate HeadsRetained(rx: Receiver) {
    forall stream :: stream in rx.peers && rx.peers[stream].head.Some? ==>
      var head := rx.peers[stream].head.value;
      && head.batch in rx.evidence && head.batch.stream == stream
      && head.cursor == head.batch.cursor == rx.peers[stream].received && head.after == head.batch.after
  }

  lemma ReceiveRetains(rx: Receiver, trusted: Trust, hash: Hash, c: Capsule, after: nat, proofs: map<Id, Attestation>,
                       validates: Store -> bool, writes: nat)
    requires HeadsRetained(rx)
    ensures HeadsRetained(Receive(rx, trusted, hash, c, after, proofs, validates, writes).receiver)
  {
    hide Admit, ChainRefused, HasReceipt;
  }

  lemma {:induction false} RunRetains(run: seq<Link>, trusted: Trust, hash: Hash, i: nat)
    requires LinkRun(run, trusted, hash) && i < |run|
    ensures HeadsRetained(run[i].receiver)
  {
    hide SenderStep, Receive, HeadsRetained, Offers;
    if i > 0 {
      RunRetains(run, trusted, hash, i - 1);
      var a, b := run[i - 1], run[i];
      assert LinkStep(run[i - 1], run[i - 1 + 1], trusted, hash);
      if ReceiveStep(a, b, trusted, hash) {
        var c, after, proofs, validates, writes :|
          && Offers(a.sender, c)
          && b.receiver == Receive(a.receiver, trusted, hash, c, after, proofs, validates, writes).receiver;
        ReceiveRetains(a.receiver, trusted, hash, c, after, proofs, validates, writes);
      } else {
        SameHeads(a.receiver, b.receiver);
      }
    } else {
      NoHeads(run[0].receiver);
    }
  }

  lemma SameHeads(rx: Receiver, ry: Receiver)
    requires HeadsRetained(rx) && ry.peers == rx.peers && ry.evidence == rx.evidence
    ensures HeadsRetained(ry)
  {
  }

  lemma NoHeads(rx: Receiver)
    requires rx.peers == map[]
    ensures HeadsRetained(rx)
  {
  }

  // ----- one capsule -----

  /** The receiver stands just before the capsule: its cursor is where the capsule begins and, when the
      capsule names a batch before it, that batch is the saved head. */
  predicate Next(rx: Receiver, c: Capsule) {
    && PeerOf(rx, c.stream).received == c.after && ChainRefused(PeerOf(rx, c.stream).head, c).None?
  }

  /** What the vault and the validator ask of the batch. */
  ghost predicate Fits(rx: Receiver, trusted: Trust, hash: Hash, c: Capsule, proofs: map<Id, Attestation>,
                       validates: Store -> bool)
  {
    var validating := c.schema == IncrementalDelta || SelfContained(c.records);
    var b := AdmitBatch(rx.vault, trusted, c.records, Verified, proofs, |c.records|);
    && IngestRefused(c.records, Verified, proofs, Some(TransferOf(hash, c)), validating).None?
    && Admissions.BatchFits(rx.vault, c.records, Verified, proofs)
    && (validating ==> b.Success? && validates(b.value.store))
  }

  /** The state a completed receive leaves: the batch is retained and receipted, and it is the saved head. */
  ghost predicate Moved(rx: Receiver, ry: Receiver, hash: Hash, c: Capsule) {
    && ry.evidence == rx.evidence + {c} && HasReceipt(ry.vault, hash(c))
    && ry.peers
       == rx.peers[c.stream := Peer(c.cursor, Some(ReceivedHead(c.after, c.cursor, c, c.schema != PlainDelta)))]
  }

  /** What the batch needs from before is there. */
  lemma BaseIsHeld(rx: Receiver, hash: Hash, c: Capsule)
    requires ReceiverValid(rx, hash) && HeadsRetained(rx) && WellFormed(c) && Next(rx, c)
    ensures c.schema == IncrementalDelta ==> HistoryRefused(rx.evidence + {c}, c).None?
    ensures Admissions.BaseHeld(rx.vault, Some(TransferOf(hash, c)))
    ensures !(PeerOf(rx, c.stream).head.Some? && PeerOf(rx, c.stream).head.value.batch == c)
  {
    hide ChainsHeld, HasReceipt, Valid, DistinctIds, SelfContained;
    PreviousIsReceipted(rx, hash, c);
  }

  /** A completed receive of the next capsule is refused only by what the vault asks of the batch itself:
      nothing it leaves out is missing.  Taken in, it is the saved head, it is receipted, and every record of it
      is stored. */
  lemma ReceiveTakes(rx: Receiver, trusted: Trust, hash: Hash, c: Capsule, proofs: map<Id, Attestation>,
                     validates: Store -> bool, writes: nat)
    requires ReceiverValid(rx, hash) && HeadsRetained(rx) && WellFormed(c) && ClosedInChain(c) && Next(rx, c)
    requires hash(c) !in rx.vault.receipts && writes >= 3
    ensures var end := Receive(rx, trusted, hash, c, c.after, proofs, validates, writes);
      && (end.error.None? <==> Fits(rx, trusted, hash, c, proofs, validates))
      && (end.error.None? ==>
            && Moved(rx, end.receiver, hash, c)
            && end.receiver.vault.records.Keys == rx.vault.records.Keys + Ids(c.records))
  {
    BaseIsHeld(rx, hash, c);
    PreviousIsReceipted(rx, hash, c);
    TargetsAreHeld(rx, hash, c);
    AdmitTakes(rx.(evidence := rx.evidence + {c}), trusted, hash, c, proofs, validates);
    hide Admit, Fits, HeadsRetained, ReceiverValid, ClosedInChain, Valid, TransferOf;
  }

  /** The vault transaction of a capsule whose base is held and whose targets are there. */
  lemma AdmitTakes(rx: Receiver, trusted: Trust, hash: Hash, c: Capsule, proofs: map<Id, Attestation>,
                   validates: Store -> bool)
    requires Valid(rx.vault) && WellFormed(c) && hash(c) !in rx.vault.receipts
    requires c.schema == IncrementalDelta ==> HistoryRefused(rx.evidence, c).None?
    requires Admissions.BaseHeld(rx.vault, Some(TransferOf(hash, c)))
    requires forall r :: r in c.records ==> Targets(r) <= rx.vault.records.Keys + Ids(c.records)
    ensures var t := Admit(rx, trusted, hash, c, proofs, validates);
      && (t.Success? <==> Fits(rx, trusted, hash, c, proofs, validates))
      && (t.Success? ==> HasReceipt(t.value, hash(c)) && t.value.records.Keys == rx.vault.records.Keys + Ids(c.records))
  {
    hide Ingest, Valid, AdmitBatch, Admissions.BatchFits, Admissions.BaseHeld, Targets, Ids, DistinctIds, IngestRefused;
    hide HistoryRefused, SelfContained;
    var validating := c.schema == IncrementalDelta || SelfContained(c.records);
    var transfer := Some(TransferOf(hash, c));
    if IngestRefused(c.records, Verified, proofs, transfer, validating).None? {
      Admissions.IngestAccepts(rx.vault, trusted, c.records, Verified, proofs, transfer,
                               if validating then Some(validates) else None);
    } else {
      EarlyRefusal(rx.vault, trusted, c.records, Verified, proofs, transfer,
                   if validating then Some(validates) else None);
    }
  }

  lemma EarlyRefusal(s: Store, trusted: Trust, records: seq<Record>, state: Admission, proofs: map<Id, Attestation>,
                     transfer: Option<Transfer>, validates: Option<Store -> bool>)
    requires IngestRefused(records, state, proofs, transfer, validates.Some?).Some?
    ensures Ingest(s, trusted, records, state, proofs, transfer, validates).Failure?
  {
  }

  /** With proofs by keys trusted now, every record of the batch is shown as verified. */
  lemma ReceivedIsVerified(rx: Receiver, trusted: Trust, hash: Hash, c: Capsule, proofs: map<Id, Attestation>,
                           validates: Store -> bool, writes: nat, id: Id)
    requires ReceiverValid(rx, hash) && HeadsRetained(rx) && WellFormed(c) && ClosedInChain(c) && Next(rx, c)
    requires hash(c) !in rx.vault.receipts && writes >= 3
    requires AllAllowed(proofs, ByTrusted(trusted)) && id in Ids(c.records)
    requires Receive(rx, trusted, hash, c, c.after, proofs, validates, writes).error.None?
    ensures RankOf(Receive(rx, trusted, hash, c, c.after, proofs, validates, writes).receiver.vault, trusted, id) == 2
  {
    hide ReceiverValid, HeadsRetained, Receive, ClosedInChain, WellFormed, Next, AllAllowed, RankOf, Ids;
    hide TransferOf, SelfContained;
    ThroughAdmit(rx, trusted, hash, c, proofs, validates, writes);
    var t := Receive(rx, trusted, hash, c, c.after, proofs, validates, writes).receiver.vault;
    var validating := c.schema == IncrementalDelta || SelfContained(c.records);
    var transfer := TransferOf(hash, c);
    assert transfer.id == hash(c) by { TransferIs(hash, c); }
    Admissions.IngestRanks(rx.vault, t, trusted, c.records, Verified, proofs, Some(transfer),
                           if validating then Some(validates) else None);
  }

  lemma TransferIs(hash: Hash, c: Capsule)
    ensures TransferOf(hash, c).id == hash(c)
  {
  }

  /** A completed receive goes through the vault's transaction. */
  lemma ThroughAdmit(rx: Receiver, trusted: Trust, hash: Hash, c: Capsule, proofs: map<Id, Attestation>,
                     validates: Store -> bool, writes: nat)
    requires ReceiverValid(rx, hash) && HeadsRetained(rx) && WellFormed(c) && Next(rx, c) && writes >= 3
    requires Receive(rx, trusted, hash, c, c.after, proofs, validates, writes).error.None?
    ensures Ingest(rx.vault, trusted, c.records, Verified, proofs, Some(TransferOf(hash, c)),
                   if c.schema == IncrementalDelta || SelfContained(c.records) then Some(validates) else None)
            == Success(Receive(rx, trusted, hash, c, c.after, proofs, validates, writes).receiver.vault)
  {
    BaseIsHeld(rx, hash, c);
    hide Ingest, HeadsRetained, ReceiverValid, WellFormed, SelfContained, TransferOf, HistoryRefused, ChainRefused;
  }

  /** A call cut short after the vault's commit is finished by the next one: the vault stays as it is
      and the cursor moves. */
  lemma RetryMoves(rx: Receiver, trusted: Trust, hash: Hash, c: Capsule, proofs: map<Id, Attestation>,
                   validates: Store -> bool, writes: nat)
    requires ReceiverValid(rx, hash) && HeadsRetained(rx) && WellFormed(c) && Next(rx, c)
    requires HasReceipt(rx.vault, hash(c)) && writes >= 3
    requires IngestRefused(c.records, Verified, proofs, Some(TransferOf(hash, c)),
                           c.schema == IncrementalDelta || SelfContained(c.records)).None?
    ensures var end := Receive(rx, trusted, hash, c, c.after, proofs, validates, writes);
      end.error.None? && end.receiver.vault == rx.vault && Moved(rx, end.receiver, hash, c)
  {
    BaseIsHeld(rx, hash, c);
    hide ReceiverValid, HeadsRetained, IngestRefused, AdmitBatch;
  }

  /** The head offered again is acknowledged, with nothing written. */
  lemma HeadIsAcknowledged(rx: Receiver, ry: Receiver, trusted: Trust, hash: Hash, c: Capsule,
                           proofs: map<Id, Attestation>, validates: Store -> bool, writes: nat)
    requires Moved(rx, ry, hash, c)
    ensures Receive(ry, trusted, hash, c, c.after, proofs, validates, writes) == Received(ry, None)
  {
    hide Admit;
  }

  // ----- both ends -----

  /** Uninterrupted, publishing moves the sender to the pending batch: shown, recorded with its members and
      made the head.  Only a record whose id the stream already carries under another hash stops it, after
      the batch has been shown. */
  lemma PublishMoves(x: Sender, writes: nat)
    requires SenderValid(x) && x.pending.Some? && writes >= 4
    ensures var p := x.pending.value;
      match WithMembers(x.index.members, p.stream, p.records)
      case Success(m) =>
        Publish(x, writes) == Sender(x.stream, p.cursor, Some(p), None, x.outputs + {p},
                                     Index(x.index.heads[p.stream := Head(p.cursor, p)], m))
      case Failure(_) => Publish(x, writes) == x.(outputs := x.outputs + {p})
  {
    hide WithMembers, ClosedInChain, ChainIds, SelfContained, DistinctIds;
    var p := x.pending.value;
    FrontierFits(x);
    if x.last == Some(p) {
      assert x.outputs + {p} == x.outputs;
    }
  }

  lemma FrontierFits(x: Sender)
    requires SenderValid(x) && x.pending.Some?
    ensures match Published(x.index, x.pending.value)
      case Failure(_) => WithMembers(x.index.members, x.pending.value.stream, x.pending.value.records).Failure?
      case Success(ix) =>
        WithMembers(x.index.members, x.pending.value.stream, x.pending.value.records) == Success(ix.members)
        && ix.heads == x.index.heads[x.pending.value.stream := Head(x.pending.value.cursor, x.pending.value)]
  {
    FrontierNeverRefused(x);
    hide SenderValid, MemberIds, Replays, Follows;
  }

  /** In every state of every run, a batch the sender has shown that comes next for the receiver is taken in
      exactly when the vault and the validator take its records. */
  lemma ShownIsTaken(run: seq<Link>, trusted: Trust, hash: Hash, i: nat, c: Capsule, proofs: map<Id, Attestation>,
                     validates: Store -> bool, writes: nat)
    requires Injective(hash) && LinkRun(run, trusted, hash) && i < |run| && c in run[i].sender.outputs
    requires Next(run[i].receiver, c) && hash(c) !in run[i].receiver.vault.receipts && writes >= 3
    ensures var end := Receive(run[i].receiver, trusted, hash, c, c.after, proofs, validates, writes);
      && (end.error.None? <==> Fits(run[i].receiver, trusted, hash, c, proofs, validates))
      && (end.error.None? ==> Moved(run[i].receiver, end.receiver, hash, c))
  {
    LinkRunKeeps(run, trusted, hash, i);
    RunRetains(run, trusted, hash, i);
    hide LinkRun, Receive, Fits, Moved, IndexStands, Next, HeadsRetained, ReceiverValid;
    ReceiveTakes(run[i].receiver, trusted, hash, c, proofs, validates, writes);
  }
}
