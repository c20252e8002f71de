# Memory vault: a verified model

The vault is an append-only store of content-addressed memory records. Records point at each
other; each has an admission (local, accepted unsigned, verified by a signer, quarantined) that
decides whether it is readable now. Around the store run a signed, incremental delivery protocol,
a cache of closure validations, journals that carry host turns into the store, and two resumable
byte transfers. This project models those parts in Dafny and proves what they promise over all
inputs, runs and crash points.

## How the model is laid out

- `Graphs`, `Sorting`, `Wrappers`: paths and reachability, `ORDER BY`, results and error codes.
- `Cycles`, `Lineage`, `BoundedGraphs`: the iterative cycle search, the lineage summary, bounded
  graph views and current-state witnesses.
- `Ranking`, `RecallPool`: the Q64 integer arithmetic, the version 2 score, and the pool
  statistics it is fed.
- `ExpAccuracy`, `LogAccuracy`, `ScoreAccuracy`: what that arithmetic means over the reals, against
  the exponential and logarithm series and the formula of the first ranking profile.
- `VaultStore`, `VaultTransactions`: the tables as one value, and the vault object with a
  committed and a working copy of them.
- `Admissions`: which batches are taken in, and the ranks their records have afterwards.
- `Delivery`, `DeliveryWalks`, `DeliveryRuns`, `DeliveryLimits`: one page of the change log, when
  the walk behind it comes through, what whole runs never lose, and exactly what a page passes by.
- `AdmittedProofs`: the proofs operations store, and pages that must carry them.
- `StateAuthority`: which replacements take effect, and author pins.
- `DependencyEpoch`, `DependencyDemand`, `DependencyValidation`, `Boundaries`: epoch-stamped
  certificates over concurrent writers, what a validation has to read, the validator that does it,
  and the delivery boundary it serves.
- `Capsules`, `StreamSync`, `StreamProgress`: the sender's index of published members, publishing
  and receiving with crashes and a lost index, and what a completed call achieves.
- `CapturePlans`, `CaptureRuns`, `CaptureAcceptance`: frozen capture plans, their journal, and which
  plans it accepts.
- `TurnStores`, `TurnRuns`, `TurnAcceptance`, `HostBridges`: host turns in a control database beside
  the vault.
- `HookCapture`, `HookRuns`: the hook variant, with one journal transaction over several vault
  commits, its runs event by event and the drain among them.
- `FileCopy`, `ArtifactFetch`: the resumable copy and the resumable download.
- `Utf8`, `Recall`: cutting and paging text without losing a byte.
- `DeviceTrust`, `ReplicationChain`: enrolled devices, and the catalogs a receiver follows.
- `Experience`: the experience metadata codec.

Objects whose methods change fields are classes; tables are maps and sequences in them. Each
method is proved against a function or predicate of its old and new state, and the properties of
runs are proved about those.

## Conventions

- A memory id is a natural number: ids are fixed-length hex text, so their order is the same.
- A hash is held as what it is the hash of, or as an injective function of it. Signature checks
  are predicates. Clocks, random tokens, remote reads and signers are parameters.
- A crash is a parameter that says after how many durable writes or commits the process stops;
  an interrupted file write may leave any tail.
- A file's fingerprint is a stamp that every write renews, together with the size.

## What the proofs found

Where the code does less than its tests and documentation suggest, the model follows the code.

- Admission can lower a rank. An offer verified by a key the vault itself does not trust replaces
  the row of a record that was readable unsigned, and hides it. `StateAuthority.WhenAdmissionLowers`
  gives the exact condition and `StateAuthority.AdmissionCanLower` an instance.
- The member index links unchained batches by cursor alone, so after two of them its members are
  not within the hash chain of its head: `Capsules.PlainBatchesLeaveTheChain`, exactly
  `Capsules.StaysInChain`. Chained batches never do this.
- Plain no lost delivery fails. A wire page lists a closure larger than any page as blocked and moves
  past it: `DeliveryLimits.LargeRecordIsPassed` is a run that ends at the head without the record.
  Of the deliverable rows it passes, a page sends exactly those whose closure is not too large
  (`DeliveryLimits.PassedIsSent`, counted out in `DeliveryLimits.TooLargeMeans`), and over runs
  nothing else is lost: `DeliveryLimits.NothingElseIsLost`.
- A proof can stop the feed. Admission bounds a signature in characters and pages bound a proof in
  bytes, so a caller that does not check signatures can store a proof no page may carry, and every
  wire call that starts at its record fails: `AdmittedProofs.HeavyProofStopsFeed`. For a call of one
  row over a deliverable entry with room that is exactly when its closure holds one:
  `AdmittedProofs.OneRowFails`. Checked signatures never do this: `AdmittedProofs.CheckedProofsFit`.
- Download phases do not only move forward. Repeating a finished download writes `verified` again
  before `complete`, and a crash between the two leaves the former. Undisturbed, the phase falls
  exactly when a finished job is repeated and dies after its first durable write:
  `ArtifactFetch.Fetcher.Fetch`, with an instance in `ArtifactFetch.FinishedJobFallsBack`.
- Two crashes leave a copy that no retry finishes. The empty destination created before the first
  receipt is refused as an existing output, and a torn write that left other bytes as a conflict:
  `FileCopy.StuckCopies`. The contract of `FileCopy.Copier.Copy` says exactly when a call succeeds.
- An observation with lineage is not always read as hearsay. Beside more than 16 relations, native
  lineage included, decoding gives up and reads it as unspecified, although a record may carry 256:
  `Experience.ObservationWithTooMuchLineage`, exactly `Experience.DecodeMeans`. What encode writes
  is always recognised.

## Model

| member | source | states |
|---|---|---|
| `Cycles.DirectedCycle` | memory_vault.py:894-919 | the iterative three-colour search answers true exactly when a directed cycle can be reached from the given nodes |
| `Cycles.TopIsNotGrey` | memory_vault.py:894-919 | an unopened entry popped from the stack never belongs to a node still open: the pop-time grey test never fires |
| `Cycles.SearchFrom` | memory_vault.py:894-919 | one root: true means a reachable cycle; false leaves every reached node finished and nothing open |
| `Cycles.PushAll` | memory_vault.py:894-919 | the child loop stops only at a child on the current path, which closes a cycle; otherwise every child is finished or stacked above its parent |
| `Cycles.OrderFalls` | memory_vault.py:894-919 | along every path out of a finished node the finishing order falls by at least one a step, so no such path returns |
| `Cycles.FinishedAcyclic` | memory_vault.py:894-919 | no path reachable from a finished node comes back to its start |
| `Lineage.Component` | memory_vault_experience.py:126-146 | the worklist collects exactly the records connected to the root by claims in either direction |
| `Lineage.KahnCycle` | memory_vault_experience.py:147-171 | Kahn's loop reports a cycle exactly when the lineage graph has one |
| `Lineage.Release` | memory_vault_experience.py:147-171 | the child loop takes one parent from every child of the node and queues exactly those left without one |
| `Lineage.Settle` | memory_vault_experience.py:147-171 | with the queue empty, some node was never taken exactly when the graph is cyclic |
| `Lineage.NoSourceMeansCycle` | memory_vault_experience.py:147-171 | nodes that each keep a parent among themselves contain a cycle |
| `Lineage.ParentsFirstAcyclic` | memory_vault_experience.py:147-171 | an order that takes parents first and covers the graph shows there is no cycle |
| `Lineage.Summarize` | memory_vault_experience.py:126-171 | component, roots, missing references and the cycle flag are each characterised on the claims, the flag as a cycle of the lineage restricted to the component |
| `BoundedGraphs.GraphRows` | memory_vault.py:2330-2416 | refused only when the root is not visible; always within node, edge and depth bounds with every edge between returned records and their bytes summed; with no reason for cutting off, records and edges are exactly the connected component, and each reason given is true: edges at their limit or a record with more rows than that, the full depth reached, records at their limit with one left out, or one left out that is past the byte limit; the cycle flag is right about what is shown |
| `BoundedGraphs.Expand` | memory_vault.py:2330-2416 | expanding one node keeps every bound and, unless something was cut off, takes every edge at it |
| `BoundedGraphs.WholeComponent` | memory_vault.py:2330-2416 | nothing queued and nothing cut off means the whole component and all its edges |
| `BoundedGraphs.WitnessIds` | memory_vault.py:1828-1870 | never more than the maximum; always current records reached from the roots by effective replacements; exactly all of them when not truncated; truncated only where as many records replace the roots as may be returned, a chain is as long as the depth limit, or a record has more replacement rows than are still wanted |
| `BoundedGraphs.Visit` | memory_vault.py:1828-1870 | one target: either truncated, or every replacement of it is a root or a witness |
| `BoundedGraphs.WalkDone` | memory_vault.py:1828-1870 | an exhausted untruncated walk has met everything the roots lead to |
| `Ranking.RoundIsHalfEven` | memory_vault.py:638-642 | the rounded value is the nearest integer and the even one of two equally near, and no other integer is |
| `Ranking.RankRound` | memory_vault.py:638-642 | refused exactly for a negative numerator or a denominator not positive, otherwise the half-even nearest integer |
| `Ranking.RoundScales` | memory_vault.py:638-642 | scaling numerator and denominator alike never changes the result |
| `Ranking.RoundMonotone` | memory_vault.py:638-642 | a larger numerator never rounds lower |
| `Ranking.RankLogQ` | memory_vault.py:645-658 | the two loops compute the Q64 logarithm of every ratio of at least one and refuse every other |
| `Ranking.LogOfDouble` | memory_vault.py:645-658 | doubling the ratio adds exactly the constant for ln 2 |
| `Ranking.LogOfOne` | memory_vault.py:645-658 | the logarithm of one is zero |
| `Ranking.RankExpNegQ` | memory_vault.py:661-676 | refused exactly for a negative argument; otherwise the loops compute the exponential value, zero from 64 on, and the clamp changes nothing |
| `Ranking.FindShift` | memory_vault.py:661-676 | the halving loop stops after at most nine halvings |
| `Ranking.ShiftIsLeast` | memory_vault.py:661-676 | the shift is the least one that brings the value down to an eighth |
| `Ranking.AlternatingBounds` | memory_vault.py:661-676 | partial sums of the alternating series stay between one minus its first term and one |
| `Ranking.ExpInRange` | memory_vault.py:661-676 | the value before the clamp is already within the scale, so the clamp never acts |
| `Ranking.SquareDown` | memory_vault.py:661-676 | squaring a value within the scale stays within it |
| `ExpAccuracy.ExpOfSmall` | memory_vault.py:661-676 | up to an eighth the value is within 23 units of every partial sum of the exponential series from the twentieth on |
| `ExpAccuracy.ExpOfDouble` | memory_vault.py:674-675 | past an eighth, doubling the argument gives exactly the square of the value, rounded once |
| `ExpAccuracy.ExpOfOne` | memory_vault.py:661-676 | the value at one, a record one year old, in full |
| `ExpAccuracy.ExpFalls` | memory_vault.py:661-676 | a larger argument never has a value more than 43008 units above that of a smaller one |
| `ExpAccuracy.OlderIsNotFresher` | memory_vault.py:686-690 | an older record never has a time factor more than 7743 units above that of a younger one |
| `ExpAccuracy.ExpIsExponential` | memory_vault.py:661-676 | for every argument the value is within 12543 units, less than 2^-50, of any function that turns sums into products and lies between the odd and even partial sums up to an eighth |
| `LogAccuracy.LogSeriesMeans` | memory_vault.py:652-657 | the series loop is within 45 units of every partial sum of the artanh series from the thirty-second on |
| `LogAccuracy.RatioIsReduced` | memory_vault.py:648-652 | what is left after the doublings is between one and two, and its reduced ratio at most 0.34 |
| `LogAccuracy.ConstantIsLogOfTwo` | memory_vault.py:634-636 | the constant for ln 2 is four units above what the loop gives for the ratio two |
| `Ranking.TimeFactorInRange` | memory_vault.py:686-690 | the time factor lies between 41/50 and one of the scale up to its rounding, and a record from the future counts as new |
| `Ranking.SemanticCardinality` | memory_vault.py:621-635 | overlap within union, a positive union and a bounded polarity; some overlap exactly when a concept is shared |
| `Ranking.RankScoreV2` | memory_vault.py:693-728 | no score for a zero base, the weighted score otherwise, and an arithmetic refusal exactly for a degenerate term or a result past 2^53-1 |
| `Ranking.ScoreIsTotal` | memory_vault.py:2103-2121 | within the bounds recall keeps neither refusal can occur |
| `Ranking.HistoryNeverHelps` | memory_vault.py:693-728 | a resolved or superseded record never scores above itself as current |
| `ScoreAccuracy.TermFollows` | memory_vault.py:2131-2133 | a lexical term is the first profile's saturated weight, with k1 = 1.35 and b = 0.72, rounded once |
| `ScoreAccuracy.ConceptFollows` | memory_vault.py:607-618 | the concept part is 2.25 times the first profile's similarity, rounded once |
| `ScoreAccuracy.EntityFollows` | memory_vault.py:2135-2136 | the entity part is half the sum of the matched share of the query and the entities' similarity, rounded once |
| `ScoreAccuracy.FinalFollows` | memory_vault.py:2141-2149 | the final score is a thousand times the base, the first profile's decimal factors and the time factor, rounded once |
| `ScoreAccuracy.ScoreFollowsFirst` | memory_vault.py:2127-2149 | with the same inverse frequencies and time factor the score is the first profile's formula over the reals, in thousandths, to within 0.51 |
| `RecallPool.BuildPool` | memory_vault.py:2085-2098 | the loop leaves for each selected fragment its query token counts and its length, for each token the number of fragments that hold it, and the total length |
| `RecallPool.EntityMatches` | memory_vault.py:740-755 | the early-stopping loop gives exactly the query tokens some label holds, at most the query tokens |
| `RecallPool.PoolIsFromRecall` | memory_vault.py:2097-2121 | with at most 256 query tokens over at most 4096 fragments every scorer input built from the pool keeps those bounds, so no score of a recall is refused |
| `VaultTransactions.Vault.InsertOne` | memory_vault.py:1582-1628 | stored bytes are never replaced; a record enters with its targets present unless relations may be pending |
| `VaultTransactions.Vault.Admit` | memory_vault.py:1372-1431 | an offer no stronger than the current rank changes only the first-signer pin; a stronger one replaces the row and logs the record |
| `VaultTransactions.Vault.RequeueDependents` | memory_vault.py:1433-1453 | the working-set loop logs exactly the readable records with a relation path to an upgraded one, in id order |
| `VaultTransactions.Collected` | memory_vault.py:1433-1453 | when no new source turns up, what was found is exactly the set of dependents |
| `VaultTransactions.PathFound` | memory_vault.py:1433-1453 | along any relation path to an upgraded record every record before it has been found |
| `VaultTransactions.Vault.IngestRecords` | memory_vault.py:3206-3288 | one transaction: refusals before it, receipt replay, previous receipt, batch, validator, requeue, receipt and the deferred foreign key, all or nothing |
| `VaultTransactions.Vault.ImportBundle` | memory_vault.py:3572-3635 | every imported record enters unsigned or quarantined in one transaction, and what it strengthened is requeued |
| `VaultTransactions.Vault.RememberRecord` | memory_vault.py:1630-1661 | one record with its relations stored, signed when there is a signer, its dependents requeued if it was strengthened |
| `VaultTransactions.Vault.Quarantine` | memory_vault.py:3290-3298 | exactly the verified rows of the signer become quarantined; bytes, signers and proofs stay |
| `VaultTransactions.Vault.RequeueExplicitly` | memory_vault.py:3300-3334 | every named record must be readable; then they and their readable dependents are logged again, or nothing is |
| `Admissions.OfferRaises` | memory_vault.py:1401-1430 | after a fitting offer, unsigned, quarantined or verified by a trusted key, the rank of the record is the larger of what it was and what was offered |
| `Admissions.OfferElsewhere` | memory_vault.py:1401-1430 | an offer changes the rank of no other record |
| `Admissions.IngestAccepts` | memory_vault.py:3206-3288 | a new transfer past the early refusals commits exactly when its records agree with those stored, its proofs fit, the validator agrees and every target is stored or in the batch; the receipt counts the records brought and those that were new |
| `Admissions.IngestRanks` | memory_vault.py:1414-1431 | after a committed ingest of proofs by trusted keys every record of the batch ranks 2, whatever it ranked before |
| `Admissions.QuarantinedIsReadmitted` | memory_vault.py:1414-1453 | a record hidden or unsigned before such an ingest is verified and logged after it, and so is every readable record that depends on it |
| `Admissions.ImportAccepts` | memory_vault.py:3572-3635 | a bundle of distinct ids is imported exactly when its records agree with those stored and every target is stored or in the bundle |
| `Admissions.ImportRanks` | memory_vault.py:3572-3635 | an accepted import leaves each record of it at the larger of its old rank and unsigned, a quarantined one at its old rank |
| `Admissions.RememberAccepts` | memory_vault.py:1630-1661 | one local record is remembered exactly when it is the stored one or all its targets are stored, and its proof fits |
| `Admissions.RememberRanks` | memory_vault.py:1630-1661 | a record remembered unsigned or signed by a trusted key ranks at the larger of its old rank and its own offer, and no other changes |
| `Admissions.QuarantineRanks` | memory_vault.py:3290-3298 | a quarantine hides exactly the records its signer had verified |
| `Admissions.RequeueRanks` | memory_vault.py:3300-3334 | an explicit requeue changes no rank |
| `DeliveryRuns.IngestIsTxn` | memory_vault.py:3206-3288 | an ingest keeps the store valid, announces everything new or stronger and logs again everything readable that depends on a strengthened record |
| `DeliveryRuns.ImportIsTxn` | memory_vault.py:3572-3635 | the same for an unsigned import |
| `DeliveryRuns.RememberIsTxn` | memory_vault.py:1630-1661 | the same for a locally remembered record |
| `DeliveryRuns.QuarantineIsTxn` | memory_vault.py:3290-3298 | the same for a quarantine, which strengthens nothing |
| `DeliveryRuns.RequeueRecordsIsTxn` | memory_vault.py:3300-3334 | the same for an explicit requeue |
| `DeliveryRuns.BatchBecomesTxn` | memory_vault.py:1433-1453 | requeueing the dependents of everything a batch strengthened is what makes it announce every record it unblocked |
| `Delivery.Changes` | memory_vault.py:3030-3176 | one page: every readable row passed is sent or listed with a true reason; relation targets are in the page or vouched for; budgets hold; more to come means the cursor moved, none means it stands at the head; past the early refusals a call fails exactly when filling the page refuses a row or the boundary is not certified, with that error, and otherwise hands out what filling took in |
| `Delivery.Collect` | memory_vault.py:3073-3140 | one root, by an iterative walk: the outcome of the walk over its relations, which is its whole closure strongly enough admitted, or a blocking reason that is true of the closure |
| `Delivery.TakeRow` | memory_vault.py:3073-3162 | one row is sent, listed, left for the next page or refuses the call as the walk from it says, and keeps the page contract |
| `DeliveryWalks.RootIsWhole` | memory_vault.py:3087-3140 | the walk from a root the page has room for takes in its whole closure, short of what the boundary omits, exactly when nothing in it is too weak, refused or without a certificate and no proof is over the page bound |
| `DeliveryWalks.CompleteFails` | memory_vault.py:3141-3164 | over a store whose proofs all fit, a complete call is refused by a row exactly when the first row not blocked for its rank is, with nothing taken in yet, too large or in need of certificates |
| `DeliveryWalks.NextIsSent` | memory_vault.py:3073-3164 | the next readable entry, if nothing stands in the way of its closure and it has room, is sent by every call within its ranges over a store whose proofs all fit |
| `Delivery.RowsLeaveNothing` | memory_vault.py:3049-3076 | the row query skips only unreadable log entries and stops short only at the end |
| `DeliveryRuns.NoLostDelivery` | memory_vault.py:3046-3164 | in every state of every run a record whose whole closure is admitted has been sent, was reported as larger than a page, or has a log entry past the cursor |
| `DeliveryRuns.BlockedIsLoggedAgain` | memory_vault.py:3046-3164 | a stored record that is not deliverable now and is later has a log entry made in between |
| `DeliveryRuns.CaughtUp` | memory_vault.py:3046-3164 | at the head a subscriber holds every deliverable record that was not reported to it as oversized |
| `DeliveryRuns.PageHoldsClosures` | memory_vault.py:3107-3164 | without a boundary everything a sent record reaches is in the page at the required rank |
| `DeliveryRuns.PageLeavesOutMembers` | memory_vault.py:3107-3121 | with a boundary a page leaves out only published members |
| `DeliveryRuns.PagingEnds` | memory_vault.py:3160-3168 | following pages over a quiet log ends at the head within the number of log entries |
| `DeliveryLimits.PassedIsSent` | memory_vault.py:3073-3164 | a deliverable row that a page passes is in the page exactly when the page is no wire page or the closure of the row is not too large for the request |
| `DeliveryLimits.TooLargeMeans` | memory_vault.py:3087-3140 | a closure is too large exactly when the records it holds are more than the limit or cost more than the page has room for |
| `DeliveryLimits.SmallClosuresFit` | memory_vault.py:3034-3039 | a closure of at most 1024 records and 3072 wire bytes is too large for no wire request the vault accepts |
| `DeliveryLimits.LargeRecordIsPassed` | memory_vault.py:3087-3156 | a run from the empty store in which one readable record of 4000 bytes is passed by a wire page of 4096 bytes and never sent |
| `DeliveryLimits.ReportedIsTooLarge` | memory_vault.py:3136-3156 | in every state of every run what was reported as oversized had a closure too large for a request that passed it |
| `DeliveryLimits.NothingElseIsLost` | memory_vault.py:3046-3164 | in every state of every run a record whose whole closure is admitted has been sent or has a log entry past the cursor, unless a request that passed it found its closure too large |
| `DeliveryLimits.CaughtUpWithRoom` | memory_vault.py:3046-3164 | at the head a subscriber holds every deliverable record whose closure no request that passed it found too large |
| `AdmittedProofs.OfferedRunKeeps` | memory_vault.py:1372-1431 | in every store operations lead to each verified row holds its proof, and every stored proof is one of those offered |
| `AdmittedProofs.CheckedProofsFit` | memory_vault_trust.py:181-264 | where every offered proof had its signature checked no stored proof is over the page bound |
| `AdmittedProofs.PassedProofsFit` | memory_vault.py:3128-3133 | a page passes a deliverable record it has room for only if every proof in its closure is within the page bound |
| `AdmittedProofs.LargeProofStopsFeed` | memory_vault.py:3128-3133 | where the next entry is a deliverable record with room but a larger proof in its closure there is no page, so the call fails |
| `AdmittedProofs.ClearMeans` | memory_vault.py:3087-3140 | without a boundary and with nothing on the page yet, nothing stands in the way of a root exactly when its closure is deliverable, has room and holds no larger proof |
| `AdmittedProofs.WalkBreaks` | memory_vault.py:3087-3140 | wherever the walk through a deliverable closure with room has got to, it breaks exactly when some proof in the closure is over the page bound |
| `AdmittedProofs.OneRowFails` | memory_vault.py:3049-3140 | filling a wire page of one row whose next readable entry is deliverable and has room is refused exactly when some proof in its closure is over the page bound |
| `AdmittedProofs.HeavyProofStopsFeed` | memory_vault.py:1382-1398 | a record ingested with a proof of 1025 bytes, which the shape check passes, after which no wire page from the start exists |
| `StateAuthority.HistoricalIds` | memory_vault.py:1801-1826 | the batched query selects exactly the historical candidates |
| `StateAuthority.HistoricalIsStatus` | memory_vault.py:1754-1826 | on an admitted record it agrees with the status being resolved or superseded |
| `StateAuthority.StatusMeans` | memory_vault.py:1754-1798 | quarantined exactly when unreadable; resolved exactly when a record at least as strong and by the same author resolves it; superseded exactly when none does and one supersedes it |
| `StateAuthority.MatchMeansPins` | memory_vault.py:1680-1692 | in a store that pinned the signers it saw the author match holds exactly when the source is signed by the key both records are pinned to, or both are local and unsigned |
| `StateAuthority.PinsNeverChange` | memory_vault.py:1401-1430 | the first pinned signer of a record is the same in every later state of every run |
| `StateAuthority.ReattestingGainsNothing` | memory_vault.py:1401-1430 | records pinned to different keys never come to replace one another, unless both become local and unsigned |
| `StateAuthority.ReplacementsAreAuthored` | memory_vault.py:1680-1692 | in every state of every run a supersedes or resolves relation takes effect exactly when its source is at least as strong as its target and is signed by the key both are pinned to, or both are local and unsigned |
| `StateAuthority.UnsignedImportsStand` | memory_vault.py:1680-1692 | in every state of every run an imported record no verified offer has pinned is neither resolved nor superseded |
| `StateAuthority.WhenAdmissionLowers` | memory_vault.py:1401-1430 | an offer lowers a rank exactly when it is a fitting verified one by a key the vault does not trust, for a record readable unsigned |
| `StateAuthority.AdmissionCanLower` | memory_vault.py:1401-1430 | a run from the empty store, an unsigned import and then an ingest verified by an untrusted key, in which the rank falls from one to zero |
| `StateAuthority.OnlyQuarantineLowers` | memory_vault.py:1401-1430 | in a run whose verified offers are all by trusted keys a rank falls only when the signer that had verified the record is quarantined |
| `DependencyEpoch.FreshKeepsClosure` | memory_vault.py:75-96 | rows that were not there before change no closure that was whole |
| `DependencyEpoch.OpAddsOnly` | memory_vault.py:75-96 | with the exact triggers in place an operation that leaves the counter alone only adds rows |
| `DependencyEpoch.StampsFollowChanges` | memory_vault.py:75-96 | with the triggers in place the stamp changes exactly when a stored row does, or the triggers go |
| `DependencyEpoch.CertificatesLast` | memory_vault_dependency.py:227-290 | a certificate just stored answers for its record, and still does after any change that touches no stored row |
| `DependencyEpoch.StampedIsTrue` | memory_vault_dependency.py:227-232 | a certificate that was true at some committed state with its stamp is true wherever the stamp is current |
| `DependencyEpoch.CacheIsSound` | memory_vault_dependency.py:227-290 | every cache hit, in a committed state or inside a writer, names a record whose whole closure is present, verified and trusted |
| `DependencyEpoch.RunKeeps` | memory_vault_dependency.py:227-290 | commits, rollbacks that reuse counter values, trigger reinstalls, registry changes and late persists all keep that |
| `DependencyEpoch.CertificatesAreTrue` | memory_vault.py:1279-1336 | in every state of every run a certificate under the current epoch and registry means full closure verification would pass now |
| `DependencyEpoch.OlderReadersAreSafe` | memory_vault.py:1279-1336 | certificates stored later under the same stamp also hold of the older committed snapshot a reader may still have |
| `DependencyValidation.Validator.Require` | memory_vault_dependency.py:234-261 | while the registry stands still it succeeds exactly when every record it has to read passes and all of them fit in the budgets, and then puts exactly those among the checked; failure leaves checked and certificates as they were, and one that names a record is true of something reachable |
| `DependencyDemand.GoodClosureSatisfies` | memory_vault_dependency.py:234-261 | a fresh validator has to read nothing that stops it where the whole closure is good, shown, has proofs of at most 1024 bytes and fits the record and byte budgets |
| `DependencyDemand.VisitedAll` | memory_vault_dependency.py:238-257 | with nothing pending exactly the needed records have been visited: those reached without passing a checked or certified one |
| `DependencyDemand.TargetsRefused` | memory_vault_dependency.py:250-257 | new targets that would take the worklist past the record bound mean that what is needed does not fit |
| `DependencyValidation.Validator.Load` | memory_vault_dependency.py:205-225 | while the registry stands still a record is loaded exactly when its row is shown, verified by a trusted key and has a small enough proof, the record is the one held under its id, and there is room; it then costs its bytes once |
| `DependencyValidation.UnfitMeans` | memory_vault_dependency.py:205-225 | a record the validator refuses by name is one full verification would refuse or the vault does not show |
| `DependencyValidation.Validator.VisitNew` | memory_vault_dependency.py:238-257 | one turn of the worklist keeps every visited record verified or cached with its targets taken up, and shrinks what is unvisited |
| `DependencyValidation.Validator.TakeTargets` | memory_vault_dependency.py:250-257 | takes up exactly the targets that are not checked, visited or queued, and refuses exactly when with them more than 100 000 would be |
| `DependencyValidation.Validator.Touch` | memory_vault_dependency.py:165-175 | a record under a held id is refused as a conflict exactly when it differs and costs nothing when it is the same; a new one is taken exactly when both budgets allow it; a refusal leaves the budgets untouched |
| `DependencyValidation.Validator.ExportRow` | memory_vault_dependency.py:177-203 | a row read before costs nothing more, a new one its bytes, an unreadable id none; a new id is refused exactly when the rows are full, a shown row has a proof over 1024 bytes, or its bytes do not fit; the row is returned exactly when the vault shows it |
| `DependencyValidation.Validator.Finish` | memory_vault_dependency.py:263-267 | passes exactly when the registry reads as at the start, and then all that was checked is good in this snapshot |
| `DependencyValidation.Validator.Validate` | memory_vault_dependency.py:269-277 | while the registry stands still it passes exactly when the batch fits and everything it leads to passes and fits beside it; success means each record of the batch has a closure that is present, verified and trusted |
| `DependencyValidation.Validator.Persist` | memory_vault_dependency.py:279-290 | stores exactly the certificates of a finished validation, each true of the validated snapshot, and otherwise nothing |
| `DependencyValidation.TracedPath` | memory_vault_dependency.py:234-261 | along every path out of what was visited or checked each record is good, cycles and cached cut points included |
| `DependencyValidation.TraceDone` | memory_vault_dependency.py:234-261 | an exhausted worklist leaves everything visited with a good closure |
| `DependencyValidation.NoChangeBetween` | memory_vault_dependency.py:263-267 | equal readings of a registry that moves forward leave no room for a change between them |
| `Boundaries.CanOmit` | memory_vault_dependency.py:302-312 | a record is left out only as a published member under the same hash, and while the registry stands still exactly when its closure can be answered for; a refusal that names a record is true of something it reaches |
| `Boundaries.RefusalIsWeak` | memory_vault_dependency.py:205-225 | where registry and vault trust the same keys, a record refused as not admitted reaches one the vault does not show, and one refused as unsigned reaches one that is not verified |
| `Boundaries.StoredIsProven` | memory_vault.py:1372-1431 | in every store operations lead to each verified row holds its proof |
| `Boundaries.ValidatorIsSound` | memory_vault.py:3104-3121 | what delivery takes for granted of a boundary holds of every boundary whose refusals are the validator's |
| `Capsules.DependencyIndex.Publish` | memory_vault_dependency.py:108-138 | the head and member tables after a publication, or an unchanged index with the frontier or identity refusal |
| `Capsules.WithMembersMeans` | memory_vault_dependency.py:129-135 | recorded members are the earlier ones unchanged plus exactly the ids of the batch under their hashes |
| `Capsules.PublishedMembers` | memory_vault_dependency.py:129-135 | after a publication the members of the stream are the earlier ones and the ids of the batch |
| `Capsules.OmittingMembersIsClosed` | memory_vault_dependency.py:293-312 | a batch whose targets are in it or among the members is closed in its own hash chain when the members are |
| `Capsules.StaysInChain` | memory_vault_dependency.py:119-138 | members stay within the hash chain of the head exactly when the batch is chained, opens the index, repeats the head or carries every member again |
| `Capsules.PlainBatchesLeaveTheChain` | memory_vault_dependency.py:119-125 | two concrete unchained batches published in a row from an empty index, after which the members are not within the hash chain of the head |
| `StreamSync.FrontierNeverRefused` | memory_vault_dependency.py:119-128 | for its own stream the sender never meets the frontier refusal, whatever was lost or repeated |
| `StreamSync.BuiltIsHonest` | memory_vault_transfer.py:1034-1066 | a capsule built from a page that omits only members is closed in its own hash chain |
| `StreamSync.PublishKeeps` | memory_vault_transfer.py:983-1110 | publishing cut short after any durable write keeps outputs, head, pending file and index in step |
| `StreamSync.SenderKeeps` | memory_vault_transfer.py:983-1110 | building, publishing and losing the index keep that and never withdraw an output |
| `StreamSync.AdmitKeepsChains` | memory_vault_transfer.py:704-724 | taking in a batch whose predecessor is receipted leaves every receipt standing for a chain the vault holds |
| `StreamSync.ReceiveKeeps` | memory_vault_transfer.py:1113-1187 | every receive of any capsule, however cut short, keeps that |
| `StreamSync.ReceiveNeverDangles` | memory_vault.py:3259-3288 | a batch closed in its chain is never refused as dangling |
| `StreamSync.NeverDangles` | memory_vault.py:3259-3288 | commit finds no dangling relation when each target is stored or in the batch |
| `StreamSync.LinkRunKeeps` | memory_vault_transfer.py:451-470 | all of this in every state of every interleaving of publishing, index loss, receiving, local writes and crashes |
| `StreamSync.OmittedTargetsAreHeld` | memory_vault_dependency.py:293-312 | at every point of every run each shown batch is closed in its chain, its receipt means its chain is stored, and receiving it finds nothing dangling |
| `StreamProgress.RunRetains` | memory_vault_transfer.py:466-470 | in every state of every run each saved head is a retained batch of its own stream and the saved cursor is its cursor |
| `StreamProgress.ReceiveTakes` | memory_vault_transfer.py:1160-1187 | a completed receive of the next capsule succeeds exactly when the vault and the validator take its records, nothing it leaves out being missing; then the cursor and head are its own, it is retained and receipted, and its records are stored |
| `StreamProgress.ReceivedIsVerified` | memory_vault_transfer.py:704-724 | with proofs by keys trusted now every record of a received batch is shown as verified |
| `StreamProgress.RetryMoves` | memory_vault_transfer.py:1160-1187 | a receive cut short after the vault's commit is finished by the next one: the vault stays as it is and the cursor moves |
| `StreamProgress.HeadIsAcknowledged` | memory_vault_transfer.py:1144-1159 | the head offered again is acknowledged with nothing written |
| `StreamProgress.PublishMoves` | memory_vault_transfer.py:983-1110 | an uninterrupted publish shows the pending batch, records its members and makes it the head; only an id the stream carries under another hash stops it, after the batch has been shown |
| `StreamProgress.ShownIsTaken` | memory_vault_transfer.py:1113-1187 | in every state of every run a shown batch that comes next for the receiver is taken in exactly when the vault and the validator take its records, and moves the cursor |
| `CaptureRuns.CaptureJournal.Accept` | memory_vault_capture.py:357-432 | an exact retry returns the plan, a conflicting one is refused, limits hold, and an accepted plan extends its scope by one; refusals change nothing |
| `CaptureRuns.CaptureJournal.Save` | memory_vault_capture.py:435-442 | the plan becomes saved and loses its staged bodies; an unknown or unreadable one changes nothing |
| `CaptureRuns.CaptureJournal.Validate` | memory_vault_capture.py:445-494 | recovery validation passes exactly the states whose plans load, link to their predecessors, stay within limits and end at their heads |
| `CaptureRuns.FreezeKeeps` | memory_vault_capture.py:357-432 | accepting keeps the journal valid, and a retry does not touch it |
| `CaptureRuns.SavedKeeps` | memory_vault_capture.py:435-442 | saving keeps the journal valid |
| `CaptureRuns.RunsStayValid` | memory_vault_capture.py:445-494 | every interleaving of freezes and saves leaves a state that recovery validation passes |
| `CaptureRuns.ChainIsWhole` | memory_vault_capture.py:445-494 | each scope holds the sequences 1 to n once each, every plan naming the one before by job, continuity id and hash |
| `CaptureRuns.RetryReturnsPlan` | memory_vault_capture.py:376-386 | after any further run the same request returns the frozen plan whatever clock and builder now say, and a different one for the job is refused |
| `CaptureRuns.ClearedLoads` | memory_vault_capture.py:314-354 | a saved plan still loads without its bodies, with the same references |
| `CaptureAcceptance.FreezeTakes` | memory_vault_capture.py:357-432 | a new job is frozen exactly when there is room for it and the records the builder made for the next place in its scope are sound |
| `CaptureAcceptance.TwoRecordTurn` | memory_vault_capture.py:282-311 | of two records, in either order, the one with the continuity id is the continuity record, derives from the other and continues the predecessor, and the other is the episode; a turn plan accepts exactly those |
| `TurnRuns.StoresRunKeeps` | memory_vault_compat.py:942-997 | in every state of every run, with a crash possible between the vault commit and the control commit, both stores stay in step |
| `TurnRuns.SavedMeansStored` | memory_vault_compat.py:942-997 | a turn with a plan is pending or done, done exactly when the plan is saved, and then its records and a receipt for its own projection are in the vault |
| `TurnRuns.SavedIsPrefix` | memory_vault_compat.py:971-991 | along a session every plan before a saved one is saved |
| `TurnRuns.FlushNeverStuck` | memory_vault_compat.py:1126-1155 | whenever a turn is pending the flush query finds an eligible one, and the control checks do not stop it |
| `TurnRuns.PendingHasEligible` | memory_vault_compat.py:1141-1152 | going back along predecessors from a pending turn ends at an eligible one |
| `TurnRuns.EligibleIsReady` | memory_vault_compat.py:942-991 | an eligible turn passes every check of the control database |
| `TurnRuns.RetryNeverConflicts` | memory_vault_compat.py:880-917 | once the receipt is in the vault a retry succeeds without changing the vault, and makes the turn done, exactly when all its records and the one it continues are shown; otherwise it is held back as not admitted and nothing changes |
| `TurnRuns.DoneVerifies` | memory_vault_compat.py:1000-1029 | a turn that is done verifies against the vault exactly while all its records and the one it continues are shown, and is refused for nothing else |
| `TurnRuns.StoreFrozenKeeps` | memory_vault_compat.py:857-939 | a vault commit of a plan is a delivery transaction that files the receipt and holds every record |
| `TurnRuns.StoreFrozenAccepts` | memory_vault_compat.py:857-939 | a projection with no receipt yet is stored exactly when the record it continues is stored and shown and each of its records can be taken in turn |
| `TurnRuns.MaterializeKeeps` | memory_vault_compat.py:942-997 | materialising keeps both stores in step wherever it stops |
| `TurnRuns.SideStepKeeps` | memory_vault_compat.py:1260-1323 | opening, closing, input and abort never touch an accepted turn |
| `TurnRuns.AcceptKeeps` | memory_vault_compat.py:1324-1360 | accepting a turn adds one pending plan under its own receipt, or repeats the earlier answer |
| `TurnRuns.AddsFits` | memory_vault_compat.py:1344-1359 | the accepted turn and the plan frozen with it name each other |
| `TurnAcceptance.OnlyOpenAccepts` | memory_vault_compat.py:1324-1360 | outside an open session a commit changes nothing: it is refused or repeats the answer of an accepted turn |
| `TurnAcceptance.ClosedTakesNothing` | memory_vault_compat.py:1273-1290 | after a close no input is taken, staged turns are refused as aborted, and a commit changes nothing |
| `TurnAcceptance.StagedIsAccepted` | memory_vault_compat.py:1324-1360 | a staged turn of an open session with its own user text is accepted exactly when the budget allows the answer, the journal has room and its plan is sound |
| `TurnAcceptance.AcceptedIsAnswered` | memory_vault_compat.py:1324-1340 | an accepted turn answers the same texts again and refuses any others |
| `TurnAcceptance.FirstTurnIsAccepted` | memory_vault_compat.py:1344-1359 | a concrete first turn, accepted with its episode and continuity record |
| `HostBridges.HostBridge.StoreRecords` | memory_vault_compat.py:857-939 | the record loop and its receipt are one transaction, all or nothing; under a filed receipt it is a duplicate exactly while every record is shown |
| `HostBridges.HostBridge.Materialize` | memory_vault_compat.py:942-997 | one materialisation, complete or with the control commit lost; an eligible turn is never refused for its predecessor |
| `HostBridges.HostBridge.VerifySaved` | memory_vault_compat.py:1000-1029 | the check of a saved plan, reference by reference, then its projection, predecessor and receipt, with the first refusal |
| `HostBridges.HostBridge.Flush` | memory_vault_compat.py:1126-1162 | saves up to the limit, each one pending turn fewer; stops early only for the vault, at an eligible turn it refuses to store or answer, and without an error only when none is pending |
| `HostBridges.HostBridge.Commit` | memory_vault_compat.py:1324-1360 | a turn accepted under a new handle and receipt becomes pending with its plan in the journal under that receipt; a repeat or a refusal changes nothing; both stores stay in step |
| `HookRuns.HookDrain.Complete` | memory_vault_client.py:907-946 | vault commit, done file and mark: uncut, the plan is saved exactly when the vault takes its projection; whatever the point at which the process dies, what is left is a state that events of the run lead to, in step both as committed and as open, with nothing durable lost |
| `HookRuns.HookDrain.Drain` | memory_vault_client.py:949-989 | one journal transaction over completions, dying after any write: what is left is reached by events of the run; it ends refused only where the vault refuses the next plan; uncommitted, the journal is as before; committed, the target is saved exactly when nothing is reported pending, else as many plans as the limit allows were saved, and plans of no concern stay as they were |
| `HookRuns.HookDrain.FreezeCapture` | memory_vault_capture.py:357-432 | a capture frozen under the request derived from its job leaves a state that events lead to; a refusal changes nothing |
| `HookCapture.SaveProjectionKeeps` | memory_vault_client.py:503-597 | a saved projection holds every record and a receipt for exactly the frozen projection |
| `HookCapture.FiledProjection` | memory_vault_client.py:503-597 | a filed projection of two plain records is accepted again, with nothing stored, exactly while its records and the one it continues are shown |
| `HookCapture.NewProjection` | memory_vault_client.py:503-597 | a projection with no receipt yet is accepted exactly when it is a plain pair, the record it continues is shown and each of its records can be taken in turn |
| `HookCapture.RollbackKeeps` | memory_vault_client.py:949-989 | the older journal still fits what vault and done files have gained |
| `HookRuns.SavedIsFiled` | memory_vault_client.py:907-946 | in every state of every run, as committed and as open, a saved plan has its done file, its receipt under the frozen projection and its records |
| `HookRuns.SavedIsPrefix` | memory_vault_client.py:949-989 | in every state of every run, in either view, every plan of the scope before a saved one is saved |
| `HookRuns.HooksRunKeeps` | memory_vault_client.py:907-989 | freezes, projections, done files, marks, commits, lost journal transactions and other vault work, in any order the code allows, keep the journal as committed and as open in step with vault and done files |
| `HookRuns.NothingIsUndone` | memory_vault_client.py:907-989 | along every run records, receipts, done files, committed plans and their marks are never taken back |
| `HookCapture.FreezeKeepsHooks` | memory_vault_capture.py:357-432 | freezing an event under an unused request keeps all that |
| `FileCopy.Copier.Copy` | memory_vault_file_copy.py:166-267 | existing bytes are never changed; a destination that is no prefix of the source is left alone; undisturbed, a call succeeds exactly when destination and receipt both exist or neither does and the destination is a prefix of the source, and then copies exactly its budget or the rest; the journal stays behind a matching destination through any crash and complete means equal |
| `FileCopy.Copier.Open` | memory_vault_file_copy.py:166-239 | a crash tail is adopted only when it matches the source |
| `FileCopy.Copier.Pump` | memory_vault_file_copy.py:240-267 | the copy loop advances destination and journal chunk by chunk |
| `FileCopy.VerifyPrefix` | memory_vault_file_copy.py:136-145 | chunked comparison answers whether both files agree on the whole prefix |
| `FileCopy.Copier.Repeat` | memory_vault_file_copy.py:270-281 | from every state in which a call succeeds, repeating it makes the copy whole after exactly as many calls as the rest takes budgets |
| `FileCopy.StuckCopies` | memory_vault_file_copy.py:184-207 | two concrete crashes that no retry gets past: an empty destination without a receipt, and a torn first write |
| `FileCopy.CallsAreBounded` | memory_vault_file_copy.py:270-281 | that number of calls is at most the remaining bytes over the budget, and one |
| `ArtifactFetch.Fetcher.Fetch` | memory_vault_artifacts.py:196-296 | an output only ever appears with the promised content and is then left alone; own leftovers are never taken for a conflict; a window ends complete or with its budget used; undisturbed and from an honest remote it is refused only when a tail left to refetch is past the budget, and exactly then, or the chunk list is full; undisturbed, the phase falls back exactly when the call repeats a finished job and dies after its first durable write |
| `ArtifactFetch.Fetcher.Finish` | memory_vault_artifacts.py:176-193 | verify, publish, say so: whatever crash, the output is whole or absent; the phase falls back exactly when a finished job is repeated and dies after its first durable write |
| `ArtifactFetch.Fetcher.Reopen` | memory_vault_artifacts.py:239-272 | saved chunks are compared when the partial file changed, and a tail is kept only after the range was fetched again |
| `ArtifactFetch.Fetcher.Pump` | memory_vault_artifacts.py:273-291 | journal chunk sizes sum to the offset and their hashes match the prefix of the partial file at every step |
| `ArtifactFetch.FinishedJobFallsBack` | memory_vault_artifacts.py:176-193 | a concrete repeated finished download whose journal ends at verified |
| `Utf8.RoundTrip` | memory_vault_compat.py:619-629 | decoding undoes encoding, strictly and ignoring errors |
| `Utf8.DecodedIsEncoding` | memory_vault_compat.py:619-629 | whatever decodes strictly is the encoding of what it decodes to |
| `Utf8.SplitAt` | memory_vault_compat.py:619-629 | a byte that is no continuation byte splits whole characters |
| `Utf8.CutKeepsWhole` | memory_vault_agent.py:226-228 | a cut anywhere, ignoring errors, keeps the whole characters before it, as many as fit |
| `Utf8.Chunks` | memory_vault_compat.py:619-629 | terminates with non-empty valid pieces of at most 96 KiB that concatenate to the text |
| `Recall.RecallPage` | memory_vault_agent.py:211-261 | a page and its cursor make up exactly what was owed; at most four hits, at least one if anything is left, some text if the first record has any left; the page fits the result limit; refused as a bad cursor exactly when the first record is readable and the offset no boundary in it, as too big exactly when no tried fragment size fits; with every record readable it succeeds exactly otherwise |
| `Recall.Fit` | memory_vault_agent.py:224-256 | the halving loop offers a whole-character fragment that moves on and fits, or gives way to the hits before it; on a fresh page it gives up exactly when none of the tried sizes will do |
| `Recall.CursorsReadEverything` | memory_vault_agent.py:211-261 | following cursors reads each chosen text exactly once, in order and in full, in no more pages than there is to read |
| `Recall.FragmentIsWhole` | memory_vault_agent.py:226-228 | a fragment encodes to exactly the bytes from its offset to the next |
| `Recall.FragmentMoves` | memory_vault_agent.py:226-232 | a fragment is empty exactly when the next character needs more bytes than it has |
| `DeviceTrust.FromValue` | memory_vault_device_trust.py:136-194 | accepts exactly the fitting values, and what it builds serializes back to them |
| `DeviceTrust.RoundTrips` | memory_vault_device_trust.py:115-194 | the serialized form of a valid state is accepted and stands for that state alone |
| `DeviceTrust.ApplyKeeps` | memory_vault_device_trust.py:273-338 | an accepted transition keeps the validator invariant, advances the generation by one and changes the entries as asked, sorting included |
| `DeviceTrust.ApplyMeans` | memory_vault_device_trust.py:273-338 | a transition is accepted exactly when it is the approved next one of this state and its change may be made; enrolling lets exactly that device publish under its key, revoking stops exactly it, rotating keeps the same devices under the next epoch, and a threshold changes nothing else |
| `DeviceTrust.RunStaysValid` | memory_vault_device_trust.py:225-338 | every state reachable from bootstrap is one the validator accepts, at the generation that counts its transitions |
| `DeviceTrust.RevokedForever` | memory_vault_device_trust.py:273-387 | a revoked device keeps its entry with epoch and generation frozen and can publish under no epoch, ever |
| `DeviceTrust.ActiveMayPublish` | memory_vault_device_trust.py:380-387 | in every reachable state exactly the active devices may publish, and only under the current epoch |
| `ReplicationChain.VerifyCatalog` | memory_vault_encrypted_replication.py:287-405 | passes exactly the catalogs that fit the trust state, the last head, the entry bounds and the path rules |
| `ReplicationChain.VerifyEntries` | memory_vault_encrypted_replication.py:350-384 | stopping at the first bad entry or total accepts exactly the lists that fit as a whole |
| `ReplicationChain.DistinctPaths` | memory_vault_encrypted_replication.py:141-149 | no two folded paths alike and none the parent of another |
| `ReplicationChain.ReplicationReceiver.Accept` | memory_vault_encrypted_replication.py:426-490 | the head advances to the accepted catalog, after everything is in place, or not at all; accepted catalogs stay one hash chain |
| `ReplicationChain.SameHeadSameHistory` | memory_vault_encrypted_replication.py:338-346 | receivers with the same head have accepted the same catalogs |
| `ReplicationChain.GenerationsRise` | memory_vault_encrypted_replication.py:338-346 | generations rise strictly along what one receiver accepted |
| `Experience.NormalizeTwice` | memory_vault_experience.py:23-70 | normalising is idempotent |
| `Experience.NothingToInherit` | memory_vault_experience.py:73-102 | every native derived-from target of an encoded record is already a typed lineage edge |
| `Experience.DecodeEncoded` | memory_vault_experience.py:84-123 | decoding a record built from an encoding returns exactly the normalised metadata and the replaced source, an unknown type set aside as declared |
| `Experience.DecodeMeans` | memory_vault_experience.py:104-123 | decoding recognises exactly the records that are well formed, with at most 16 references, evidence items, declared and inherited relations, and relations once references became lineage, within the size limit; and gives their reading, an unknown type set aside as declared |
| `Experience.EncodedIsReadable` | memory_vault_experience.py:84-102 | what encode accepts always meets that condition |
| `Experience.ObservationWithTooMuchLineage` | memory_vault_experience.py:33-54 | an observation beside 17 or more native lineage relations is read as unspecified and unrecognised |
| `Experience.ObservationWithLineage` | memory_vault_experience.py:23-123 | an observation with lineage and no claim of its own is read as hearsay, with a claim or without lineage as an observation, exactly when its record is readable, and as unspecified otherwise |

## Left out

- SQLite connections, journal modes, schema upgrades, file permissions, links and locks: only atomic commit, rollback and crash remain.
- Cryptography, canonical JSON and field-by-field JSON shape checks: predicates, or fields already decoded.
- Deadlines and clock reads: no operation of the model fails by time.
- Delivery.Changes: the order of the records inside a page and the ids of the store are not modelled.
- DeliveryWalks.RootIsWhole: beside a boundary, a closure of exactly as many records as the page has room for may be cut off before the last record the boundary omits, depending on the order of the walk; the lemma asks for a record to spare there.
- VaultTransactions.Vault.IngestRecords: the displayed result of a call is not modelled beyond the stored receipt; request receipts of remember and requeue calls are left out.
- Ranking.RankScoreV2: the display components beside the total and tokenization are left out; the version 1 scorer is there as the formula over the reals, without its floating-point rounding.
- ExpAccuracy.ExpIsExponential: the exponential is any function with the stated properties; that there is one is analysis the project does not contain. ExpOfSmall, ExpOfDouble and ExpFalls need none.
- Lineage.Summarize: the evidence counts and independent-source tallies are left out.
- BoundedGraphs.GraphRows: under truncation the row order of the database decides what is kept; the model allows any order.
- Capsules.DependencyIndex.Publish: identifiers conflict by record hash only; the index file, its binding and size limit are left out.
- StreamSync.ReceiveKeeps: fragment groups, publication reviews, peer limits and recovery imports that name no previous batch are left out.
- StreamSync.PublishKeeps: the started marker and the frozen-batch recheck before output are left out; a refused identity conflict leaves the pending capsule in place.
- CaptureRuns.CaptureJournal.Validate: rows that belong to no job cannot be written down in the model, which keeps each job with its records.
- CapturePlans: the text of hook fragments and its rebuild are left out; the shape of the pair, its edges and its digest are checked.
- TurnRuns.StoresRunKeeps: host request receipts, evidence text, turns of the first control schema (which have no plan) and the flush query's order among eligible turns are left out.
- HookRuns.HookDrain.Drain: outbox, prompt and conflict files and the binding of supplements to an earlier fragment are left out.
- HookRuns.HooksRunKeeps: a request id derived from a hook job is taken to be used for that job alone, as the code derives it; nothing else in the vault's receipt table is constrained.
- FileCopy.Copier.Copy: files are stable during a call; changes by others fall between calls.
- ArtifactFetch.Fetcher.Fetch: remote metadata is reduced to its version, publishing is one atomic step, and the journal's size limit is left out.
- Recall.RecallPage: choosing the records (query, handoff, received batch) and the encoded cursor text are left out; the result limit is a predicate on the page.
- DeviceTrust.ApplyKeeps: the authority's proof is a verdict; fingerprint format checks are done before the model.
- ReplicationChain.ReplicationReceiver.Accept: envelope reading and byte copying are one verdict; path safety checks are done before the model.
- Experience.DecodeEncoded: unknown metadata fields are one opaque value, size limits are predicates.
- Network clients, credential storage, encryption framing, host lifecycle plumbing, backup packaging, catalogs of artifacts, servers and command lines: input, output and single-branch checks that would add only easy members.
