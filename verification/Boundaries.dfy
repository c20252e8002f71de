/** The boundary a signed delivery runs with: what it omits and refuses comes from the validator,
    and means for the page what delivery takes it to mean. */
module Boundaries {
  import opened Wrappers
  import opened Graphs
  import opened VaultStore
  import opened DependencyEpoch
  import opened DependencyDemand
  import opened DependencyValidation
  import AdmittedProofs
  import Delivery
  import opened DeliveryRuns

  /** can_omit: a published member may be left out once its closure validates; while the registry
      stands still that is exactly when the closure can be answered for. */
  method CanOmit(v: Validator, usable: bool, members: map<Id, nat>, record: Record) returns (r: Result<bool>)
    requires v.Valid() && !v.complete
    modifies v
    ensures v.Valid() && !v.complete
    ensures r == Success(true) ==>
              usable && record.id in members && members[record.id] == record.sha && record.id in v.checked
    ensures r == Success(false) <==> !usable || record.id !in members
    ensures usable && record.id in members && members[record.id] != record.sha ==>
              r == Failure(DependencyFrontierIdentityConflict)
    ensures r.Failure? && Speaks(r.error) && v.Steady() ==> SomeUnfit(v.db, v.registry, v.ranks, [record.id], r.error)
    ensures usable && record.id in members && members[record.id] == record.sha && v.Steady() ==>
              (r == Success(true) <==>
                 Satisfied(Demand(v.db, v.registry, v.ranks, v.HitSet(), old(v.checked), [record.id], old(v.Held()))))
  {
    if !usable || record.id !in members {
      return Success(false);
    }
    if members[record.id] != record.sha {
      return Failure(DependencyFrontierIdentityConflict);
    }
    var required := v.Require([record.id]);
    assert record.id in [record.id];
    r := if required.Failure? then Failure(required.error) else Success(true);
  }

  /** The validator reads the tables of the vault's own snapshot, and the registry trusts the keys
      the vault trusts. */
  predicate Agrees(s: Store, trusted: Trust, d: Db, r: Registry) {
    && d.memories == s.records && d.rows == s.rows
    && forall id :: id in s.rows && s.rows[id].signer.Some? ==>
         (s.rows[id].signer.value in r.trusted <==> trusted(s.rows[id].signer.value))
  }

  /** Every verified row holds its proof. */
  predicate Proven(s: Store) {
    forall id :: id in s.rows && s.rows[id].state == Verified ==> s.rows[id].proof.Some?
  }

  /** In every store that operations lead to that is so. */
  lemma StoredIsProven(run: seq<Store>, trusted: Trust, allowed: Allowed, i: nat)
    requires AdmittedProofs.OfferedRun(run, trusted, allowed) && i < |run|
    ensures Proven(run[i])
  {
    AdmittedProofs.OfferedRunKeeps(run, trusted, allowed, i);
  }

  function ReasonFor(e: Error): Option<Delivery.Reason> {
    match e
    case DependencyNotAdmitted => Some(Delivery.NotAdmitted)
    case UnsignedDependency => Some(Delivery.Unsigned)
    case DependencyRevalidationRequired => Some(Delivery.RevalidationRequired)
    case _ => None
  }

  /** Each refusal the boundary passes on is one of the validator's. */
  ghost predicate FromValidator(d: Db, r: Registry, trusted: Trust, b: Delivery.Boundary) {
    forall id :: id in b.refused ==>
      exists e :: ReasonFor(e) == Some(b.refused[id]) && (Speaks(e) ==> SomeUnfit(d, r, trusted, [id], e))
  }

  lemma SameGraphs(s: Store, d: Db)
    requires d.memories == s.records
    ensures DependencyGraph(d) == RelationGraph(s)
  {
  }

  /** A validator's refusal of an id names something weak in its closure. */
  lemma RefusalIsWeak(s: Store, trusted: Trust, d: Db, r: Registry, id: Id, e: Error)
    requires Valid(s) && Proven(s) && Agrees(s, trusted, d, r) && SomeUnfit(d, r, trusted, [id], e)
    ensures e == DependencyNotAdmitted ==> Delivery.Weak(s, trusted, id, 1)
    ensures e == UnsignedDependency ==> Delivery.Weak(s, trusted, id, 2)
  {
    SameGraphs(s, d);
    var x :| Asked(d, [id], x) && Unfit(d, r, trusted, x, e);
    hide Reach, RelationGraph, DependencyGraph;
  }

  /** What delivery assumes of a boundary's refusals holds of every boundary run by the validator. */
  lemma ValidatorIsSound(s: Store, trusted: Trust, d: Db, r: Registry, q: Delivery.Request)
    requires Valid(s) && Proven(s) && Agrees(s, trusted, d, r) && q.requireVerified
    requires q.boundary.Some? ==> FromValidator(d, r, trusted, q.boundary.value)
    ensures Delivery.SoundRequest(s, trusted, q)
  {
    hide SomeUnfit, Delivery.Weak, Valid, Proven, Agrees;
    if q.boundary.Some? {
      var b := q.boundary.value;
      forall id | id in b.refused
        ensures match b.refused[id]
          case NotAdmitted => Delivery.Weak(s, trusted, id, 1)
          case Unsigned => Delivery.Weak(s, trusted, id, 2)
          case BudgetExceeded => false
          case RevalidationRequired => true
      {
        var e :| ReasonFor(e) == Some(b.refused[id]) && (Speaks(e) ==> SomeUnfit(d, r, trusted, [id], e));
        if Speaks(e) {
          RefusalIsWeak(s, trusted, d, r, id, e);
        }
      }
    }
  }
}
