/** The experience-v1 codec: claims about how a memory was come by, carried in the record's
    source reference and projected onto its native relations. */
module Experience {
  import opened Wrappers
  import opened Sorting

  type Id = nat

  /** A relation name, numbered in text order. */
  type Name = nat

  const APPLIES_TO: Name := 10
  const CONTRADICTS: Name := 20
  const DERIVED_FROM: Name := 30
  const FAILS_UNDER: Name := 40
  const HEARD_FROM: Name := 50
  const INDEPENDENTLY_CONFIRMS: Name := 60
  const PROPOSES_SUPERSESSION: Name := 70
  const RELATED_TO: Name := 80
  const SUMMARIZES: Name := 90

  const RELATIONS: set<Name> := {HEARD_FROM, DERIVED_FROM, INDEPENDENTLY_CONFIRMS, CONTRADICTS, SUMMARIZES, APPLIES_TO,
                                 FAILS_UNDER, PROPOSES_SUPERSESSION}
  const LINEAGE: set<Name> := {HEARD_FROM, DERIVED_FROM, SUMMARIZES}
  const CLAIMS: set<Name> := {INDEPENDENTLY_CONFIRMS, CONTRADICTS}

  const MAX_ITEMS: nat := 16

  datatype Kind = Observation | Experiment | Inference | Hearsay | Speculation | Summary | ExternalSource | Unspecified
    | OtherKind(name: nat)

  datatype Edge = Edge(name: Name, target: Id)

  /** A decoded JSON object: a field that is absent is None; whole says each present field
      has the right shape; extra stands for every unknown field. */
  datatype Metadata = Metadata(kind: Option<Kind>, refs: Option<seq<Id>>, evidence: Option<seq<nat>>,
                               relations: Option<seq<Edge>>, extra: nat, whole: bool)

  /** Whether the canonical bytes stay within the size limit. */
  type Fits = Metadata -> bool

  function Listed<T>(o: Option<seq<T>>): seq<T> {
    if o.Some? then o.value else []
  }

  function AsSet<T(==)>(s: seq<T>): set<T> {
    set x | x in s
  }

  // ----- sorting -----

  function Least(edges: set<Edge>): (e: Edge)
    requires edges != {}
    ensures e in edges
    ensures forall f :: f in edges ==> e.name < f.name || (e.name == f.name && e.target <= f.target)
  {
    var x: Edge :| x in edges;
    var names := set e | e in edges :: e.name;
    assert x.name in names;
    var name := MinOf(names);
    var targets := set e | e in edges && e.name == name :: e.target;
    assert forall f :: f in edges ==> f.name in names;
    assert targets != {} by {
      var y: Edge :| y in edges && y.name == name;
      assert y.target in targets;
    }
    assert forall f :: f in edges && f.name == name ==> f.target in targets;
    Edge(name, MinOf(targets))
  }

  function SortedEdges(edges: set<Edge>): (s: seq<Edge>)
    ensures AsSet(s) == edges && |s| == |edges|
    decreases |edges|
  {
    if edges == {} then []
    else
      var e := Least(edges);
      var rest := SortedEdges(edges - {e});
      assert edges == edges - {e} + {e};
      assert forall x :: x in [e] + rest <==> x == e || x in rest;
      [e] + rest
  }

  function SortedSet(s: seq<nat>): (r: seq<nat>)
    ensures AsSet(r) == AsSet(s) && |r| == |AsSet(s)|
  {
    SetToSorted(AsSet(s))
  }

  // ----- normalising -----

  function KindOf(m: Metadata): Kind {
    if m.kind.Some? then m.kind.value else Unspecified
  }

  predicate HasClaim(pairs: set<Edge>) {
    exists e :: e in pairs && e.name in CLAIMS
  }

  predicate HasLineage(pairs: set<Edge>) {
    exists e :: e in pairs && e.name in LINEAGE
  }

  predicate Independent(kind: Kind, pairs: set<Edge>) {
    (kind == Observation || kind == Experiment) && HasClaim(pairs)
  }

  /** An observation that only points at others is hearsay. */
  function Settled(kind: Kind, refs: seq<Id>, pairs: set<Edge>): Kind {
    if kind == Observation && !Independent(kind, pairs) && (refs != [] || HasLineage(pairs)) then Hearsay else kind
  }

  function RefName(kind: Kind): Name {
    if kind == Hearsay then HEARD_FROM else if kind == Summary then SUMMARIZES else DERIVED_FROM
  }

  /** A retelling turns its source references into lineage. */
  function WithRefs(kind: Kind, settled: Kind, refs: seq<Id>, pairs: set<Edge>): set<Edge> {
    if !Independent(kind, pairs) || settled == Hearsay then pairs + (set t | t in refs :: Edge(RefName(settled), t))
    else pairs
  }

  function Normalize(m: Metadata, fits: Fits): Result<Metadata> {
    var refs, pairs := Listed(m.refs), AsSet(Listed(m.relations));
    var settled := Settled(KindOf(m), refs, pairs);
    var all := WithRefs(KindOf(m), settled, refs, pairs);
    if !m.whole || |refs| > MAX_ITEMS || |Listed(m.evidence)| > MAX_ITEMS || |Listed(m.relations)| > MAX_ITEMS then
      Failure(InvalidExperience)
    else if |all| > MAX_ITEMS then Failure(InvalidExperience)
    else
      var n := Metadata(Some(settled), if m.refs.Some? then Some(SortedSet(refs)) else None,
                        if m.evidence.Some? then Some(SortedSet(Listed(m.evidence))) else None,
                        if all != {} || m.relations.Some? then Some(SortedEdges(all)) else None, m.extra, true);
      if fits(n) then Success(n) else Failure(ExperienceTooLarge)
  }

  // ----- native relations -----

  function LineageTargets(edges: seq<Edge>): (targets: set<Id>)
    ensures forall t :: t in targets <==> exists e :: e in edges && e.name in LINEAGE && e.target == t
  {
    set e | e in edges && e.name in LINEAGE :: e.target
  }

  /** Native derived-from edges whose target no typed lineage edge names. */
  function Native(edges: seq<Edge>, known: set<Id>): (native: seq<Edge>)
    ensures forall e :: e in native <==> e in edges && e.name == DERIVED_FROM && e.target !in known
  {
    if edges == [] then []
    else
      var e := edges[|edges| - 1];
      assert edges == edges[..|edges| - 1] + [e];
      Native(edges[..|edges| - 1], known) + if e.name == DERIVED_FROM && e.target !in known then [e] else []
  }

  /** _inherit_native */
  function InheritNative(m: Metadata, relations: seq<Edge>): Metadata {
    var native := Native(relations, LineageTargets(Listed(m.relations)));
    if native == [] then m else m.(relations := Some(Listed(m.relations) + native))
  }

  // ----- the codec -----

  datatype Wrapper = Wrapper(metadata: Metadata, source: Option<nat>)

  /** A record's source reference: none, a text without the prefix, an encoded wrapper, or the
      prefix over something that does not decode. */
  datatype SourceRef = NoRef | Plain(text: nat) | Encoded(wrapper: Wrapper) | Garbled

  datatype Carrier = Carrier(source: SourceRef, relations: seq<Edge>)

  function ProjectedName(name: Name): Name {
    if name in LINEAGE then DERIVED_FROM else RELATED_TO
  }

  function Projected(m: Metadata, relations: seq<Edge>): set<Edge> {
    AsSet(relations)
    + (set e | e in Listed(m.relations) && e.name in RELATIONS :: Edge(ProjectedName(e.name), e.target))
    + (set t | t in Listed(m.refs) :: Edge(RELATED_TO, t))
  }

  /** encode: the source reference and relations of the record to build. */
  function Encode(value: Metadata, source: SourceRef, relations: seq<Edge>, fits: Fits,
                  room: Wrapper -> bool): Result<Carrier> {
    match Normalize(InheritNative(value, relations), fits)
    case Failure(e) => Failure(e)
    case Success(m) =>
      if source.Encoded? || source.Garbled? then Failure(AmbiguousExperienceSource)
      else
        var w := Wrapper(m, if source.Plain? then Some(source.text) else None);
        if !room(w) then Failure(ExperienceTooLarge)
        else Success(Carrier(Encoded(w), SortedEdges(Projected(m, relations))))
  }

  /** What a reader is told: the metadata, the type it declared if unknown, the source it
      replaced, and whether it was recognised. */
  datatype Decoded = Decoded(metadata: Metadata, declared: Option<Kind>, original: Option<nat>, recognized: bool)

  function Unknown(relations: seq<Edge>, recognized: bool): Decoded {
    var inherited := Native(relations, {});
    Decoded(Metadata(Some(Unspecified), None, None, if inherited == [] then None else Some(inherited), 0, true), None,
            None, recognized)
  }

  function Decode(r: Carrier, fits: Fits): Decoded {
    match r.source
    case NoRef => Unknown(r.relations, true)
    case Plain(_) => Unknown(r.relations, true)
    case Garbled => Unknown(r.relations, false)
    case Encoded(w) =>
      match Normalize(InheritNative(w.metadata, r.relations), fits)
      case Failure(_) => Unknown(r.relations, false)
      case Success(m) =>
        if KindOf(m).OtherKind? then Decoded(m.(kind := Some(Unspecified)), m.kind, w.source, true)
        else Decoded(m, None, w.source, true)
  }

  // ----- normalising again changes nothing -----

  lemma SettledAgain(kind: Kind, refs: seq<Id>, again: seq<Id>, pairs: set<Edge>)
    requires AsSet(again) == AsSet(refs)
    ensures var settled := Settled(kind, refs, pairs);
      var all := WithRefs(kind, settled, refs, pairs);
      && Settled(settled, again, all) == settled
      && WithRefs(settled, Settled(settled, again, all), again, all) == all
  {
    var settled := Settled(kind, refs, pairs);
    var all := WithRefs(kind, settled, refs, pairs);
    assert forall t :: t in again <==> t in refs by {
      assert forall t :: t in again <==> t in AsSet(again);
      assert forall t :: t in refs <==> t in AsSet(refs);
    }
    ClaimsStay(kind, settled, refs, pairs);
    if again != [] {
      assert again[0] in refs;
    }
    if refs != [] {
      assert refs[0] in again;
    }
    if settled == Observation && !Independent(kind, pairs) {
      assert refs == [] && again == [];
    }
  }

  /** References become lineage, never claims. */
  lemma ClaimsStay(kind: Kind, settled: Kind, refs: seq<Id>, pairs: set<Edge>)
    ensures HasClaim(WithRefs(kind, settled, refs, pairs)) == HasClaim(pairs)
    ensures refs == [] ==> WithRefs(kind, settled, refs, pairs) == pairs
  {
  }

  lemma SortedAgain(s: seq<nat>)
    ensures SortedSet(SortedSet(s)) == SortedSet(s)
  {
  }

  lemma {:induction false} FewerDistinct<T>(s: seq<T>)
    ensures |AsSet(s)| <= |s|
  {
    if s != [] {
      var init, last := s[..|s| - 1], s[|s| - 1];
      FewerDistinct(init);
      assert AsSet(s) == AsSet(init) + {last};
    }
  }

  /** normalize is idempotent. */
  lemma NormalizeTwice(m: Metadata, fits: Fits)
    requires Normalize(m, fits).Success?
    ensures Normalize(Normalize(m, fits).value, fits) == Normalize(m, fits)
  {
    var n := Normalize(m, fits).value;
    var refs, pairs := Listed(m.refs), AsSet(Listed(m.relations));
    var settled := Settled(KindOf(m), refs, pairs);
    var all := WithRefs(KindOf(m), settled, refs, pairs);
    SortedAgain(refs);
    SortedAgain(Listed(m.evidence));
    FewerDistinct(refs);
    FewerDistinct(Listed(m.evidence));
    assert AsSet(Listed(n.refs)) == AsSet(refs);
    SettledAgain(KindOf(m), refs, Listed(n.refs), pairs);
    hide Settled, WithRefs, SortedEdges, SortedSet;
    assert AsSet(Listed(n.relations)) == all;
  }

  // ----- decoding what was encoded -----

  /** Every native derived-from edge of an encoded record is already a typed lineage edge. */
  lemma NothingToInherit(value: Metadata, relations: seq<Edge>, fits: Fits)
    requires Normalize(InheritNative(value, relations), fits).Success?
    ensures var m := Normalize(InheritNative(value, relations), fits).value;
      InheritNative(m, SortedEdges(Projected(m, relations))) == m
  {
    var v := InheritNative(value, relations);
    var m := Normalize(v, fits).value;
    var known := LineageTargets(Listed(m.relations));
    var projected := Projected(m, relations);
    EdgesKept(v, fits);
    forall e | e in projected && e.name == DERIVED_FROM
      ensures e.target in known
    {
      if e in AsSet(relations) {
        InheritedIsTyped(value, relations, e);
      }
    }
    assert forall e :: e in SortedEdges(projected) ==> e in AsSet(SortedEdges(projected));
    NothingNative(SortedEdges(projected), known);
  }

  lemma {:induction false} NothingNative(edges: seq<Edge>, known: set<Id>)
    requires forall e :: e in edges && e.name == DERIVED_FROM ==> e.target in known
    ensures Native(edges, known) == []
  {
    if edges != [] {
      NothingNative(edges[..|edges| - 1], known);
    }
  }

  lemma EdgesKept(v: Metadata, fits: Fits)
    requires Normalize(v, fits).Success?
    ensures forall e :: e in Listed(v.relations) ==> e in Listed(Normalize(v, fits).value.relations)
  {
    var m := Normalize(v, fits).value;
    var pairs := AsSet(Listed(v.relations));
    var all := WithRefs(KindOf(v), Settled(KindOf(v), Listed(v.refs), pairs), Listed(v.refs), pairs);
    assert pairs <= all;
    hide WithRefs, Settled, SortedEdges;
    assert AsSet(Listed(m.relations)) == all;
    assert forall e :: e in Listed(v.relations) ==> e in pairs;
    assert forall e :: e in AsSet(Listed(m.relations)) ==> e in Listed(m.relations);
  }

  lemma InheritedIsTyped(value: Metadata, relations: seq<Edge>, e: Edge)
    requires e in relations && e.name == DERIVED_FROM
    ensures e.target in LineageTargets(Listed(InheritNative(value, relations).relations))
  {
    var known := LineageTargets(Listed(value.relations));
    var native := Native(relations, known);
    if e.target !in known {
      assert e in native;
      assert e in Listed(value.relations) + native;
    } else if native != [] {
      var f :| f in Listed(value.relations) && f.name in LINEAGE && f.target == e.target;
      assert f in Listed(value.relations) + native;
    }
  }

  /** A record built from encode's output decodes to exactly the normalised metadata and the
      source it replaced; only a type nobody knows is set aside as declared. */
  lemma DecodeEncoded(value: Metadata, source: SourceRef, relations: seq<Edge>, fits: Fits, room: Wrapper -> bool)
    requires Encode(value, source, relations, fits, room).Success?
    ensures Normalize(InheritNative(value, relations), fits).Success?
    ensures var m := Normalize(InheritNative(value, relations), fits).value;
      var d := Decode(Encode(value, source, relations, fits, room).value, fits);
      && d.recognized && d.original == (if source.Plain? then Some(source.text) else None)
      && (!KindOf(m).OtherKind? ==> d.metadata == m && d.declared.None?)
      && (KindOf(m).OtherKind? ==> d.metadata == m.(kind := Some(Unspecified)) && d.declared == m.kind)
  {
    hide Normalize, InheritNative, Projected, SortedEdges;
    NothingToInherit(value, relations, fits);
    NormalizeTwice(InheritNative(value, relations), fits);
  }

  // ----- hearsay -----

  /** Something in the record says where the observation came from. */
  ghost predicate Told(m: Metadata, relations: seq<Edge>) {
    || Listed(m.refs) != []
    || (exists e :: e in Listed(m.relations) && e.name in LINEAGE)
    || (exists e :: e in relations && e.name == DERIVED_FROM)
  }

  ghost predicate Claims(m: Metadata) {
    exists e :: e in Listed(m.relations) && e.name in CLAIMS
  }

  // ----- what decoding means, from the record alone -----

  /** The relation a source reference becomes, by the declared type. */
  function RetoldAs(kind: Kind): Name {
    if kind == Observation || kind == Hearsay then HEARD_FROM
    else if kind == Summary then SUMMARIZES
    else DERIVED_FROM
  }

  /** Every typed relation a reader ends up with: the declared ones, the native ones no declared
      lineage names, and the source references, unless the record makes a claim of its own. */
  ghost function Retold(m: Metadata, relations: seq<Edge>): set<Edge> {
    AsSet(Listed(m.relations)) + AsSet(Native(relations, LineageTargets(Listed(m.relations))))
    + if KindOf(m) in {Observation, Experiment} && Claims(m) then {}
      else set t | t in Listed(m.refs) :: Edge(RetoldAs(KindOf(m)), t)
  }

  ghost function Reading(m: Metadata, relations: seq<Edge>): Metadata {
    Metadata(Some(if KindOf(m) == Observation && Told(m, relations) && !Claims(m) then Hearsay else KindOf(m)),
             if m.refs.Some? then Some(SortedSet(m.refs.value)) else None,
             if m.evidence.Some? then Some(SortedSet(m.evidence.value)) else None,
             if m.relations.Some? || Retold(m, relations) != {} then Some(SortedEdges(Retold(m, relations))) else None,
             m.extra, true)
  }

  /** Well formed, within the limit on each list, with its native lineage, and within the size limit. */
  ghost predicate Readable(m: Metadata, relations: seq<Edge>, fits: Fits) {
    && m.whole && |Listed(m.refs)| <= MAX_ITEMS && |Listed(m.evidence)| <= MAX_ITEMS
    && |Listed(m.relations)| + |Native(relations, LineageTargets(Listed(m.relations)))| <= MAX_ITEMS
    && |Retold(m, relations)| <= MAX_ITEMS && fits(Reading(m, relations))
  }

  lemma InheritedEdges(m: Metadata, relations: seq<Edge>)
    ensures var native := Native(relations, LineageTargets(Listed(m.relations)));
      var v := InheritNative(m, relations);
      && Listed(v.relations) == Listed(m.relations) + native
      && AsSet(Listed(v.relations)) == AsSet(Listed(m.relations)) + AsSet(native)
      && (v.relations.Some? <==> m.relations.Some? || native != [])
      && v == m.(relations := v.relations)
  {
    var native := Native(relations, LineageTargets(Listed(m.relations)));
    assert forall e :: e in Listed(m.relations) + native <==> e in Listed(m.relations) || e in native;
    if native == [] {
      assert Listed(m.relations) + native == Listed(m.relations);
    }
  }

  lemma ClaimsAndTold(m: Metadata, relations: seq<Edge>)
    ensures var pairs := AsSet(Listed(InheritNative(m, relations).relations));
      && HasClaim(pairs) == Claims(m)
      && (HasLineage(pairs) || Listed(m.refs) != []) == Told(m, relations)
  {
    var v := InheritNative(m, relations);
    var pairs := AsSet(Listed(v.relations));
    var native := Native(relations, LineageTargets(Listed(m.relations)));
    InheritedEdges(m, relations);
    assert forall e :: e in pairs <==> e in Listed(m.relations) || e in native;
    if e :| e in relations && e.name == DERIVED_FROM {
      InheritedIsTyped(m, relations, e);
      var f :| f in Listed(v.relations) && f.name in LINEAGE && f.target == e.target;
      assert f in pairs;
    }
  }

  lemma RetoldIsAll(m: Metadata, relations: seq<Edge>)
    ensures var v := InheritNative(m, relations);
      var pairs := AsSet(Listed(v.relations));
      var settled := Settled(KindOf(m), Listed(m.refs), pairs);
      && WithRefs(KindOf(m), settled, Listed(m.refs), pairs) == Retold(m, relations)
      && settled == Reading(m, relations).kind.value
  {
    InheritedEdges(m, relations);
    ClaimsAndTold(m, relations);
    hide InheritNative, Native, LineageTargets, HasClaim, HasLineage, Claims, Told;
  }

  /** Decoding recognises exactly the readable records, and of those gives their reading. */
  lemma DecodeMeans(r: Carrier, fits: Fits)
    requires r.source.Encoded?
    ensures var m := r.source.wrapper.metadata;
      var d := Decode(r, fits);
      && (d.recognized <==> Readable(m, r.relations, fits))
      && (!d.recognized ==> d == Unknown(r.relations, false))
      && (d.recognized ==>
            d == if KindOf(m).OtherKind?
                 then Decoded(Reading(m, r.relations).(kind := Some(Unspecified)), Some(KindOf(m)),
                              r.source.wrapper.source, true)
                 else Decoded(Reading(m, r.relations), None, r.source.wrapper.source, true))
  {
    var m := r.source.wrapper.metadata;
    InheritedEdges(m, r.relations);
    RetoldIsAll(m, r.relations);
    NormalizeMeans(m, r.relations, fits);
    hide InheritNative, Native, Normalize, Readable, Retold, Told, Claims;
  }

  lemma SomethingInherited(m: Metadata, relations: seq<Edge>)
    ensures Native(relations, LineageTargets(Listed(m.relations))) != [] ==> Retold(m, relations) != {}
  {
    var native := Native(relations, LineageTargets(Listed(m.relations)));
    if native != [] {
      assert native[0] in Retold(m, relations);
    }
  }

  lemma NormalizeMeans(m: Metadata, relations: seq<Edge>, fits: Fits)
    ensures Normalize(InheritNative(m, relations), fits).Success? <==> Readable(m, relations, fits)
    ensures Readable(m, relations, fits) ==>
              Normalize(InheritNative(m, relations), fits) == Success(Reading(m, relations))
  {
    InheritedEdges(m, relations);
    RetoldIsAll(m, relations);
    SomethingInherited(m, relations);
    hide InheritNative, Native, LineageTargets, Told, Claims, Settled, WithRefs, SortedEdges, SortedSet, Retold;
  }

  /** What encode accepts is always readable. */
  lemma EncodedIsReadable(value: Metadata, source: SourceRef, relations: seq<Edge>, fits: Fits, room: Wrapper -> bool)
    requires Encode(value, source, relations, fits, room).Success?
    ensures var c := Encode(value, source, relations, fits, room).value;
      c.source.Encoded? && Readable(c.source.wrapper.metadata, c.relations, fits)
  {
    DecodeEncoded(value, source, relations, fits, room);
    hide Decode, Normalize, InheritNative, Projected, SortedEdges, Readable;
    DecodeMeans(Encode(value, source, relations, fits, room).value, fits);
  }

  /** A declared observation with lineage and no claim of its own is read as hearsay, with a claim
      or without lineage as the observation it says it is, exactly when it is readable; when it is
      not, its type is unspecified. */
  lemma ObservationWithLineage(r: Carrier, fits: Fits)
    requires r.source.Encoded? && r.source.wrapper.metadata.kind == Some(Observation)
    ensures var m := r.source.wrapper.metadata;
      KindOf(Decode(r, fits).metadata)
      == if !Readable(m, r.relations, fits) then Unspecified
         else if Told(m, r.relations) && !Claims(m) then Hearsay
         else Observation
  {
    hide Readable, Decode, Retold, Told, Claims;
    DecodeMeans(r, fits);
  }

  lemma UnknownIsUnspecified(relations: seq<Edge>)
    ensures KindOf(Unknown(relations, false).metadata) == Unspecified && !Unknown(relations, false).recognized
  {
  }

  function Natives(count: nat): seq<Edge> {
    if count == 0 then [] else Natives(count - 1) + [Edge(DERIVED_FROM, count)]
  }

  lemma {:induction false} NativesAreNative(count: nat)
    ensures Native(Natives(count), {}) == Natives(count) && |Natives(count)| == count
    ensures count > 0 ==> Edge(DERIVED_FROM, count) in Natives(count)
  {
    if count > 0 {
      hide Native, Natives;
      NativesAreNative(count - 1);
      NativesAre(count);
      NativeMore(Natives(count - 1), Edge(DERIVED_FROM, count));
    } else {
      hide Native;
      NoNative();
    }
  }

  lemma NativesAre(count: nat)
    requires count > 0
    ensures Natives(count) == Natives(count - 1) + [Edge(DERIVED_FROM, count)]
  {
  }

  lemma NoNative()
    ensures Native([], {}) == []
  {
  }

  lemma NativeMore(edges: seq<Edge>, e: Edge)
    requires e.name == DERIVED_FROM
    ensures Native(edges + [e], {}) == Native(edges, {}) + [e]
  {
    assert (edges + [e])[..|edges|] == edges;
  }

  function BareObservation(count: nat): Carrier {
    Carrier(Encoded(Wrapper(Metadata(Some(Observation), None, None, None, 0, true), None)), Natives(count))
  }

  /** Seventeen native lineage relations, or more, are too many for a reader, though a record may
      carry them: the observation beside them is read as unspecified and not recognised, whatever
      the size limit. */
  lemma ObservationWithTooMuchLineage(count: nat, fits: Fits)
    requires count > MAX_ITEMS
    ensures var r := BareObservation(count);
      && Told(r.source.wrapper.metadata, r.relations) && !Claims(r.source.wrapper.metadata)
      && Decode(r, fits) == Unknown(r.relations, false) && KindOf(Decode(r, fits).metadata) == Unspecified
  {
    hide Decode, Natives, Native;
    var r := BareObservation(count);
    NativesAreNative(count);
    assert LineageTargets([]) == {};
    DecodeMeans(r, fits);
    UnknownIsUnspecified(r.relations);
  }
}
