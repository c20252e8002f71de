/** The mv-rank-q64/1 integer arithmetic: half-even rounding, the Q64 logarithm and
    exponential, the time factor and the version 2 score. */
module Ranking {
  import opened Wrappers

  const SCALE: nat := 0x1_0000_0000_0000_0000
  const LN2: nat := 12786308645202655660
  const YEAR_US: nat := 31_536_000_000_000
  const SAFE_INTEGER: nat := 0x1F_FFFF_FFFF_FFFF

  // ----- rounding -----

  function Round(n: nat, d: nat): nat
    requires d > 0
  {
    var q, r := n / d, n % d;
    q + if 2 * r > d || (2 * r == d && q % 2 == 1) then 1 else 0
  }

  /** q is a nearest integer to n/d, and the even one of two that are equally near. */
  ghost predicate HalfEven(n: nat, d: nat, q: int) {
    var twice: int := 2 * (q * d - n);
    0 <= twice + d && twice <= d && (twice == d || twice + d == 0 ==> q % 2 == 0)
  }

  lemma RoundIsHalfEven(n: nat, d: nat, q: int)
    requires d > 0
    ensures q == Round(n, d) <==> HalfEven(n, d, q)
  {
    var f, r := n / d, n % d;
    assert n == f * d + r;
    var k: int := q - f;
    assert q * d - n == k * d - r;
    MulMono(d, 2, k);
    MulMono(d, k, -1);
  }

  lemma MulMono(k: nat, a: int, b: int)
    ensures a <= b ==> k * a <= k * b
    ensures k > 0 && a < b ==> k * a < k * b
  {
  }

  /** _rank_round: it refuses exactly negative numerators and non-positive denominators, and
      otherwise gives the half-even nearest integer. */
  function RankRound(n: int, d: int): (r: Result<nat>)
    ensures r.Failure? <==> n < 0 || d <= 0
    ensures r.Success? ==> HalfEven(n, d, r.value)
  {
    if n < 0 || d <= 0 then Failure(InvalidArithmetic)
    else
      RoundIsHalfEven(n, d, Round(n, d));
      Success(Round(n, d))
  }

  lemma Swap(a: int, b: int, c: int)
    ensures a * (b * c) == b * (a * c)
  {
  }

  lemma Distribute(k: int, a: int, b: int)
    ensures k * (a - b) == k * a - k * b && k * (a + b) == k * a + k * b
  {
  }

  /** A value between two opposite bounds, and both scaled alike. */
  lemma ScaleBetween(k: nat, e: int, d: nat)
    requires k > 0 && d > 0 && 0 <= e + d && e <= d
    ensures 0 <= k * e + k * d && k * e <= k * d && k * d > 0
    ensures k * e == k * d ==> e == d
    ensures k * e + k * d == 0 ==> e + d == 0
  {
    Distribute(k, e, d);
    MulMono(k, 0, e + d);
    MulMono(k, e, d);
    MulMono(k, 0, d);
  }

  /** Scaling both sides never moves the rounding. */
  lemma RoundScales(n: nat, d: nat, k: nat)
    requires d > 0 && k > 0
    ensures k * d > 0 && Round(k * n, k * d) == Round(n, d)
  {
    hide Round;
    var q: int := Round(n, d);
    RoundIsHalfEven(n, d, q);
    var distance: int := q * d - n;
    ScaleBetween(k, 2 * distance, d);
    Swap(q, k, d);
    Distribute(k, q * d, n);
    Swap(k, 2, distance);
    var kd: nat, kn: nat := k * d, k * n;
    assert 2 * (q * kd - kn) == k * (2 * distance);
    RoundIsHalfEven(kn, kd, q);
  }

  lemma RoundAtMost(n: nat, d: nat, m: nat)
    requires d > 0 && n <= m * d
    ensures Round(n, d) <= m
  {
    var q, r := n / d, n % d;
    assert n == q * d + r;
    MulMono(d, m, q);
  }

  lemma RoundAtLeast(n: nat, d: nat, m: nat)
    requires d > 0 && m * d <= n
    ensures m <= Round(n, d)
  {
    var q, r := n / d, n % d;
    assert n == q * d + r;
    MulMono(d, q + 1, m);
  }

  lemma RoundMonotone(n: nat, m: nat, d: nat)
    requires d > 0 && n <= m
    ensures Round(n, d) <= Round(m, d)
  {
    var p, q := n / d, m / d;
    var r, t := n % d, m % d;
    assert n == d * p + r && m == d * q + t;
    MulMono(d, q + 1, p);
    assert p <= q;
    if p == q {
      assert r <= t;
    }
  }

  // ----- logarithm -----

  /** How often the denominator doubles before it exceeds half the numerator. */
  function Doublings(n: nat, d: nat): nat
    requires d > 0
    decreases n - d
  {
    if n >= 2 * d then 1 + Doublings(n, 2 * d) else 0
  }

  function Pow2(e: nat): (r: nat)
    ensures r > 0
  {
    if e == 0 then 1 else 2 * Pow2(e - 1)
  }

  function ReducedRatio(n: nat, d: nat): nat
    requires n >= d > 0
  {
    Round((n - d) * SCALE, n + d)
  }

  function SeriesPower(z: nat, j: nat): nat {
    if j == 0 then z else Round(SeriesPower(z, j - 1) * Round(z * z, SCALE), SCALE)
  }

  function SeriesSum(z: nat, j: nat): nat {
    if j == 0 then 0 else SeriesSum(z, j - 1) + Round(SeriesPower(z, j - 1), 2 * (j - 1) + 1)
  }

  lemma {:induction false} DoublingsFit(n: nat, d: nat)
    requires n >= d > 0
    ensures d * Pow2(Doublings(n, d)) <= n < 2 * (d * Pow2(Doublings(n, d)))
    decreases n - d
  {
    if n >= 2 * d {
      DoublingsFit(n, 2 * d);
      assert 2 * d * Pow2(Doublings(n, 2 * d)) == d * Pow2(Doublings(n, d));
    }
  }

  function LogQ(n: nat, d: nat): nat
    requires n >= d > 0
  {
    DoublingsFit(n, d);
    Doublings(n, d) * LN2 + 2 * SeriesSum(ReducedRatio(n, d * Pow2(Doublings(n, d))), 32)
  }

  lemma Halve(n: nat, d: nat)
    requires n >= d > 0
    ensures ReducedRatio(2 * n, 2 * d) == ReducedRatio(n, d)
  {
    RoundScales((n - d) * SCALE, n + d, 2);
    assert (2 * n - 2 * d) * SCALE == 2 * ((n - d) * SCALE);
  }

  lemma {:induction false} DoublingsShift(n: nat, d: nat)
    requires n >= d > 0
    ensures Doublings(2 * n, 2 * d) == Doublings(n, d)
    decreases n - d
  {
    if n >= 2 * d {
      DoublingsShift(n, 2 * d);
    }
  }

  lemma DoublePow(d: nat, k: nat)
    ensures d * Pow2(k + 1) == 2 * (d * Pow2(k))
  {
    Swap(d, 2, Pow2(k));
  }

  function LogAt(k: nat, ratio: nat): nat {
    k * LN2 + 2 * SeriesSum(ratio, 32)
  }

  lemma LogIs(n: nat, d: nat)
    requires n >= d > 0
    ensures 0 < d * Pow2(Doublings(n, d)) <= n
    ensures LogQ(n, d) == LogAt(Doublings(n, d), ReducedRatio(n, d * Pow2(Doublings(n, d))))
  {
    DoublingsFit(n, d);
    hide ReducedRatio, SeriesSum;
  }

  /** Doubling the ratio adds exactly the constant for ln 2. */
  lemma LogOfDouble(n: nat, d: nat)
    requires n >= d > 0
    ensures LogQ(2 * n, d) == LogQ(n, d) + LN2
  {
    hide LogQ, ReducedRatio, SeriesSum, Pow2;
    var k := Doublings(n, d);
    DoublingsShift(n, d);
    assert Doublings(2 * n, d) == k + 1;
    LogIs(n, d);
    LogIs(2 * n, d);
    DoublePow(d, k);
    Halve(n, d * Pow2(k));
  }

  lemma LogOfOne(n: nat)
    requires n > 0
    ensures LogQ(n, n) == 0
  {
    assert Doublings(n, n) == 0 && n * Pow2(0) == n;
    assert ReducedRatio(n, n) == Round(0, 2 * n) == 0;
    ZeroSeries(32);
  }

  lemma {:induction false} ZeroSeries(j: nat)
    ensures SeriesPower(0, j) == 0 && SeriesSum(0, j) == 0
  {
    if j > 0 {
      ZeroSeries(j - 1);
    }
  }

  /** The loop form: both loops of _rank_log_q. */
  method RankLogQ(numerator: int, denominator: int) returns (r: Result<nat>)
    ensures numerator < denominator || denominator <= 0 ==> r == Failure(InvalidArithmetic)
    ensures numerator >= denominator > 0 ==> r == Success(LogQ(numerator, denominator))
  {
    if numerator < denominator || denominator <= 0 {
      return Failure(InvalidArithmetic);
    }
    var d: nat := denominator;
    var exponent: nat := 0;
    while numerator >= 2 * d
      invariant d == denominator * Pow2(exponent) && 0 < d <= numerator
      invariant Doublings(numerator, denominator) == exponent + Doublings(numerator, d)
      decreases numerator - d
    {
      assert 2 * d == denominator * Pow2(exponent + 1);
      d := d * 2;
      exponent := exponent + 1;
    }
    var total := LogSeries(Round((numerator - d) * SCALE, numerator + d));
    DoublingsFit(numerator, denominator);
    assert exponent == Doublings(numerator, denominator);
    r := Success(exponent * LN2 + 2 * total);
  }

  /** The series loop of _rank_log_q. */
  method LogSeries(z: nat) returns (total: nat)
    ensures total == SeriesSum(z, 32)
  {
    hide Round;
    var squared := Round(z * z, SCALE);
    var power := z;
    total := 0;
    for index := 0 to 32
      invariant power == SeriesPower(z, index) && total == SeriesSum(z, index)
    {
      total := total + Round(power, 2 * index + 1);
      var product: nat := power * squared;
      power := Round(product, SCALE);
    }
  }

  lemma ProductInScale(p: nat, q: nat)
    requires p <= SCALE && q <= SCALE
    ensures Round(p * q, SCALE) <= SCALE
  {
    hide Round;
    MulMono(p, q, SCALE);
    MulMono(SCALE, p, SCALE);
    RoundAtMost(p * q, SCALE, SCALE);
  }

  lemma ShareInScale(p: nat, k: nat)
    requires p <= SCALE && k > 0
    ensures Round(p, k) <= SCALE
  {
    hide Round;
    MulMono(SCALE, 1, k);
    RoundAtMost(p, k, SCALE);
  }

  lemma {:induction false} SeriesBound(z: nat, j: nat)
    requires z <= SCALE
    ensures SeriesPower(z, j) <= SCALE && SeriesSum(z, j) <= j * SCALE
  {
    hide Round;
    if j > 0 {
      SeriesBound(z, j - 1);
      ProductInScale(z, z);
      ProductInScale(SeriesPower(z, j - 1), Round(z * z, SCALE));
      ShareInScale(SeriesPower(z, j - 1), 2 * (j - 1) + 1);
    }
  }

  lemma {:induction false} FewDoublings(n: nat, d: nat, k: nat)
    requires d > 0 && n < d * Pow2(k + 1)
    ensures Doublings(n, d) <= k
    decreases k
  {
    if n >= 2 * d {
      assert d * Pow2(k + 1) == 2 * d * Pow2(k);
      assert Pow2(1) == 2;
      FewDoublings(n, 2 * d, k - 1);
    }
  }

  // ----- exponential -----

  /** The smallest exponent from e on that brings the value down to an eighth. */
  function Shift(value: nat, e: nat): nat
    requires value < 64 * SCALE && e <= 9
    decreases 9 - e
  {
    if value > SCALE / 8 * Pow2(e) then
      assert e < 9 by { assert Pow2(9) == 512; }
      Shift(value, e + 1)
    else e
  }

  function Term(y: nat, j: nat): nat {
    if j == 0 then SCALE else Round(Term(y, j - 1) * y, j * SCALE)
  }

  function Signed(t: int, j: nat): int {
    if j % 2 == 0 then t else -t
  }

  function Alternating(y: nat, j: nat): int {
    if j == 0 then SCALE else Alternating(y, j - 1) + Signed(Term(y, j), j)
  }

  /** The value squared e times on the Q64 scale; a square is never negative. */
  function Squared(t: int, e: nat): int {
    if e == 0 then t else Round(Squared(t, e - 1) * Squared(t, e - 1), SCALE)
  }

  /** The exponential before its final clamp. */
  function UnclampedExp(value: nat): int
    requires value < 64 * SCALE
  {
    var e := Shift(value, 0);
    Squared(Alternating(Round(value, Pow2(e)), 20), e)
  }

  lemma {:induction false} ShiftIsLeast(value: nat, e: nat)
    requires value < 64 * SCALE && e <= 9
    ensures e <= Shift(value, e) <= 9
    ensures value <= SCALE / 8 * Pow2(Shift(value, e))
    ensures forall k :: e <= k < Shift(value, e) ==> value > SCALE / 8 * Pow2(k)
    decreases 9 - e
  {
    if value > SCALE / 8 * Pow2(e) {
      assert Pow2(9) == 512;
      ShiftIsLeast(value, e + 1);
    }
  }

  lemma {:induction false} TermFalls(y: nat, j: nat)
    requires y <= SCALE / 8 && j > 0
    ensures Term(y, j) <= Term(y, j - 1)
  {
    var t := Term(y, j - 1);
    assert t * y <= t * (j * SCALE) by {
      MulMono(t, y, j * SCALE);
    }
    RoundAtMost(t * y, j * SCALE, t);
  }

  /** Partial sums of the falling alternating series straddle its value. */
  lemma {:induction false} AlternatingBounds(y: nat, j: nat)
    requires y <= SCALE / 8 && j > 0
    ensures j % 2 == 0 ==> SCALE - Term(y, 1) + Term(y, j) <= Alternating(y, j) <= SCALE
    ensures j % 2 == 1 ==> SCALE - Term(y, 1) <= Alternating(y, j) <= SCALE - Term(y, j)
  {
    hide Round;
    TermFalls(y, j);
    if j > 1 {
      AlternatingBounds(y, j - 1);
    }
  }

  lemma {:induction false} SquaredBounds(t: int, e: nat)
    requires 0 <= t <= SCALE
    ensures 0 <= Squared(t, e) <= SCALE
  {
    if e > 0 {
      SquaredBounds(t, e - 1);
      var s := Squared(t, e - 1);
      assert s * s <= SCALE * SCALE by {
        MulMono(s, s, SCALE);
      }
      RoundAtMost(s * s, SCALE, SCALE);
    }
  }

  lemma ReducedIsSmall(value: nat)
    requires value < 64 * SCALE
    ensures Round(value, Pow2(Shift(value, 0))) <= SCALE / 8
  {
    ShiftIsLeast(value, 0);
    RoundAtMost(value, Pow2(Shift(value, 0)), SCALE / 8);
  }

  /** The series stays between seven eighths and one, so the clamp never acts. */
  lemma ExpInRange(value: nat)
    requires value < 64 * SCALE
    ensures 0 <= UnclampedExp(value) <= SCALE
    ensures Shift(value, 0) == 0 ==> SCALE - SCALE / 8 <= UnclampedExp(value)
  {
    var e := Shift(value, 0);
    var y := Round(value, Pow2(e));
    ReducedIsSmall(value);
    AlternatingBounds(y, 20);
    assert Term(y, 1) == Round(SCALE * y, SCALE);
    RoundAtMost(SCALE * y, SCALE, SCALE / 8);
    SquaredBounds(Alternating(y, 20), e);
  }

  function ExpNegQ(value: nat): (r: nat)
    ensures r <= SCALE
  {
    if value >= 64 * SCALE then 0 else
      ExpInRange(value);
      UnclampedExp(value)
  }

  /** The squaring loop and the clamp after it, which changes nothing. */
  method SquareDown(series: int, exponent: nat) returns (r: int)
    requires 0 <= series <= SCALE
    ensures r == Squared(series, exponent) && 0 <= r <= SCALE
  {
    var total := series;
    for k := 0 to exponent
      invariant 0 <= total <= SCALE && total == Squared(series, k)
    {
      SquaredBounds(series, k + 1);
      total := Round(total * total, SCALE);
    }
    r := if total < 0 then 0 else if total > SCALE then SCALE else total;
  }

  /** The loop that picks the shift: at most nine halvings. */
  method FindShift(value: nat) returns (exponent: nat)
    requires value < 64 * SCALE
    ensures exponent == Shift(value, 0) && exponent <= 9
  {
    exponent := 0;
    while value > SCALE / 8 * Pow2(exponent)
      invariant exponent <= 9 && Shift(value, 0) == Shift(value, exponent)
      decreases 9 - exponent
    {
      ShiftIsLeast(value, exponent);
      exponent := exponent + 1;
    }
  }

  /** The loop over the alternating series. */
  method SumSeries(reduced: nat) returns (total: int)
    ensures total == Alternating(reduced, 20)
  {
    hide Round;
    var term: nat := SCALE;
    total := SCALE;
    for index := 1 to 21
      invariant term == Term(reduced, index - 1) && total == Alternating(reduced, index - 1)
    {
      term := Round(term * reduced, index * SCALE);
      total := total + Signed(term, index);
    }
  }

  /** _rank_exp_neg_q: always between zero and one on the Q64 scale. */
  method RankExpNegQ(value: int) returns (r: Result<nat>)
    ensures value < 0 ==> r == Failure(InvalidArithmetic)
    ensures value >= 0 ==> r.Success? && r.value == ExpNegQ(value) <= SCALE
  {
    if value < 0 {
      return Failure(InvalidArithmetic);
    }
    if value >= 64 * SCALE {
      return Success(0);
    }
    var exponent := FindShift(value);
    var reduced := Round(value, Pow2(exponent));
    var total := SumSeries(reduced);
    ReducedIsSmall(value);
    AlternatingBounds(reduced, 20);
    FirstTerm(reduced);
    var clamped := SquareDown(total, exponent);
    r := Success(clamped);
  }

  lemma FirstTerm(y: nat)
    requires y <= SCALE
    ensures Term(y, 1) == Round(SCALE * y, SCALE) <= SCALE
  {
    assert Term(y, 0) == SCALE;
    RoundAtMost(SCALE * y, SCALE, SCALE);
  }

  lemma ExpOfZero()
    ensures ExpNegQ(0) == SCALE
  {
    assert Shift(0, 0) == 0 && Round(0, Pow2(0)) == 0;
    ZeroTerms(20);
  }

  lemma {:induction false} ZeroTerms(j: nat)
    ensures Alternating(0, j) == SCALE && (j > 0 ==> Term(0, j) == 0)
  {
    if j > 0 {
      ZeroTerms(j - 1);
      assert Round(0, j * SCALE) == 0;
    }
  }

  // ----- time factor -----

  /** _rank_time_factor_q after the calendar arithmetic; a record from the future has age zero. */
  function TimeFactorQ(createdUs: int, rankingTimeMs: int): nat {
    var age := if rankingTimeMs * 1000 > createdUs then rankingTimeMs * 1000 - createdUs else 0;
    var aged := Round(age * SCALE, YEAR_US);
    Round(41 * SCALE + 9 * ExpNegQ(aged), 50)
  }

  /** Age costs at most 18 percent. */
  lemma TimeFactorInRange(createdUs: int, rankingTimeMs: int)
    ensures 41 * SCALE <= 50 * TimeFactorQ(createdUs, rankingTimeMs) + 25
    ensures TimeFactorQ(createdUs, rankingTimeMs) <= SCALE
    ensures rankingTimeMs * 1000 <= createdUs ==> TimeFactorQ(createdUs, rankingTimeMs) == SCALE
  {
    var age := if rankingTimeMs * 1000 > createdUs then rankingTimeMs * 1000 - createdUs else 0;
    var aged := Round(age * SCALE, YEAR_US);
    if aged < 64 * SCALE {
      ExpInRange(aged);
    }
    var n := 41 * SCALE + 9 * ExpNegQ(aged);
    RoundIsHalfEven(n, 50, Round(n, 50));
    RoundAtMost(n, 50, SCALE);
    ExpOfZero();
    if age == 0 {
      assert aged == 0;
      RoundAtLeast(n, 50, SCALE);
    }
  }

  // ----- the version 2 score -----

  datatype Feature = Concept(id: nat) | NegativePolarity | Other(id: nat)

  predicate IsConcept(f: Feature) { f.Concept? }

  function Concepts(s: set<Feature>): set<Feature> {
    set f | f in s && IsConcept(f)
  }

  datatype Cardinality = Cardinality(overlap: nat, union: nat, polarity: nat)

  /** _semantic_cardinality: no shared concept reads as nothing out of one. */
  function SemanticCardinality(query: set<Feature>, candidate: set<Feature>): (c: Cardinality)
    ensures c.overlap <= c.union && 1 <= c.union && 1 <= c.polarity <= 4
    ensures c.overlap > 0 <==> exists f :: f in query && f in candidate && IsConcept(f)
  {
    var left, right := Concepts(query), Concepts(candidate);
    var both := left * right;
    SubsetSize(both, left + right);
    if |both| == 0 then
      assert both == {};
      assert forall f :: f in query && f in candidate && IsConcept(f) ==> f in both;
      Cardinality(0, 1, 1)
    else
      assert both != {};
      var polarity := if (NegativePolarity in query) != (NegativePolarity in candidate) then 4 else 1;
      Cardinality(|both|, |left + right|, polarity)
  }

  lemma SubsetSize<T>(a: set<T>, b: set<T>)
    requires a <= b
    ensures |a| <= |b|
  {
    assert b == a + (b - a);
  }

  /** A query token: how often the fragment holds it, in how many fragments it
      occurs, and its inverse document frequency. */
  datatype TermStat = TermStat(frequency: nat, documents: nat, inverse: nat)

  datatype ScoreInput = ScoreInput(
    terms: seq<TermStat>, totalLength: nat, total: nat, length: nat,
    features: set<Feature>, fragmentFeatures: set<Feature>, entityFeatures: set<Feature>,
    entityMatches: nat, queryTokens: nat,
    phrase: bool, related: bool, userHint: bool, episode: bool, historical: bool, timeFactor: nat)

  function LexicalDenominator(i: ScoreInput, t: TermStat): nat {
    500 * t.frequency * i.totalLength + 27 * (7 * i.totalLength + 18 * i.length * i.total)
  }

  function LexicalTerm(i: ScoreInput, t: TermStat): nat
    requires LexicalDenominator(i, t) > 0
  {
    Round(t.inverse * 1175 * t.frequency * i.totalLength, LexicalDenominator(i, t))
  }

  /** Some term has nothing to divide by. */
  ghost predicate Degenerate(i: ScoreInput) {
    exists k :: 0 <= k < |i.terms| && LexicalDenominator(i, i.terms[k]) == 0
  }

  function Lexical(i: ScoreInput, k: nat): nat
    requires k <= |i.terms| && forall j :: 0 <= j < k ==> LexicalDenominator(i, i.terms[j]) > 0
  {
    if k == 0 then 0 else Lexical(i, k - 1) + LexicalTerm(i, i.terms[k - 1])
  }

  function ConceptQ(i: ScoreInput): nat {
    var c := SemanticCardinality(i.features, i.fragmentFeatures);
    Round(9 * c.overlap * SCALE, Positive(4 * c.union * c.polarity))
  }

  function EntityQ(i: ScoreInput): nat {
    var c := SemanticCardinality(i.features, i.entityFeatures);
    var tokens: nat := if i.queryTokens > 1 then i.queryTokens else 1;
    var s := c.union * c.polarity;
    Round(SCALE * (i.entityMatches * s + c.overlap * tokens), Positive(2 * tokens * s))
  }

  /** The denominators above are products of positive factors. */
  function Positive(d: nat): (r: nat)
    ensures r > 0 && (d > 0 ==> r == d)
  {
    if d > 0 then d else 1
  }

  function Base(i: ScoreInput): nat
    requires !Degenerate(i)
  {
    Lexical(i, |i.terms|) + ConceptQ(i) + EntityQ(i)
      + (if i.phrase then Round(27 * SCALE, 20) else 0) + (if i.related then Round(SCALE, 5) else 0)
  }

  function Final(i: ScoreInput, base: nat): nat {
    var role := if i.userHint then (71, 50) else (1, 1);
    var kind := if i.episode then (1, 1) else (28, 25);
    var state := if i.historical then (18, 25) else (1, 1);
    Round(base * (role.0 * kind.0 * state.0) * i.timeFactor * 1000, role.1 * kind.1 * state.1 * SCALE * SCALE)
  }

  /** _rank_score_v2 up to the displayed components: nothing for a zero base. */
  method RankScoreV2(i: ScoreInput) returns (r: Result<Option<nat>>)
    ensures Degenerate(i) ==> r == Failure(InvalidArithmetic)
    ensures !Degenerate(i) && Base(i) == 0 ==> r == Success(None)
    ensures !Degenerate(i) && Base(i) > 0 ==>
              r == if Final(i, Base(i)) > SAFE_INTEGER then Failure(InvalidArithmetic)
                   else Success(Some(Final(i, Base(i))))
  {
    hide Round, SemanticCardinality;
    var lexical := 0;
    for k := 0 to |i.terms|
      invariant forall j :: 0 <= j < k ==> LexicalDenominator(i, i.terms[j]) > 0
      invariant lexical == Lexical(i, k)
    {
      if LexicalDenominator(i, i.terms[k]) == 0 {
        return Failure(InvalidArithmetic);
      }
      lexical := lexical + LexicalTerm(i, i.terms[k]);
    }
    var base := lexical + ConceptQ(i) + EntityQ(i)
      + (if i.phrase then Round(27 * SCALE, 20) else 0) + (if i.related then Round(SCALE, 5) else 0);
    if base == 0 {
      return Success(None);
    }
    var score := Final(i, base);
    r := if score > SAFE_INTEGER then Failure(InvalidArithmetic) else Success(Some(score));
  }

  /** What recall feeds in: at most 256 query tokens over a pool of at most 4096
      non-empty fragments, with inverse frequencies from the Q64 logarithm. */
  ghost predicate FromRecall(i: ScoreInput) {
    && |i.terms| <= 256 && i.total <= 4096 && i.totalLength >= 1 && i.timeFactor <= SCALE
    && i.entityMatches <= i.queryTokens
    && forall k :: 0 <= k < |i.terms| ==>
         i.terms[k].documents <= i.total
         && i.terms[k].inverse == LogQ(2 * (i.total + 1), 2 * i.terms[k].documents + 1)
  }

  lemma InverseBound(total: nat, documents: nat)
    requires documents <= total <= 4096
    ensures LogQ(2 * (total + 1), 2 * documents + 1) <= 77 * SCALE
  {
    hide Round;
    var n, d := 2 * (total + 1), 2 * documents + 1;
    assert Pow2(14) == 16384;
    MulMono(Pow2(14), 1, d);
    FewDoublings(n, d, 13);
    DoublingsFit(n, d);
    RatioBound(n, d * Pow2(Doublings(n, d)));
    SeriesBound(ReducedRatio(n, d * Pow2(Doublings(n, d))), 32);
  }

  lemma RatioBound(n: nat, d: nat)
    requires n >= d > 0
    ensures ReducedRatio(n, d) <= SCALE
  {
    MulMono(SCALE, n - d, n + d);
    RoundAtMost((n - d) * SCALE, n + d, SCALE);
  }

  lemma LexicalNumerator(inverse: nat, ft: nat, n: nat, frequency: nat, length: nat)
    requires ft == frequency * length && n == inverse * 1175 * frequency * length && inverse <= 77 * SCALE
    ensures n <= 231 * SCALE * (500 * ft)
  {
    assert n == ft * (inverse * 1175);
    MulMono(ft, inverse * 1175, 77 * SCALE * 1175);
  }

  lemma LexicalTermBound(i: ScoreInput, t: TermStat)
    requires i.totalLength >= 1 && t.inverse <= 77 * SCALE
    ensures LexicalDenominator(i, t) > 0 && LexicalTerm(i, t) <= 231 * SCALE
  {
    var ft := t.frequency * i.totalLength;
    var lt := i.length * i.total;
    var d := LexicalDenominator(i, t);
    assert d == 500 * ft + 189 * i.totalLength + 486 * lt;
    var n := t.inverse * 1175 * t.frequency * i.totalLength;
    LexicalNumerator(t.inverse, ft, n, t.frequency, i.totalLength);
    MulMono(231 * SCALE, 500 * ft, d);
    RoundAtMost(n, d, 231 * SCALE);
  }

  lemma {:induction false} LexicalBound(i: ScoreInput, k: nat)
    requires FromRecall(i) && k <= |i.terms|
    ensures forall j :: 0 <= j < k ==> LexicalDenominator(i, i.terms[j]) > 0
    ensures Lexical(i, k) <= k * (231 * SCALE)
  {
    hide Round, LogQ, LexicalTerm, LexicalDenominator;
    if k > 0 {
      LexicalBound(i, k - 1);
      InverseBound(i.total, i.terms[k - 1].documents);
      LexicalTermBound(i, i.terms[k - 1]);
    }
  }

  lemma ConceptBound(i: ScoreInput)
    ensures ConceptQ(i) <= 3 * SCALE
  {
    var c := SemanticCardinality(i.features, i.fragmentFeatures);
    MulMono(c.union, 1, c.polarity);
    RoundAtMost(9 * c.overlap * SCALE, Positive(4 * c.union * c.polarity), 3 * SCALE);
  }

  lemma Shares(s: nat, t: nat, a: nat, b: nat)
    requires a <= s * t && b <= s * t && s >= 1 && t >= 1
    ensures 2 * t * s > 0 && SCALE * (a + b) <= SCALE * (2 * t * s)
  {
    MulMono(t, 1, s);
    assert 2 * t * s == 2 * (s * t);
  }

  lemma EntityShare(m: nat, o: nat, t: nat, s: nat)
    requires m <= t && o <= s && t >= 1 && s >= 1
    ensures 2 * t * s > 0 && Round(SCALE * (m * s + o * t), 2 * t * s) <= SCALE
  {
    hide Round;
    MulMono(s, m, t);
    MulMono(t, o, s);
    Shares(s, t, m * s, o * t);
    RoundAtMost(SCALE * (m * s + o * t), 2 * t * s, SCALE);
  }

  lemma EntityBound(i: ScoreInput)
    requires i.entityMatches <= i.queryTokens
    ensures EntityQ(i) <= SCALE
  {
    hide Round, SemanticCardinality;
    var c := SemanticCardinality(i.features, i.entityFeatures);
    var tokens: nat := if i.queryTokens > 1 then i.queryTokens else 1;
    MulMono(c.union, 1, c.polarity);
    EntityShare(i.entityMatches, c.overlap, tokens, c.union * c.polarity);
  }

  lemma MulBoth(a: nat, b: nat, c: nat, d: nat)
    requires a <= c && b <= d
    ensures a * b <= c * d
  {
    MulMono(b, a, c);
    MulMono(c, b, d);
  }

  lemma Grouped(a: nat, b: nat, c: nat)
    ensures a * b * c == b * (a * c) && a * b * c == a * (b * c)
  {
  }

  lemma Weighted(base: nat, m: nat, time: nat, den: nat, s: nat)
    requires base <= 60000 * s && time <= s && m <= 35784 && den >= 1
    ensures base * m * time * 1000 <= SAFE_INTEGER * (den * s * s)
  {
    var bt, square := base * time, s * s;
    Grouped(base, m, time);
    Grouped(den, s, s);
    Grouped(60000, s, s);
    MulBoth(base, time, 60000 * s, s);
    MulBoth(m, bt, 35784, 60000 * square);
    MulMono(square, 1, den);
    assert 1000 * (m * bt) <= 1000 * (35784 * (60000 * square)) <= SAFE_INTEGER * square;
    assert square <= den * square;
  }

  lemma WeightedBound(base: nat, m: nat, time: nat, den: nat)
    requires base <= 60000 * SCALE && time <= SCALE && m <= 35784 && den >= 1
    ensures den * SCALE * SCALE > 0
    ensures Round(base * m * time * 1000, den * SCALE * SCALE) <= SAFE_INTEGER
  {
    hide Round;
    Weighted(base, m, time, den, SCALE);
    RoundAtMost(base * m * time * 1000, den * SCALE * SCALE, SAFE_INTEGER);
  }

  lemma FinalBound(i: ScoreInput, base: nat)
    requires base <= 60000 * SCALE && i.timeFactor <= SCALE
    ensures Final(i, base) <= SAFE_INTEGER
  {
    hide Round;
    var role := if i.userHint then (71, 50) else (1, 1);
    var kind := if i.episode then (1, 1) else (28, 25);
    var state := if i.historical then (18, 25) else (1, 1);
    WeightedBound(base, role.0 * kind.0 * state.0, i.timeFactor, role.1 * kind.1 * state.1);
  }

  /** Within recall's bounds the score never raises. */
  lemma ScoreIsTotal(i: ScoreInput)
    requires FromRecall(i)
    ensures !Degenerate(i) && Final(i, Base(i)) <= SAFE_INTEGER
  {
    hide Round, LogQ, LexicalTerm, LexicalDenominator, ConceptQ, EntityQ, Final, Lexical;
    LexicalBound(i, |i.terms|);
    ConceptBound(i);
    EntityBound(i);
    RoundAtMost(27 * SCALE, 20, 2 * SCALE);
    RoundAtMost(SCALE, 5, SCALE);
    FinalBound(i, Base(i));
  }

  /** A resolved or superseded record never scores above itself as current. */
  lemma HistoryNeverHelps(i: ScoreInput, base: nat)
    ensures Final(i.(historical := true), base) <= Final(i.(historical := false), base)
  {
    var role := if i.userHint then (71, 50) else (1, 1);
    var kind := if i.episode then (1, 1) else (28, 25);
    var x := base * (role.0 * kind.0) * i.timeFactor * 1000;
    var d := role.1 * kind.1 * SCALE * SCALE;
    assert base * (role.0 * kind.0 * 18) * i.timeFactor * 1000 == 18 * x;
    assert base * (role.0 * kind.0 * 1) * i.timeFactor * 1000 == x;
    assert role.1 * kind.1 * 25 * SCALE * SCALE == 25 * d;
    assert role.1 * kind.1 * 1 * SCALE * SCALE == d;
    RoundScales(x, d, 25);
    RoundMonotone(18 * x, 25 * x, 25 * d);
  }
}
