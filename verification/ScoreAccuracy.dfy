/** What the fixed-point score means: the formula of the first ranking profile, term by term and as a
    whole, with the same inverse frequencies and time factor. */
module ScoreAccuracy {
  import opened Ranking
  import opened ExpAccuracy

  // ----- the formula of the first profile -----

  /** semantic_similarity: the share of common concepts, a quarter of it when the polarities differ. */
  ghost function Similarity(query: set<Feature>, candidate: set<Feature>): real {
    var left, right := Concepts(query), Concepts(candidate);
    if left * right == {} then 0.0
    else
      var score := |left * right| as real / AtLeastOne(|left + right|);
      if (NegativePolarity in query) != (NegativePolarity in candidate) then score * 0.25 else score
  }

  ghost function AtLeastOne(n: nat): (r: real)
    ensures r >= 1.0
  {
    if n > 1 then n as real else 1.0
  }

  /** The saturated weight of a term, with k1 = 1.35 and b = 0.72. */
  ghost function TermWeight(inverse: real, frequency: nat, length: nat, average: real): real
    requires average > 0.0
  {
    var spread := 0.72 * length as real / average;
    inverse * frequency as real * 2.35 / Saturation(frequency, spread)
  }

  ghost function Saturation(frequency: nat, spread: real): (r: real)
    ensures spread >= 0.0 ==> r > 0.0
  {
    frequency as real + 1.35 * (1.0 - 0.72 + spread)
  }

  ghost function Average(i: ScoreInput): (r: real)
    requires i.totalLength >= 1 && i.total >= 1
    ensures r > 0.0
  {
    i.totalLength as real / i.total as real
  }

  /** The five parts of the score, the first from the given inverse frequencies. */
  ghost function LexicalSum(i: ScoreInput, k: nat): real
    requires k <= |i.terms| && i.totalLength >= 1 && i.total >= 1
  {
    if k == 0 then 0.0
    else
      var t := i.terms[k - 1];
      LexicalSum(i, k - 1) + TermWeight(Real(t.inverse), t.frequency, i.length, Average(i))
  }

  ghost function ConceptPart(i: ScoreInput): real {
    Similarity(i.features, i.fragmentFeatures) * 2.25
  }

  ghost function EntityPart(i: ScoreInput): real {
    (i.entityMatches as real / AtLeastOne(i.queryTokens) + Similarity(i.features, i.entityFeatures)) * 0.5
  }

  ghost function Total(i: ScoreInput): real
    requires i.totalLength >= 1 && i.total >= 1
  {
    LexicalSum(i, |i.terms|) + ConceptPart(i) + EntityPart(i)
      + (if i.phrase then 1.35 else 0.0) + (if i.related then 0.20 else 0.0)
  }

  ghost function Factor(i: ScoreInput): real {
    (if i.userHint then 1.42 else 1.0) * (if i.episode then 1.0 else 1.12) * (if i.historical then 0.72 else 1.0)
  }

  // ----- each part is rounded once -----

  /** The rounding of an exact quotient. */
  lemma RoundsTo(n: nat, d: nat, r: real)
    requires d > 0 && n as real == Mul(d as real, r)
    ensures Within(Round(n, d) as real, r, 0.5)
  {
    hide Round, Mul;
    var q := Round(n, d);
    RoundIsNear(n, d);
    Casts(d, q);
    assert (q * d) as real == (d * q) as real;
    Distributes(d as real, q as real, r);
    Halves(d as real);
    Negates(d as real, 0.5);
    Cancels(d as real, q as real - r, 0.5);
    Cancels(d as real, -0.5, q as real - r);
  }

  lemma Halves(d: real)
    ensures Mul(d, 0.5) == d / 2.0
  {
  }

  lemma QuotientIs(a: real, b: real, r: real)
    requires b > 0.0 && r == a / b
    ensures Mul(b, r) == a
  {
  }

  /** Multiplying the weight out: all lengths times five hundred. */
  lemma WeightMultiplied(total: real, count: real, average: real, frequency: real, length: real, spread: real)
    requires Mul(count, average) == total && Mul(average, spread) == 0.72 * length
    ensures 500.0 * Mul(total, frequency + 1.35 * (1.0 - 0.72 + spread))
            == 500.0 * Mul(total, frequency) + 189.0 * total + 486.0 * Mul(count, length)
  {
    hide Mul;
    Distributes(total, frequency, 1.35 * (1.0 - 0.72 + spread));
    Times(total, spread);
    Commutes(total, spread);
    Commutes(count, average);
    Regroups(spread, average, count);
    Commutes(spread, average);
    Regroups(average, spread, count);
    Product(count, average, spread, length);
  }

  lemma Times(total: real, spread: real)
    ensures Mul(total, 1.35 * (1.0 - 0.72 + spread)) == 1.35 * (0.28 * total + Mul(total, spread))
  {
  }

  lemma Product(count: real, average: real, spread: real, length: real)
    requires Mul(average, spread) == 0.72 * length
    ensures Mul(spread, Mul(count, average)) == 0.72 * Mul(count, length)
  {
    hide Mul;
    Regroups(spread, count, average);
    Commutes(spread, average);
    SevenTenths(count, length);
  }

  lemma SevenTenths(a: real, b: real)
    ensures Mul(a, 0.72 * b) == 0.72 * Mul(a, b)
  {
  }

  lemma WeightIs(inverse: real, frequency: nat, length: nat, average: real)
    requires average > 0.0
    ensures var spread := 0.72 * length as real / average;
      && Mul(average, spread) == 0.72 * length as real
      && Mul(Saturation(frequency, spread), TermWeight(inverse, frequency, length, average))
         == 2.35 * Mul(inverse, frequency as real)
  {
    var spread := 0.72 * length as real / average;
    QuotientIs(0.72 * length as real, average, spread);
    NonNegative(length, average);
    var weighed := inverse * frequency as real * 2.35;
    QuotientIs(weighed, Saturation(frequency, spread), TermWeight(inverse, frequency, length, average));
    Reordered(inverse, frequency as real);
  }

  lemma Reordered(a: real, b: real)
    ensures a * b * 2.35 == 2.35 * Mul(a, b)
  {
  }

  lemma NonNegative(length: nat, average: real)
    requires average > 0.0
    ensures 0.72 * length as real / average >= 0.0
  {
  }

  lemma Groups(a: real, b: real, c: real)
    ensures Mul(Mul(a, b), c) == Mul(a, Mul(b, c))
  {
  }

  lemma Constants(a: real, b: real)
    ensures Mul(500.0 * a, One() * b) == 500.0 * One() * Mul(a, b) && Mul(a, 2.35 * b) == 2.35 * Mul(a, b)
  {
  }

  lemma CastThree(a: nat, b: nat, c: nat)
    ensures (a * b * c) as real == Mul(c as real, Mul(a as real, b as real))
  {
    hide Mul;
    Casts(a, b);
    var ab := a * b;
    Casts(c, ab);
    assert a * b * c == c * ab;
  }

  lemma LexicalNumbers(i: ScoreInput, t: TermStat)
    ensures (t.inverse * 1175 * t.frequency * i.totalLength) as real
            == 1175.0 * Mul(i.totalLength as real, Mul(t.inverse as real, t.frequency as real))
    ensures LexicalDenominator(i, t) as real
            == 500.0 * Mul(i.totalLength as real, t.frequency as real) + 189.0 * i.totalLength as real
               + 486.0 * Mul(i.total as real, i.length as real)
  {
    hide Mul;
    CastThree(t.inverse, t.frequency, i.totalLength);
    Casts(i.totalLength, t.frequency);
    Casts(i.total, i.length);
    var a := t.inverse * t.frequency * i.totalLength;
    assert t.inverse * 1175 * t.frequency * i.totalLength == 1175 * a;
    var tf, nl := i.totalLength * t.frequency, i.total * i.length;
    assert LexicalDenominator(i, t) == 500 * tf + 189 * i.totalLength + 486 * nl;
  }

  /** A quotient of multiples of the total length. */
  lemma SameQuotient(total: real, inverse: real, plain: real, frequency: real, sat: real, weight: real)
    requires One() * plain == inverse && Mul(sat, weight) == 2.35 * Mul(plain, frequency)
    ensures 1175.0 * Mul(total, Mul(inverse, frequency)) == Mul(500.0 * Mul(total, sat), One() * weight)
  {
    hide Mul;
    Constants(Mul(total, sat), weight);
    Groups(total, sat, weight);
    Constants(total, Mul(plain, frequency));
    Scales(plain, frequency);
    Scales(total, Mul(plain, frequency));
  }

  /** A term of the lexical sum is the weight of the first profile, rounded once. */
  lemma TermFollows(i: ScoreInput, t: TermStat)
    requires i.totalLength >= 1 && i.total >= 1
    ensures LexicalDenominator(i, t) > 0
    ensures Within(LexicalTerm(i, t) as real,
                   One() * TermWeight(Real(t.inverse), t.frequency, i.length, Average(i)), 0.5)
  {
    hide Mul, Real, TermWeight, Average;
    var v := Average(i);
    var spread := 0.72 * i.length as real / v;
    var sat, w := Saturation(t.frequency, spread), TermWeight(Real(t.inverse), t.frequency, i.length, v);
    AverageIs(i);
    WeightIs(Real(t.inverse), t.frequency, i.length, v);
    OnScale(t.inverse);
    LexicalNumbers(i, t);
    WeightMultiplied(i.totalLength as real, i.total as real, v, t.frequency as real, i.length as real, spread);
    SameQuotient(i.totalLength as real, t.inverse as real, Real(t.inverse), t.frequency as real, sat, w);
    RoundsTo(t.inverse * 1175 * t.frequency * i.totalLength, LexicalDenominator(i, t), One() * w);
  }

  lemma AverageIs(i: ScoreInput)
    requires i.totalLength >= 1 && i.total >= 1
    ensures Mul(i.total as real, Average(i)) == i.totalLength as real
  {
    QuotientIs(i.totalLength as real, i.total as real, Average(i));
  }

  lemma {:induction false} LexicalFollows(i: ScoreInput, k: nat)
    requires i.totalLength >= 1 && i.total >= 1 && k <= |i.terms|
    ensures forall j :: 0 <= j < k ==> LexicalDenominator(i, i.terms[j]) > 0
    ensures Within(Lexical(i, k) as real, One() * LexicalSum(i, k), 0.5 * k as real)
  {
    hide LexicalTerm, TermWeight, LexicalDenominator, Average, Real;
    if k > 0 {
      LexicalFollows(i, k - 1);
      TermFollows(i, i.terms[k - 1]);
    }
  }

  // ----- concepts and entities -----

  lemma SimilarityIs(query: set<Feature>, candidate: set<Feature>)
    ensures var c := SemanticCardinality(query, candidate);
      Mul((c.union * c.polarity) as real, Similarity(query, candidate)) == c.overlap as real
  {
    var left, right := Concepts(query), Concepts(candidate);
    var c := SemanticCardinality(query, candidate);
    if left * right != {} {
      assert c.overlap == |left * right| && c.union == |left + right| && c.union >= 1;
      var score := c.overlap as real / c.union as real;
      assert AtLeastOne(c.union) == c.union as real;
      QuotientIs(c.overlap as real, c.union as real, score);
      FourTimes(c.union, score);
    } else {
      assert c.overlap == 0;
    }
  }

  lemma FourTimes(union: nat, score: real)
    ensures Mul((union * 4) as real, score * 0.25) == Mul(union as real, score)
    ensures Mul((union * 1) as real, score) == Mul(union as real, score)
  {
  }

  lemma NineFourths(w: nat, sim: real)
    ensures Mul((4 * w) as real, One() * (sim * 2.25)) == 9.0 * One() * Mul(w as real, sim)
  {
  }

  lemma ConceptFollows(i: ScoreInput)
    ensures Within(ConceptQ(i) as real, One() * ConceptPart(i), 0.5)
  {
    hide Mul, Similarity, SemanticCardinality, Round;
    var c := SemanticCardinality(i.features, i.fragmentFeatures);
    SimilarityIs(i.features, i.fragmentFeatures);
    var w := c.union * c.polarity;
    MulMono(c.union, 1, c.polarity);
    NineFourths(w, Similarity(i.features, i.fragmentFeatures));
    assert 4 * c.union * c.polarity == 4 * w;
    RoundsTo(9 * c.overlap * SCALE, 4 * w, One() * ConceptPart(i));
  }

  /** Both halves of the entity part over one denominator. */
  lemma OverOne(tokens: real, s: real, matches: real, overlap: real, share: real, sim: real)
    requires Mul(tokens, share) == matches && Mul(s, sim) == overlap
    ensures Mul(2.0 * Mul(tokens, s), One() * ((share + sim) * 0.5)) == One() * (Mul(matches, s) + Mul(overlap, tokens))
  {
    hide Mul;
    HalfOf(Mul(tokens, s), share + sim);
    Distributes(Mul(tokens, s), share, sim);
    Groups(tokens, s, sim);
    Commutes(tokens, overlap);
    Commutes(tokens, s);
    Groups(s, tokens, share);
    Commutes(s, matches);
  }

  lemma HalfOf(a: real, b: real)
    ensures Mul(2.0 * a, One() * (b * 0.5)) == One() * Mul(a, b)
  {
  }

  lemma EntityNumbers(matches: nat, s: nat, overlap: nat, tokens: nat)
    ensures (SCALE * (matches * s + overlap * tokens)) as real
            == One() * (Mul(matches as real, s as real) + Mul(overlap as real, tokens as real))
    ensures (2 * tokens * s) as real == 2.0 * Mul(tokens as real, s as real)
  {
    hide Mul;
    Casts(matches, s);
    Casts(overlap, tokens);
    Casts(tokens, s);
    var a := tokens * s;
    assert 2 * tokens * s == 2 * a;
  }

  lemma EntityRounds(matches: nat, s: nat, overlap: nat, tokens: nat, share: real, sim: real)
    requires s >= 1 && tokens >= 1
    requires Mul(tokens as real, share) == matches as real && Mul(s as real, sim) == overlap as real
    ensures 2 * tokens * s > 0
    ensures Within(Round(SCALE * (matches * s + overlap * tokens), 2 * tokens * s) as real,
                   One() * ((share + sim) * 0.5), 0.5)
  {
    hide Mul, Round;
    MulMono(tokens, 1, s);
    ProductIsPositive(tokens, s);
    EntityNumbers(matches, s, overlap, tokens);
    OverOne(tokens as real, s as real, matches as real, overlap as real, share, sim);
    var n, d := SCALE * (matches * s + overlap * tokens), 2 * tokens * s;
    RoundsTo(n, d, One() * ((share + sim) * 0.5));
  }

  lemma ProductIsPositive(tokens: nat, s: nat)
    requires s >= 1 && tokens >= 1
    ensures 2 * tokens * s > 0
  {
    MulMono(tokens, 1, s);
    assert 2 * tokens * s == 2 * (tokens * s);
  }

  lemma EntityFollows(i: ScoreInput)
    ensures Within(EntityQ(i) as real, One() * EntityPart(i), 0.5)
  {
    hide Mul, Similarity, SemanticCardinality, Round;
    var c := SemanticCardinality(i.features, i.entityFeatures);
    var tokens: nat := if i.queryTokens > 1 then i.queryTokens else 1;
    var s := c.union * c.polarity;
    SimilarityIs(i.features, i.entityFeatures);
    var share := i.entityMatches as real / AtLeastOne(i.queryTokens);
    QuotientIs(i.entityMatches as real, tokens as real, share);
    MulMono(c.union, 1, c.polarity);
    EntityRounds(i.entityMatches, s, c.overlap, tokens, share, Similarity(i.features, i.entityFeatures));
  }

  /** The sum of the parts, each rounded once. */
  lemma BaseFollows(i: ScoreInput)
    requires i.totalLength >= 1 && i.total >= 1
    ensures !Degenerate(i) && Within(Base(i) as real, One() * Total(i), 0.5 * |i.terms| as real + 2.0)
  {
    hide LexicalDenominator, Lexical, LexicalSum, ConceptQ, EntityQ, ConceptPart, EntityPart, Round;
    LexicalFollows(i, |i.terms|);
    ConceptFollows(i);
    EntityFollows(i);
    PlainParts();
  }

  lemma PlainParts()
    ensures Within(Round(27 * SCALE, 20) as real, One() * 1.35, 0.5)
    ensures Within(Round(SCALE, 5) as real, One() * 0.20, 0.5)
  {
    RoundsTo(27 * SCALE, 20, One() * 1.35);
    RoundsTo(SCALE, 5, One() * 0.20);
  }

  // ----- the factors and the whole score -----

  /** The integer factors are the first profile's decimal ones. */
  lemma FactorsAre(i: ScoreInput)
    ensures var role := if i.userHint then (71, 50) else (1, 1);
      var kind := if i.episode then (1, 1) else (28, 25);
      var state := if i.historical then (18, 25) else (1, 1);
      && Mul((role.1 * kind.1 * state.1) as real, Factor(i)) == (role.0 * kind.0 * state.0) as real
      && role.1 * kind.1 * state.1 >= 1
    ensures 0.0 < Factor(i) <= 1.6
  {
  }

  lemma Thousands(d: real, k: real)
    ensures Mul(d, 1000.0 * k) == 1000.0 * Mul(d, k)
  {
  }

  lemma FinalNumbers(base: nat, m: nat, time: nat, den: nat, factor: real)
    requires Mul(den as real, factor) == m as real
    ensures (base * m * time * 1000) as real
            == Mul((den * SCALE * SCALE) as real, 1000.0 * Mul(Mul(factor, Real(time)), Real(base)))
  {
    hide Mul, Real;
    var b, t, k := Real(base), Real(time), Mul(factor, Real(time));
    OnScale(base);
    OnScale(time);
    CastThree(base, m, time);
    var a := base * m * time;
    assert base * m * time * 1000 == 1000 * a;
    Thousands((den * SCALE * SCALE) as real, Mul(k, b));
    Scales(One() * den as real, Mul(k, b));
    Scales(den as real, Mul(k, b));
    Groups(den as real, k, b);
    Groups(den as real, factor, t);
    Rearranged(base as real, m as real, time as real, b, t);
  }

  lemma Rearranged(base: real, m: real, time: real, b: real, t: real)
    requires One() * b == base && One() * t == time
    ensures Mul(time, Mul(base, m)) == One() * (One() * Mul(Mul(m, t), b))
  {
    hide Mul;
    Scales(t, Mul(base, m));
    Scales(b, m);
    Scales(t, Mul(b, m));
    Commutes(t, Mul(b, m));
    Groups(b, m, t);
    Commutes(b, Mul(m, t));
  }

  /** The final score is a thousand times the product of base, factors and time factor, rounded once. */
  lemma FinalFollows(i: ScoreInput, base: nat)
    ensures Within(Final(i, base) as real, 1000.0 * Mul(Mul(Factor(i), Real(i.timeFactor)), Real(base)), 0.5)
  {
    hide Mul, Real, Round, Factor;
    FactorsAre(i);
    var role := if i.userHint then (71, 50) else (1, 1);
    var kind := if i.episode then (1, 1) else (28, 25);
    var state := if i.historical then (18, 25) else (1, 1);
    var m, den := role.0 * kind.0 * state.0, role.1 * kind.1 * state.1;
    FinalNumbers(base, m, i.timeFactor, den, Factor(i));
    RoundsTo(base * m * i.timeFactor * 1000, den * SCALE * SCALE,
             1000.0 * Mul(Mul(Factor(i), Real(i.timeFactor)), Real(base)));
  }

  /** A thousand times the score of the first profile, with the given inverse frequencies and time factor. */
  ghost function FirstScore(i: ScoreInput): real
    requires i.totalLength >= 1 && i.total >= 1
  {
    1000.0 * (Total(i) * Factor(i) * Real(i.timeFactor))
  }

  lemma Product3(a: real, b: real, c: real)
    ensures a * b * c == Mul(Mul(b, c), a)
  {
  }

  /** A small error of the base stays small in the score. */
  lemma ErrorShrinks(k: real, e: real)
    requires 0.0 <= k <= 1.6 && -130.0 <= One() * e <= 130.0
    ensures -0.01 <= 1000.0 * Mul(k, e) <= 0.01
  {
    hide Mul;
    Scales(k, e);
    Monotone(k, One() * e, 130.0);
    Monotone(k, -130.0, One() * e);
    Negates(k, 130.0);
    OneThirty(k);
  }

  lemma OneThirty(k: real)
    ensures Mul(k, 130.0) == 130.0 * k
  {
  }

  /** The score is the first profile's, in thousandths, to within 0.51. */
  lemma ScoreFollowsFirst(i: ScoreInput)
    requires i.totalLength >= 1 && i.total >= 1 && |i.terms| <= 256 && i.timeFactor <= SCALE
    ensures !Degenerate(i) && Within(Final(i, Base(i)) as real, FirstScore(i), 0.51)
  {
    hide Mul, Real, Base, Total, Factor, Final, Degenerate, FirstScore;
    BaseFollows(i);
    FinalFollows(i, Base(i));
    FactorsAre(i);
    UnitTime(i.timeFactor);
    var f, t, b := Factor(i), Real(i.timeFactor), Real(Base(i));
    var k := Mul(f, t);
    NotNegative(f, t);
    Commutes(f, t);
    AtMost(t, f);
    OnScale(Base(i));
    Distributes(k, b, Total(i));
    ErrorShrinks(k, b - Total(i));
    FirstScoreIs(i);
  }

  lemma FirstScoreIs(i: ScoreInput)
    requires i.totalLength >= 1 && i.total >= 1
    ensures FirstScore(i) == 1000.0 * Mul(Mul(Factor(i), Real(i.timeFactor)), Total(i))
  {
    hide Mul, Real, Total, Factor;
    Product3(Total(i), Factor(i), Real(i.timeFactor));
  }

  lemma UnitTime(t: nat)
    requires t <= SCALE
    ensures 0.0 <= Real(t) <= 1.0
  {
  }
}
