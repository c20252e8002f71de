/** What the fixed-point logarithm means: its series loop stays near the series of the inverse
    hyperbolic tangent, and its constant is that series at one third, where the ratio is two. */
module LogAccuracy {
  import opened Ranking
  import opened ExpAccuracy

  /** x^(2j+1) */
  ghost function OddPower(x: real, j: nat): real {
    if j == 0 then x else Mul(OddPower(x, j - 1), Mul(x, x))
  }

  /** The first j terms x^(2i+1) / (2i+1) of the series of artanh x. */
  ghost function ArtanhSum(x: real, j: nat): real {
    if j == 0 then 0.0 else ArtanhSum(x, j - 1) + OddPower(x, j - 1) / (2 * j - 1) as real
  }

  lemma PartOf(p: real)
    ensures Mul(p, 0.125) == p / 8.0 && Mul(p, 0.34) == 0.34 * p
  {
  }

  lemma SquareIsSmall(x: real)
    requires 0.0 <= x <= 0.34
    ensures 0.0 <= Mul(x, x) <= 0.12
  {
    hide Mul;
    NotNegative(x, x);
    Monotone(x, x, 0.34);
    PartOf(x);
  }

  lemma {:induction false} PowerFalls(x: real, j: nat)
    requires 0.0 <= x <= 0.34
    ensures 0.0 <= OddPower(x, j) <= 0.34
    ensures j > 0 ==> 8.0 * OddPower(x, j) <= OddPower(x, j - 1)
  {
    hide Mul;
    if j > 0 {
      PowerFalls(x, j - 1);
      SquareIsSmall(x);
      OfSmall(OddPower(x, j - 1), Mul(x, x));
    }
  }

  /** A rounded product on the Q64 scale, of numbers near p and w. */
  lemma ProductNear(a: nat, b: nat, p: real, w: real)
    requires 0.0 <= p <= 0.34 && 0.0 <= w <= 0.12
    requires Close(a as real, p, 0.8) && Close(b as real, w, 0.5)
    ensures Close(Round(a * b, SCALE) as real, Mul(p, w), 0.8)
  {
    hide Round, Mul;
    var q := Round(a * b, SCALE);
    RoundIsNear(a * b, SCALE);
    Casts(a, b);
    assert (q * SCALE) as real == One() * q as real;
    ProductError(a as real, b as real, p, w);
  }

  lemma ProductError(a: real, b: real, p: real, w: real)
    requires 0.0 <= p <= 0.34 && 0.0 <= w <= 0.12 && 0.0 <= b && Close(a, p, 0.8) && Close(b, w, 0.5)
    ensures Within(Mul(a, b), One() * (One() * Mul(p, w)), One() * 0.28)
  {
    hide Mul;
    var e, f := a - One() * p, b - One() * w;
    Distributes(b, a, One() * p);
    Commutes(b, a);
    Commutes(b, One() * p);
    Distributes(One() * p, b, One() * w);
    Scales(p, One() * w);
    Scales(p, w);
    Scales(p, f);
    ErrorTimes(b, e);
    HalfTimes(p, f);
  }

  lemma ErrorTimes(b: real, e: real)
    requires 0.0 <= b <= 0.125 * One() && -0.8 <= e <= 0.8
    ensures -(One() * 0.1) <= Mul(b, e) <= One() * 0.1
  {
    hide Mul;
    Monotone(b, e, 0.8);
    Monotone(b, -0.8, e);
    Negates(b, 0.8);
    FourFifths(b);
  }

  lemma FourFifths(b: real)
    ensures Mul(b, 0.8) == 0.8 * b && Mul(b, 0.5) == 0.5 * b
  {
  }

  lemma HalfTimes(p: real, f: real)
    requires 0.0 <= p <= 0.34 && -0.5 <= f <= 0.5
    ensures -0.17 <= Mul(p, f) <= 0.17
  {
    hide Mul;
    Monotone(p, f, 0.5);
    Monotone(p, -0.5, f);
    Negates(p, 0.5);
    FourFifths(p);
  }

  lemma {:induction false} PowerIsNear(z: nat, j: nat)
    requires Real(z) <= 0.34
    ensures Close(SeriesPower(z, j) as real, OddPower(Real(z), j), 0.8)
  {
    hide Round, Mul, Real;
    OnScale(z);
    ReadsNotNegative(z);
    if j > 0 {
      PowerIsNear(z, j - 1);
      PowerFalls(Real(z), j - 1);
      SquareIsSmall(Real(z));
      SquareRounds(z);
      var a, b := SeriesPower(z, j - 1), Round(z * z, SCALE);
      ProductNear(a, b, OddPower(Real(z), j - 1), Mul(Real(z), Real(z)));
    }
  }

  lemma ReadsNotNegative(z: nat)
    ensures 0.0 <= Real(z)
  {
  }

  lemma SquareRounds(z: nat)
    ensures Close(Round(z * z, SCALE) as real, Mul(Real(z), Real(z)), 0.5)
  {
    hide Round, Mul, Real;
    var q := Round(z * z, SCALE);
    RoundIsNear(z * z, SCALE);
    Casts(z, z);
    OnScale(z);
    Scales(Real(z), z as real);
    Scales(Real(z), Real(z));
    assert (q * SCALE) as real == One() * q as real;
  }

  /** A term shared out among k and rounded. */
  lemma ShareNear(a: nat, p: real, k: nat)
    requires k >= 1 && Close(a as real, p, 0.8)
    ensures Close(Round(a, k) as real, p / k as real, 1.3)
  {
    hide Round, Mul;
    var q := Round(a, k);
    RoundIsNear(a, k);
    Casts(q, k);
    Commutes(q as real, k as real);
    Quotient(p, k as real);
    ShareError(q as real, k as real, p / k as real, a as real);
  }

  lemma ShareError(q: real, k: real, c: real, a: real)
    requires k >= 1.0 && Within(Mul(k, q), a, k / 2.0) && Close(a, Mul(k, c), 0.8)
    ensures Close(q, c, 1.3)
  {
    hide Mul;
    Distributes(k, q, One() * c);
    Scales(k, c);
    Negates(k, 1.3);
    Times(k);
    Cancels(k, q - One() * c, 1.3);
    Cancels(k, -1.3, q - One() * c);
  }

  lemma Times(k: real)
    ensures Mul(k, 1.3) == 1.3 * k
  {
  }

  /** Each turn of the series loop adds an error of at most 1.3 units. */
  lemma {:induction false} SeriesIsNear(z: nat, j: nat)
    requires Real(z) <= 0.34
    ensures Close(SeriesSum(z, j) as real, ArtanhSum(Real(z), j), 1.3 * j as real)
  {
    hide Round, Real, SeriesPower, OddPower;
    if j > 0 {
      SeriesIsNear(z, j - 1);
      PowerIsNear(z, j - 1);
      var a, p := SeriesPower(z, j - 1), OddPower(Real(z), j - 1);
      ShareNear(a, p, 2 * j - 1);
      assert 2 * (j - 1) + 1 == 2 * j - 1;
    }
  }

  lemma ShareIsLess(p: real, k: real)
    requires p >= 0.0 && k >= 1.0
    ensures 0.0 <= p / k <= p
  {
    hide Mul;
    Quotient(p, k);
    Units(k);
    Cancels(k, 0.0, p / k);
    AtLeast(k, p / k);
  }

  /** What the sum still changes after the k-th term. */
  lemma {:induction false} RestIsSmall(x: real, k: nat, n: nat)
    requires 0.0 <= x <= 0.34 && 0 < k <= n
    ensures ArtanhSum(x, k) <= ArtanhSum(x, n)
    ensures 7.0 * (ArtanhSum(x, n) - ArtanhSum(x, k)) <= OddPower(x, k - 1) - OddPower(x, n - 1)
    decreases n
  {
    hide OddPower;
    if k < n {
      RestIsSmall(x, k, n - 1);
      PowerFalls(x, n - 1);
      ShareIsLess(OddPower(x, n - 1), (2 * n - 1) as real);
    }
  }

  lemma {:induction false} PowerUnderEighths(x: real, j: nat)
    requires 0.0 <= x <= 0.34
    ensures Mul(Eighths(j), OddPower(x, j)) <= 1.0
  {
    hide Mul;
    if j > 0 {
      var w, t, p := Eighths(j - 1), OddPower(x, j), OddPower(x, j - 1);
      PowerUnderEighths(x, j - 1);
      PowerFalls(x, j);
      Monotone(w, 8.0 * t, p);
      Eights(w, t);
    } else {
      Commutes(1.0, x);
      Units(x);
    }
  }

  lemma {:induction false} PowersFall(x: real, k: nat, n: nat)
    requires 0.0 <= x <= 0.34 && k <= n
    ensures OddPower(x, n) <= OddPower(x, k)
    decreases n
  {
    hide OddPower;
    if k < n {
      PowerFalls(x, n);
      PowersFall(x, k, n - 1);
    }
  }

  lemma LastPower(x: real)
    requires 0.0 <= x <= 0.34
    ensures One() * OddPower(x, 31) <= 16.0
  {
    hide OddPower, Mul;
    PowersFall(x, 20, 31);
    PowerUnderEighths(x, 20);
    OneIs();
    assert Eighths(20) == One() / 16.0;
    Sixteenth(OddPower(x, 20));
  }

  /** The series loop is within 45 units of every later partial sum, and so of what they tend to. */
  lemma LogSeriesMeans(z: nat, n: nat)
    requires Real(z) <= 0.34 && n >= 32
    ensures Within(SeriesSum(z, 32) as real, One() * ArtanhSum(Real(z), n), 45.0)
  {
    hide SeriesSum, ArtanhSum, OddPower, Real, Mul;
    ReadsNotNegative(z);
    SeriesIsNear(z, 32);
    RestIsSmall(Real(z), 32, n);
    PowerFalls(Real(z), n - 1);
    LastPower(Real(z));
  }

  /** The logarithm's reduced ratio stays where the series converges fast. */
  lemma RatioIsReduced(n: nat, d: nat)
    requires n >= d > 0
    ensures var full := d * Pow2(Doublings(n, d));
      full <= n < 2 * full && Real(ReducedRatio(n, full)) <= 0.34
  {
    DoublingsFit(n, d);
    var full := d * Pow2(Doublings(n, d));
    ThirdAtMost(n, full);
  }

  lemma ThirdAtMost(n: nat, d: nat)
    requires d <= n < 2 * d
    ensures Real(ReducedRatio(n, d)) <= 0.34
  {
    hide Round;
    var m: nat := 6149000000000000000;
    assert (n - d) * SCALE <= m * (n + d) by {
      assert 3 * (n - d) <= n + d;
      assert (n - d) * SCALE <= 3 * (n - d) * m;
    }
    RoundAtMost((n - d) * SCALE, n + d, m);
  }

  // ----- the constant -----

  lemma NextPower(z: nat, j: nat, p: nat, total: nat, term: nat, next: nat)
    requires SeriesPower(z, j) == p && SeriesSum(z, j) == total
    requires term == Round(p, 2 * j + 1) && next == Round(p * Round(z * z, SCALE), SCALE)
    ensures SeriesPower(z, j + 1) == next && SeriesSum(z, j + 1) == total + term
  {
    hide Round;
  }

  lemma {:induction false} NoMorePowers(z: nat, j: nat, n: nat)
    requires j <= n && SeriesPower(z, j) == 0
    ensures SeriesPower(z, n) == 0 && SeriesSum(z, n) == SeriesSum(z, j)
    decreases n
  {
    if j < n {
      NoMorePowers(z, j, n - 1);
      assert Round(0, SCALE) == 0 && Round(0, 2 * (n - 1) + 1) == 0;
    }
  }

  const THIRD: nat := 6148914691236517205

  lemma ThirdIs()
    ensures Round(SCALE, 3) == THIRD && Round(THIRD * THIRD, SCALE) == 2049638230412172402
    ensures SeriesPower(THIRD, 0) == THIRD && SeriesSum(THIRD, 0) == 0
  {
  }

  lemma PowersOfThird1()
    ensures SeriesPower(THIRD, 7) == 1285585311391 && SeriesSum(THIRD, 7) == 6393154227564318075
  {
    hide SeriesPower, SeriesSum;
    ThirdIs();
    NextPower(THIRD, 0, 6148914691236517205, 0, 6148914691236517205, 683212743470724134);
    NextPower(THIRD, 1, 683212743470724134, 6148914691236517205, 227737581156908045, 75912527052302682);
    NextPower(THIRD, 2, 75912527052302682, 6376652272393425250, 15182505410460536, 8434725228033631);
    NextPower(THIRD, 3, 8434725228033631, 6391834777803885786, 1204960746861947, 937191692003737);
    NextPower(THIRD, 4, 937191692003737, 6393039738550747733, 104132410222637, 104132410222637);
    NextPower(THIRD, 5, 104132410222637, 6393143870960970370, 9466582747512, 11570267802515);
    NextPower(THIRD, 6, 11570267802515, 6393153337543717882, 890020600193, 1285585311391);
  }

  lemma PowersOfThird2()
    requires SeriesPower(THIRD, 7) == 1285585311391 && SeriesSum(THIRD, 7) == 6393154227564318075
    ensures SeriesPower(THIRD, 14) == 268784 && SeriesSum(THIRD, 14) == 6393154322601317484
  {
    hide SeriesPower, SeriesSum;
    ThirdIs();
    NextPower(THIRD, 7, 1285585311391, 6393154227564318075, 85705687426, 142842812377);
    NextPower(THIRD, 8, 142842812377, 6393154313270005501, 8402518375, 15871423597);
    NextPower(THIRD, 9, 15871423597, 6393154321672523876, 835338084, 1763491511);
    NextPower(THIRD, 10, 1763491511, 6393154322507861960, 83975786, 195943501);
    NextPower(THIRD, 11, 195943501, 6393154322591837746, 8519283, 21771500);
    NextPower(THIRD, 12, 21771500, 6393154322600357029, 870860, 2419056);
    NextPower(THIRD, 13, 2419056, 6393154322601227889, 89595, 268784);
  }

  lemma PowersOfThird3()
    requires SeriesPower(THIRD, 14) == 268784 && SeriesSum(THIRD, 14) == 6393154322601317484
    ensures SeriesPower(THIRD, 21) == 0 && SeriesSum(THIRD, 21) == 6393154322601327828
  {
    hide SeriesPower, SeriesSum;
    ThirdIs();
    NextPower(THIRD, 14, 268784, 6393154322601317484, 9268, 29865);
    NextPower(THIRD, 15, 29865, 6393154322601326752, 963, 3318);
    NextPower(THIRD, 16, 3318, 6393154322601327715, 101, 369);
    NextPower(THIRD, 17, 369, 6393154322601327816, 11, 41);
    NextPower(THIRD, 18, 41, 6393154322601327827, 1, 5);
    NextPower(THIRD, 19, 5, 6393154322601327828, 0, 1);
    NextPower(THIRD, 20, 1, 6393154322601327828, 0, 0);
  }

  lemma SeriesOfThird()
    ensures SeriesSum(THIRD, 32) == 6393154322601327828
  {
    hide SeriesPower, SeriesSum;
    PowersOfThird1();
    PowersOfThird2();
    PowersOfThird3();
    NoMorePowers(THIRD, 21, 32);
  }

  /** The constant for ln 2 is what the loop gives for the ratio two, four units apart. */
  lemma ConstantIsLogOfTwo()
    ensures LN2 - 2 * SeriesSum(ReducedRatio(2, 1), 32) == 4
  {
    ThirdIs();
    SeriesOfThird();
  }
}
