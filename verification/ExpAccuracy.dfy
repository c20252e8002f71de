/** What the fixed-point exponential means: how near it stays to the exponential series and to the
    exponential itself, that doubling the argument squares it, and that it falls. */
module ExpAccuracy {
  import opened Ranking

  ghost function One(): (r: real)
    ensures r > 0.0
  {
    SCALE as real
  }

  /** At most so many units apart. */
  ghost predicate Within(a: real, b: real, units: real) {
    -units <= a - b <= units
  }

  /** x^j / j! */
  ghost function PowerTerm(x: real, j: nat): real {
    if j == 0 then 1.0 else PowerTerm(x, j - 1) * x / j as real
  }

  /** The partial sum of the series of e^-x up to its j-th power. */
  ghost function ExpSum(x: real, j: nat): real {
    if j == 0 then 1.0
    else if j % 2 == 0 then ExpSum(x, j - 1) + PowerTerm(x, j)
    else ExpSum(x, j - 1) - PowerTerm(x, j)
  }

  /** The real number a Q64 number stands for. */
  ghost function Real(v: nat): real {
    v as real / One()
  }

  // ----- products of reals, by their laws alone -----

  ghost function Mul(a: real, b: real): real {
    a * b
  }

  lemma Commutes(a: real, b: real)
    ensures Mul(a, b) == Mul(b, a)
  {
  }

  lemma Distributes(a: real, b: real, c: real)
    ensures Mul(a, b + c) == Mul(a, b) + Mul(a, c) && Mul(a, b - c) == Mul(a, b) - Mul(a, c)
  {
  }

  lemma Monotone(k: real, a: real, b: real)
    requires k >= 0.0 && a <= b
    ensures Mul(k, a) <= Mul(k, b)
  {
  }

  lemma Cancels(k: real, a: real, b: real)
    requires k > 0.0 && Mul(k, a) <= Mul(k, b)
    ensures a <= b
  {
  }

  lemma Regroups(a: real, b: real, c: real)
    ensures Mul(a, Mul(b, c)) == Mul(b, Mul(a, c))
  {
  }

  lemma Units(a: real)
    ensures Mul(a, 0.0) == 0.0 && Mul(a, 1.0) == a
  {
  }

  lemma Negates(a: real, b: real)
    ensures Mul(a, -b) == -Mul(a, b)
  {
  }

  lemma Scales(a: real, b: real)
    ensures Mul(One() * a, b) == One() * Mul(a, b) && Mul(a, One() * b) == One() * Mul(a, b)
  {
  }

  lemma Eights(a: real, b: real)
    ensures Mul(8.0 * a, b) == 8.0 * Mul(a, b) && Mul(a, 8.0 * b) == 8.0 * Mul(a, b)
  {
  }

  lemma Twos(a: real, b: real)
    ensures Mul(2.0 * a, b) == 2.0 * Mul(a, b)
  {
  }

  lemma Parts(a: real)
    ensures Mul(a, 0.125) == a / 8.0 && Mul(a, 0.625) == 0.625 * a
  {
  }

  lemma Casts(a: nat, b: nat)
    ensures (a * b) as real == Mul(a as real, b as real)
  {
  }

  /** The quotient undoes the product. */
  lemma Quotient(a: real, k: real)
    requires k > 0.0
    ensures Mul(k, a / k) == a
  {
  }

  lemma NotNegative(a: real, b: real)
    requires a >= 0.0 && b >= 0.0
    ensures Mul(a, b) >= 0.0
  {
    hide Mul;
    Monotone(a, 0.0, b);
    Units(a);
  }

  lemma AtMost(a: real, b: real)
    requires a <= 1.0 && b >= 0.0
    ensures Mul(a, b) <= b
  {
    hide Mul;
    Monotone(b, a, 1.0);
    Units(b);
    Commutes(a, b);
  }

  lemma AtLeast(a: real, b: real)
    requires a >= 1.0 && b >= 0.0
    ensures Mul(a, b) >= b
  {
    hide Mul;
    Monotone(b, 1.0, a);
    Units(b);
    Commutes(a, b);
  }

  lemma OfSmall(a: real, x: real)
    requires a >= 0.0 && 0.0 <= x <= 0.125
    ensures 0.0 <= Mul(a, x) <= a / 8.0
  {
    hide Mul;
    NotNegative(a, x);
    Monotone(a, x, 0.125);
    Parts(a);
  }

  // ----- the terms of the series -----

  lemma NextTerm(x: real, j: nat)
    requires j > 0
    ensures Mul(j as real, PowerTerm(x, j)) == Mul(PowerTerm(x, j - 1), x)
  {
    hide Mul;
    var p, c := PowerTerm(x, j - 1), PowerTerm(x, j);
    assert c == p * x / j as real;
    QuotientOf(p, x, j as real, c);
  }

  lemma QuotientOf(p: real, x: real, k: real, c: real)
    requires k > 0.0 && c == p * x / k
    ensures Mul(k, c) == Mul(p, x)
  {
    Quotient(p * x, k);
  }

  lemma {:induction false} TermIsSmall(x: real, j: nat)
    requires 0.0 <= x <= 0.125
    ensures 0.0 <= PowerTerm(x, j)
    ensures j > 0 ==> 8.0 * PowerTerm(x, j) <= PowerTerm(x, j - 1)
  {
    hide Mul;
    if j > 0 {
      TermIsSmall(x, j - 1);
      NextTerm(x, j);
      ShareIsSmall(PowerTerm(x, j - 1), x, j as real, PowerTerm(x, j));
    } else {
      assert PowerTerm(x, 0) == 1.0;
    }
  }

  lemma ShareIsSmall(p: real, x: real, k: real, t: real)
    requires p >= 0.0 && 0.0 <= x <= 0.125 && k >= 1.0 && Mul(k, t) == Mul(p, x)
    ensures 0.0 <= t && 8.0 * t <= p
  {
    hide Mul;
    OfSmall(p, x);
    Units(k);
    Cancels(k, 0.0, t);
    AtLeast(k, t);
  }

  ghost function Eighths(j: nat): (r: real)
    ensures r > 0.0
  {
    if j == 0 then 1.0 else 8.0 * Eighths(j - 1)
  }

  lemma {:induction false} TermUnderEighths(x: real, j: nat)
    requires 0.0 <= x <= 0.125
    ensures Mul(Eighths(j), PowerTerm(x, j)) <= 1.0
  {
    hide Mul;
    if j > 0 {
      var w, t, p := Eighths(j - 1), PowerTerm(x, j), PowerTerm(x, j - 1);
      TermUnderEighths(x, j - 1);
      TermIsSmall(x, j);
      Monotone(w, 8.0 * t, p);
      Eights(w, t);
    } else {
      assert PowerTerm(x, 0) == 1.0;
      Units(1.0);
    }
  }

  /** What the sum still changes after the k-th term. */
  lemma {:induction false} TailIsSmall(x: real, k: nat, n: nat)
    requires 0.0 <= x <= 0.125 && k <= n
    ensures Within(7.0 * ExpSum(x, n), 7.0 * ExpSum(x, k), PowerTerm(x, k) - PowerTerm(x, n))
    decreases n
  {
    hide PowerTerm;
    if k < n {
      TailIsSmall(x, k, n - 1);
      TermIsSmall(x, n);
    }
  }

  // ----- the rounded terms -----

  lemma SmallReal(y: nat)
    requires y <= SCALE / 8
    ensures 0.0 <= Real(y) <= 0.125
  {
  }

  lemma OnScale(v: nat)
    ensures One() * Real(v) == v as real
  {
  }

  lemma RoundIsNear(n: nat, d: nat)
    requires d > 0
    ensures Within((Round(n, d) * d) as real, n as real, d as real / 2.0)
  {
    RoundIsHalfEven(n, d, Round(n, d));
  }

  lemma Triangle(a: real, b: real, c: real, u: real, v: real)
    requires Within(a, b, u) && Within(b, c, v)
    ensures Within(a, c, u + v)
  {
  }

  /** q is t times x shared out among j, rounded. */
  ghost predicate Rounded(q: real, j: real, t: real, x: real) {
    Within(Mul(j, q), Mul(t, x), j / 2.0)
  }

  /** So many units from the real r. */
  ghost predicate Close(v: real, r: real, units: real) {
    Within(v, One() * r, units)
  }

  lemma TermRounds(y: nat, j: nat, t: nat)
    requires j > 0
    ensures Rounded(Round(t * y, j * SCALE) as real, j as real, t as real, Real(y))
  {
    hide Mul, Round, Real;
    var q := Round(t * y, j * SCALE);
    RoundIsNear(t * y, j * SCALE);
    Casts(t, y);
    Casts(j, q);
    OnScale(y);
    Scales(t as real, Real(y));
    assert q * (j * SCALE) == SCALE * (j * q);
    assert (SCALE * (j * q)) as real == One() * Mul(j as real, q as real);
    assert (j * SCALE) as real == One() * j as real;
  }

  /** The error of a term, times the argument. */
  lemma Carried(x: real, t: real, p: real)
    requires 0.0 <= x <= 0.125 && Close(t, p, 0.625)
    ensures Close(Mul(t, x), Mul(p, x), 0.1)
  {
    hide Mul;
    var e := t - One() * p;
    Commutes(x, t);
    Commutes(x, One() * p);
    Distributes(x, t, One() * p);
    Scales(p, x);
    Monotone(x, e, 0.625);
    Monotone(x, -0.625, e);
    Negates(x, 0.625);
    Parts(x);
  }

  lemma Share(q: real, j: real, c: real)
    requires j >= 1.0 && Close(Mul(j, q), Mul(j, c), j / 2.0 + 0.1)
    ensures Close(q, c, 0.625)
  {
    hide Mul;
    Distributes(j, q, One() * c);
    Scales(j, c);
    Parts(j);
    Negates(j, 0.625);
    Cancels(j, q - One() * c, 0.625);
    Cancels(j, -0.625, q - One() * c);
  }

  lemma RoundedTerm(q: real, j: real, t: real, p: real, x: real, c: real)
    requires j >= 1.0 && 0.0 <= x <= 0.125 && Mul(j, c) == Mul(p, x)
    requires Rounded(q, j, t, x) && Close(t, p, 0.625)
    ensures Close(q, c, 0.625)
  {
    hide Mul;
    Carried(x, t, p);
    Triangle(Mul(j, q), Mul(t, x), One() * Mul(p, x), j / 2.0, 0.1);
    Share(q, j, c);
  }

  ghost predicate NearTerm(y: nat, j: nat) {
    Close(Term(y, j) as real, PowerTerm(Real(y), j), 0.625)
  }

  lemma TermFollows(y: nat, j: nat)
    requires y <= SCALE / 8 && j > 0 && NearTerm(y, j - 1)
    ensures NearTerm(y, j)
  {
    hide Mul, Real, Round, Rounded, Close;
    var t, q := Term(y, j - 1), Term(y, j);
    TermRounds(y, j, t);
    assert q == Round(t * y, j * SCALE);
    var x, p, c := Real(y), PowerTerm(Real(y), j - 1), PowerTerm(Real(y), j);
    NextTerm(x, j);
    SmallReal(y);
    RoundedTerm(q as real, j as real, t as real, p, x, c);
  }

  /** Each rounded term is within a unit of the real one. */
  lemma {:induction false} TermIsNear(y: nat, j: nat)
    requires y <= SCALE / 8
    ensures NearTerm(y, j)
  {
    hide NearTerm;
    if j > 0 {
      TermIsNear(y, j - 1);
      TermFollows(y, j);
    } else {
      FirstTermIsNear(y);
    }
  }

  lemma FirstTermIsNear(y: nat)
    ensures NearTerm(y, 0)
  {
  }

  /** So each rounded sum is within as many units as it has terms. */
  lemma {:induction false} SumIsNear(y: nat, j: nat)
    requires y <= SCALE / 8
    ensures Close(Alternating(y, j) as real, ExpSum(Real(y), j), j as real)
  {
    hide Term, PowerTerm, Real;
    if j > 0 {
      SumIsNear(y, j - 1);
      TermIsNear(y, j);
    }
  }

  lemma OneIs()
    ensures Eighths(20) * 16.0 == One()
  {
    assert Eighths(5) == 32768.0;
    assert Eighths(10) == 1073741824.0;
    assert Eighths(15) == 35184372088832.0;
  }

  /** Up to an eighth the value is within 23 units of every later partial sum of the exponential
      series, and so of what they tend to. */
  lemma ExpOfSmall(y: nat, n: nat)
    requires y <= SCALE / 8 && n >= 20
    ensures Within(ExpNegQ(y) as real, One() * ExpSum(Real(y), n), 23.0)
  {
    hide Alternating, PowerTerm, ExpSum, Round, ExpNegQ, Real, Mul;
    SmallIsSeries(y);
    SumIsNear(y, 20);
    SmallReal(y);
    var x := Real(y);
    TailIsSmall(x, 20, n);
    TermIsSmall(x, n);
    LastTerm(x);
  }

  lemma LastTerm(x: real)
    requires 0.0 <= x <= 0.125
    ensures One() * PowerTerm(x, 20) <= 16.0
  {
    hide PowerTerm, Mul;
    TermUnderEighths(x, 20);
    OneIs();
    assert Eighths(20) == One() / 16.0;
    Sixteenth(PowerTerm(x, 20));
  }

  lemma Sixteenth(p: real)
    ensures Mul(One() / 16.0, p) == One() * p / 16.0
  {
  }

  lemma SmallIsSeries(y: nat)
    requires y <= SCALE / 8
    ensures ExpNegQ(y) == Alternating(y, 20)
  {
    assert Shift(y, 0) == 0 && Round(y, Pow2(0)) == y;
    ExpInRange(y);
  }

  // ----- doubling the argument -----

  lemma {:induction false} ShiftOfDouble(v: nat, e: nat)
    requires 2 * v < 64 * SCALE && e < 9
    ensures Shift(2 * v, e + 1) == Shift(v, e) + 1
    decreases 9 - e
  {
    assert Pow2(e + 1) == 2 * Pow2(e);
    assert Pow2(8) == 256;
    if v > SCALE / 8 * Pow2(e) {
      if e < 8 {
        ShiftOfDouble(v, e + 1);
      }
    }
  }

  /** Doubling the argument squares the value, rounded once. */
  lemma ExpOfDouble(v: nat)
    requires SCALE / 8 < 2 * v < 64 * SCALE
    ensures ExpNegQ(2 * v) == Round(ExpNegQ(v) * ExpNegQ(v), SCALE)
  {
    hide Round, Alternating;
    var e := Shift(v, 0);
    assert Pow2(0) == 1;
    assert Shift(2 * v, 0) == Shift(2 * v, 1);
    ShiftOfDouble(v, 0);
    assert Pow2(e + 1) == 2 * Pow2(e);
    RoundScales(v, Pow2(e), 2);
    ExpInRange(v);
    ExpInRange(2 * v);
  }

  // ----- the value falls -----

  lemma Grows(k: real, p: real, p2: real, q: real, q2: real, x: real, x2: real)
    requires k >= 1.0 && Mul(k, q) == Mul(p, x) && Mul(k, q2) == Mul(p2, x2)
    requires 0.0 <= p <= p2 && 0.0 <= x <= x2
    ensures Mul(k, q2 - q) == Mul(x2, p2 - p) + Mul(x2 - x, p)
    ensures Mul(x2 - x, p) <= Mul(k, q2 - q) && q <= q2
  {
    hide Mul;
    Distributes(k, q2, q);
    Distributes(x2, p2, p);
    Distributes(p, x2, x);
    Commutes(p, x2);
    Commutes(p, x);
    Commutes(p2, x2);
    Commutes(p, x2 - x);
    NotNegative(x2, p2 - p);
    NotNegative(x2 - x, p);
    Units(k);
    Cancels(k, 0.0, q2 - q);
  }

  /** The change of one term, and of the next. */
  lemma Falls(k: real, p: real, q: real, x: real, x2: real, diff: real, next: real)
    requires k >= 1.0 && Mul(k, q) == Mul(p, x) && 0.0 <= x <= x2 <= 0.125 && 0.0 <= diff
    requires Mul(x2 - x, p) <= Mul(k, diff)
    requires Mul(k + 1.0, next) == Mul(x2, diff) + Mul(x2 - x, q) && 0.0 <= next
    ensures next <= diff
  {
    hide Mul;
    var d := x2 - x;
    Monotone(x, Mul(d, p), Mul(k, diff));
    Regroups(x, d, p);
    Regroups(x, k, diff);
    Regroups(d, k, q);
    Commutes(p, x);
    Cancels(k, Mul(d, q), Mul(x, diff));
    Commutes(x2, diff);
    Commutes(x, diff);
    OfSmall(diff, x2);
    OfSmall(diff, x);
    AtLeast(k + 1.0, next);
  }

  ghost function Change(x: real, x2: real, j: nat): real {
    PowerTerm(x2, j) - PowerTerm(x, j)
  }

  /** What is known of the change of a term from that of the one before. */
  ghost predicate Changes(x: real, x2: real, j: nat)
    requires j > 0
  {
    && Mul(x2 - x, PowerTerm(x, j - 1)) <= Mul(j as real, Change(x, x2, j))
    && Mul(j as real, Change(x, x2, j)) == Mul(x2, Change(x, x2, j - 1)) + Mul(x2 - x, PowerTerm(x, j - 1))
  }

  lemma {:induction false} TermsGrow(x: real, x2: real, j: nat)
    requires 0.0 <= x <= x2 <= 0.125
    ensures 0.0 <= Change(x, x2, j) && (j > 0 ==> Changes(x, x2, j))
  {
    hide Mul;
    if j > 0 {
      TermsGrow(x, x2, j - 1);
      NextChange(x, x2, j);
    } else {
      assert PowerTerm(x, 0) == PowerTerm(x2, 0);
    }
  }

  lemma NextChange(x: real, x2: real, j: nat)
    requires 0.0 <= x <= x2 <= 0.125 && j > 0 && 0.0 <= Change(x, x2, j - 1)
    ensures 0.0 <= Change(x, x2, j) && Changes(x, x2, j)
  {
    hide Mul;
    TermIsSmall(x, j - 1);
    NextTerm(x, j);
    NextTerm(x2, j);
    Grows(j as real, PowerTerm(x, j - 1), PowerTerm(x2, j - 1), PowerTerm(x, j), PowerTerm(x2, j), x, x2);
  }

  lemma ChangeFalls(x: real, x2: real, j: nat)
    requires 0.0 <= x <= x2 <= 0.125 && j > 0
    ensures Change(x, x2, j + 1) <= Change(x, x2, j)
  {
    hide Mul;
    TermsGrow(x, x2, j);
    TermsGrow(x, x2, j + 1);
    NextTerm(x, j);
    assert (j + 1) as real == j as real + 1.0;
    Falls(j as real, PowerTerm(x, j - 1), PowerTerm(x, j), x, x2, Change(x, x2, j), Change(x, x2, j + 1));
  }

  lemma {:induction false} SumFalls(x: real, x2: real, j: nat)
    requires 0.0 <= x <= x2 <= 0.125 && j > 0
    ensures ExpSum(x2, j) <= ExpSum(x, j)
    ensures j % 2 == 1 ==> ExpSum(x2, j) + Change(x, x2, j) <= ExpSum(x, j)
  {
    hide Changes;
    TermsGrow(x, x2, j);
    if j > 1 {
      SumFalls(x, x2, j - 1);
      ChangeFalls(x, x2, j - 1);
    }
  }

  lemma RealMonotone(a: nat, b: nat)
    requires a <= b
    ensures Real(a) <= Real(b)
  {
  }

  lemma SeriesFalls(a: nat, b: nat)
    requires a <= b <= SCALE / 8
    ensures Alternating(b, 20) <= Alternating(a, 20) + 40
  {
    hide Real, ExpSum, Alternating;
    SmallReal(a);
    SmallReal(b);
    RealMonotone(a, b);
    SumIsNear(a, 20);
    SumIsNear(b, 20);
    SumFalls(Real(a), Real(b), 20);
  }

  /** Squaring at most doubles a gap. */
  lemma SquareGap(s: nat, t: nat, g: nat)
    requires s <= SCALE && t <= SCALE && t <= s + g
    ensures Round(t * t, SCALE) <= Round(s * s, SCALE) + 2 * g + 1
  {
    hide Round;
    if t <= s {
      MulBoth(t, t, s, s);
      RoundMonotone(t * t, s * s, SCALE);
    } else {
      assert t * t - s * s == (t - s) * (t + s);
      MulBoth(t - s, t + s, g, 2 * SCALE);
      RoundGap(s * s, t * t, 2 * g);
    }
  }

  lemma RoundGap(n: nat, m: nat, g: nat)
    requires m <= n + g * SCALE
    ensures Round(m, SCALE) <= Round(n, SCALE) + g + 1
  {
    RoundIsHalfEven(n, SCALE, Round(n, SCALE));
    RoundIsHalfEven(m, SCALE, Round(m, SCALE));
  }

  lemma {:induction false} SquaredGap(s: nat, t: nat, g: nat, e: nat)
    requires s <= SCALE && t <= SCALE && t <= s + g
    ensures Squared(t, e) + 1 <= Squared(s, e) + (g + 1) * Pow2(e)
    decreases e
  {
    hide Round;
    if e > 0 {
      SquaredGap(s, t, g, e - 1);
      SquaredBounds(s, e - 1);
      SquaredBounds(t, e - 1);
      SquareGap(Squared(s, e - 1), Squared(t, e - 1), (g + 1) * Pow2(e - 1) - 1);
      assert (g + 1) * Pow2(e) == 2 * ((g + 1) * Pow2(e - 1));
    }
  }

  /** The argument reduced to at most an eighth, and its series. */
  ghost function Reduced(v: nat): nat
    requires v < 64 * SCALE
  {
    Round(v, Pow2(Shift(v, 0)))
  }

  lemma ExpParts(v: nat)
    requires v < 64 * SCALE
    ensures Reduced(v) <= SCALE / 8 && 0 <= Alternating(Reduced(v), 20) <= SCALE
    ensures ExpNegQ(v) == Squared(Alternating(Reduced(v), 20), Shift(v, 0))
  {
    hide Round, Alternating;
    ReducedIsSmall(v);
    SeriesInRange(Reduced(v));
    ExpInRange(v);
  }

  lemma SeriesInRange(y: nat)
    requires y <= SCALE / 8
    ensures 0 <= Alternating(y, 20) <= SCALE
  {
    hide Alternating, Term;
    AlternatingBounds(y, 20);
    FirstTerm(y);
  }

  /** Two arguments that are halved equally often. */
  lemma FallsWithin(a: nat, b: nat)
    requires a <= b < 64 * SCALE && Shift(a, 0) == Shift(b, 0)
    ensures ExpNegQ(b) + 1 <= ExpNegQ(a) + 41 * Pow2(Shift(b, 0))
  {
    hide Round, Alternating, ExpNegQ, Squared, Shift;
    ExpParts(a);
    ExpParts(b);
    RoundMonotone(a, b, Pow2(Shift(a, 0)));
    SeriesFalls(Reduced(a), Reduced(b));
    SquaredGap(Alternating(Reduced(a), 20), Alternating(Reduced(b), 20), 40, Shift(b, 0));
  }

  // ----- across the point where one more halving sets in -----

  const EIGHTH: nat := 0x2000_0000_0000_0000
  const SIXTEENTH: nat := 0x1000_0000_0000_0000

  lemma FirstSum(y: nat)
    ensures Term(y, 0) == SCALE && Alternating(y, 0) == SCALE
  {
  }

  /** One turn of the series loop on given numbers. */
  lemma NextSum(y: nat, j: nat, t: nat, a: int, next: nat)
    requires j > 0 && Term(y, j - 1) == t && Alternating(y, j - 1) == a && next == Round(t * y, j * SCALE)
    ensures Term(y, j) == next && Alternating(y, j) == a + Signed(next, j)
  {
    hide Round;
  }

  lemma {:induction false} NoMoreTerms(y: nat, j: nat, n: nat)
    requires j <= n && Term(y, j) == 0
    ensures Term(y, n) == 0 && Alternating(y, n) == Alternating(y, j)
    decreases n
  {
    if j < n {
      NoMoreTerms(y, j, n - 1);
      assert Round(0, n * SCALE) == 0;
    }
  }

  lemma SeriesOfEighth()
    ensures Alternating(EIGHTH, 20) == 16279194507819420733
  {
    hide Term, Alternating;
    FirstSum(EIGHTH);
    NextSum(EIGHTH, 1, 18446744073709551616, 18446744073709551616, 2305843009213693952);
    NextSum(EIGHTH, 2, 2305843009213693952, 16140901064495857664, 144115188075855872);
    NextSum(EIGHTH, 3, 144115188075855872, 16285016252571713536, 6004799503160661);
    NextSum(EIGHTH, 4, 6004799503160661, 16279011453068552875, 187649984473771);
    NextSum(EIGHTH, 5, 187649984473771, 16279199103053026646, 4691249611844);
    NextSum(EIGHTH, 6, 4691249611844, 16279194411803414802, 97734366913);
    NextSum(EIGHTH, 7, 97734366913, 16279194509537781715, 1745256552);
    NextSum(EIGHTH, 8, 1745256552, 16279194507792525163, 27269634);
    NextSum(EIGHTH, 9, 27269634, 16279194507819794797, 378745);
    NextSum(EIGHTH, 10, 378745, 16279194507819416052, 4734);
    NextSum(EIGHTH, 11, 4734, 16279194507819420786, 54);
    NextSum(EIGHTH, 12, 54, 16279194507819420732, 1);
    NextSum(EIGHTH, 13, 1, 16279194507819420733, 0);
    NoMoreTerms(EIGHTH, 13, 20);
  }

  lemma SeriesOfSixteenth()
    ensures Alternating(SIXTEENTH, 20) == 17329112349219823219
  {
    hide Term, Alternating;
    FirstSum(SIXTEENTH);
    NextSum(SIXTEENTH, 1, 18446744073709551616, 18446744073709551616, 1152921504606846976);
    NextSum(SIXTEENTH, 2, 1152921504606846976, 17293822569102704640, 36028797018963968);
    NextSum(SIXTEENTH, 3, 36028797018963968, 17329851366121668608, 750599937895083);
    NextSum(SIXTEENTH, 4, 750599937895083, 17329100766183773525, 11728124029611);
    NextSum(SIXTEENTH, 5, 11728124029611, 17329112494307803136, 146601550370);
    NextSum(SIXTEENTH, 6, 146601550370, 17329112347706252766, 1527099483);
    NextSum(SIXTEENTH, 7, 1527099483, 17329112349233352249, 13634817);
    NextSum(SIXTEENTH, 8, 13634817, 17329112349219717432, 106522);
    NextSum(SIXTEENTH, 9, 106522, 17329112349219823954, 740);
    NextSum(SIXTEENTH, 10, 740, 17329112349219823214, 5);
    NextSum(SIXTEENTH, 11, 5, 17329112349219823219, 0);
    NoMoreTerms(SIXTEENTH, 11, 20);
  }

  /** The value of one year's age. */
  lemma ExpOfOne()
    ensures ExpNegQ(SCALE) == 6786177901268885279
  {
    hide Round, Alternating;
    assert Pow2(0) == 1 && Pow2(1) == 2 && Pow2(2) == 4 && Pow2(3) == 8;
    assert Shift(SCALE, 3) == 3;
    assert Shift(SCALE, 0) == 3;
    RoundScales(EIGHTH, 1, 8);
    RoundIs(EIGHTH, 1, EIGHTH);
    ExpParts(SCALE);
    SeriesOfEighth();
    SquaresOfEighth();
  }

  lemma SquaresOfEighth()
    ensures Squared(16279194507819420733, 3) == 6786177901268885279
  {
    hide Squared;
    NoSquaring(16279194507819420733);
    NextSquare(16279194507819420733, 0, 16279194507819420733, 14366338729722795845);
    NextSquare(16279194507819420733, 1, 14366338729722795845, 11188515852577165303);
    NextSquare(16279194507819420733, 2, 11188515852577165303, 6786177901268885279);
  }

  lemma RoundIs(n: nat, d: nat, q: nat)
    requires d > 0 && HalfEven(n, d, q)
    ensures Round(n, d) == q
  {
    RoundIsHalfEven(n, d, q);
  }

  lemma NextSquare(t: nat, e: nat, s: nat, next: nat)
    requires Squared(t, e) == s && next == Round(s * s, SCALE)
    ensures Squared(t, e + 1) == next
  {
    hide Round;
  }

  lemma {:induction false} PowersGrow(k: nat, e: nat)
    requires k <= e
    ensures Pow2(k) <= Pow2(e) && (k < e ==> 2 * Pow2(k) <= Pow2(e))
    decreases e
  {
    if k < e {
      PowersGrow(k, e - 1);
    }
  }

  /** The largest argument that is halved e times. */
  ghost function Edge(e: nat): nat {
    EIGHTH * Pow2(e)
  }

  lemma EdgeIs(e: nat)
    requires e <= 8
    ensures Edge(e) < 64 * SCALE && Shift(Edge(e), 0) == e && Reduced(Edge(e)) == EIGHTH
  {
    hide Round;
    PowersGrow(e, 8);
    assert Pow2(8) == 256;
    var c := Edge(e);
    ShiftIsLeast(c, 0);
    var k := Shift(c, 0);
    if k < e {
      PowersGrow(k, e);
    }
    RoundScales(EIGHTH, 1, Pow2(e));
    RoundIs(EIGHTH, 1, EIGHTH);
  }

  lemma ExpAtEdge(e: nat)
    requires e <= 8
    ensures Edge(e) < 64 * SCALE && ExpNegQ(Edge(e)) == Squared(16279194507819420733, e)
  {
    hide Alternating, Squared, ExpNegQ, Reduced;
    EdgeIs(e);
    ExpParts(Edge(e));
    SeriesOfEighth();
  }

  lemma {:induction false} SquaredFront(t: int, e: nat)
    ensures Squared(t, e + 1) == Squared(Squared(t, 1), e)
  {
    hide Round;
    if e > 0 {
      SquaredFront(t, e - 1);
    }
  }

  lemma SquareOfSixteenth()
    ensures Squared(17329112349219823219, 1) == 16279194507819420732
  {
    NextSquare(17329112349219823219, 0, 17329112349219823219, 16279194507819420732);
  }

  lemma PastEdge(b: nat, e: nat)
    requires b < 64 * SCALE && Shift(b, 0) == e + 1
    ensures e <= 8 && Edge(e) < b && SIXTEENTH <= Reduced(b)
  {
    hide Round;
    ShiftIsLeast(b, 0);
    var c := Edge(e);
    RoundMonotone(c, b, Pow2(e + 1));
    assert c == Pow2(e + 1) * SIXTEENTH;
    RoundScales(SIXTEENTH, 1, Pow2(e + 1));
    RoundIs(SIXTEENTH, 1, SIXTEENTH);
  }

  /** The value just past the edge has not risen. */
  lemma FallsOverEdge(b: nat, e: nat)
    requires b < 64 * SCALE && Shift(b, 0) == e + 1
    ensures e <= 8 && ExpNegQ(b) <= ExpNegQ(Edge(e)) + 83 * Pow2(e)
  {
    hide Round, Alternating, ExpNegQ, Squared, Shift, Edge, Reduced;
    PastEdge(b, e);
    ExpParts(b);
    SeriesOfSixteenth();
    SeriesFalls(SIXTEENTH, Reduced(b));
    SquaredGap(17329112349219823219, Alternating(Reduced(b), 20), 40, e + 1);
    SquaredFront(17329112349219823219, e);
    SquareOfSixteenth();
    SquaredGap(16279194507819420733, 16279194507819420732, 0, e);
    ExpAtEdge(e);
    assert Pow2(e + 1) == 2 * Pow2(e);
  }

  lemma {:induction false} FallsFrom(a: nat, b: nat)
    requires a <= b < 64 * SCALE
    ensures ExpNegQ(b) <= ExpNegQ(a) + 84 * Pow2(Shift(b, 0))
    decreases Shift(b, 0)
  {
    hide Round, ExpNegQ, Shift;
    ShiftIsLeast(a, 0);
    ShiftIsLeast(b, 0);
    var e := Shift(b, 0);
    if Shift(a, 0) > e {
      assert false;
    } else if Shift(a, 0) == e {
      FallsWithin(a, b);
    } else {
      EdgeIs(e - 1);
      FallsOverEdge(b, e - 1);
      PowersGrow(Shift(a, 0), e - 1);
      assert a <= Edge(e - 1);
      FallsFrom(a, Edge(e - 1));
    }
  }

  /** A larger argument never has a value more than 43008 units above that of a smaller one. */
  lemma ExpFalls(a: nat, b: nat)
    requires a <= b
    ensures ExpNegQ(b) <= ExpNegQ(a) + 43008
  {
    if b < 64 * SCALE {
      hide Round, ExpNegQ, Shift;
      FallsFrom(a, b);
      ShiftIsLeast(b, 0);
      PowersGrow(Shift(b, 0), 9);
      assert Pow2(9) == 512;
    }
  }

  /** An older record never has a time factor more than a few thousand units above a younger one. */
  lemma OlderIsNotFresher(older: int, younger: int, rankingTimeMs: int)
    requires older <= younger
    ensures TimeFactorQ(older, rankingTimeMs) <= TimeFactorQ(younger, rankingTimeMs) + 7743
  {
    hide Round, ExpNegQ;
    var now := rankingTimeMs * 1000;
    var a := if now > younger then now - younger else 0;
    var b := if now > older then now - older else 0;
    var x, y := Round(a * SCALE, YEAR_US), Round(b * SCALE, YEAR_US);
    RoundMonotone(a * SCALE, b * SCALE, YEAR_US);
    ExpFalls(x, y);
    var m, n := 41 * SCALE + 9 * ExpNegQ(x), 41 * SCALE + 9 * ExpNegQ(y);
    RoundIsHalfEven(m, 50, Round(m, 50));
    RoundIsHalfEven(n, 50, Round(n, 50));
  }

  // ----- against the exponential itself -----

  /** What singles out the function e^-x: sums of arguments become products, and up to an eighth it
      lies between the odd and the even partial sums of the series. */
  ghost predicate IsExponential(f: real -> real) {
    && (forall a: real, b: real :: 0.0 <= a && 0.0 <= b ==> f(a + b) == f(a) * f(b))
    && (forall x: real, n: nat :: 0.0 <= x <= 0.125 ==>
          if n % 2 == 1 then ExpSum(x, n) <= f(x) else f(x) <= ExpSum(x, n))
  }

  lemma Added(f: real -> real, a: real, b: real)
    requires IsExponential(f) && 0.0 <= a && 0.0 <= b
    ensures f(a + b) == Mul(f(a), f(b))
  {
    assert f(a + b) == f(a) * f(b);
  }

  lemma Straddled(f: real -> real, x: real, n: nat)
    requires IsExponential(f) && 0.0 <= x <= 0.125
    ensures if n % 2 == 1 then ExpSum(x, n) <= f(x) else f(x) <= ExpSum(x, n)
  {
  }

  lemma FirstSums(x: real)
    ensures ExpSum(x, 0) == 1.0 && ExpSum(x, 1) == 1.0 - x
  {
    assert PowerTerm(x, 0) == 1.0;
    assert PowerTerm(x, 1) == x;
  }

  lemma {:induction false} InUnit(f: real -> real, x: real, e: nat)
    requires IsExponential(f) && 0.0 <= x && 8.0 * x <= Pow2(e) as real
    ensures 0.0 <= f(x) <= 1.0
    decreases e
  {
    hide IsExponential, Mul;
    if e > 0 {
      var h := x / 2.0;
      InUnit(f, h, e - 1);
      Added(f, h, h);
      assert h + h == x;
      NotNegative(f(h), f(h));
      AtMost(f(h), f(h));
    } else {
      FirstSums(x);
      Straddled(f, x, 0);
      Straddled(f, x, 1);
    }
  }

  /** Arguments a little apart have values no further apart. */
  lemma Slope(f: real -> real, a: real, b: real, e: nat)
    requires IsExponential(f) && 0.0 <= a <= b <= a + 0.125 && 8.0 * a <= Pow2(e) as real
    ensures 0.0 <= f(a) - f(b) <= b - a
  {
    hide IsExponential, Mul, ExpSum;
    var d := b - a;
    InUnit(f, a, e);
    FirstSums(d);
    Straddled(f, d, 0);
    Straddled(f, d, 1);
    Added(f, a, d);
    assert a + d == b;
    Distributes(f(a), 1.0, f(d));
    Units(f(a));
    NotNegative(f(a), 1.0 - f(d));
    AtMost(f(a), 1.0 - f(d));
  }

  lemma SmallIsExponential(f: real -> real, y: nat)
    requires IsExponential(f) && y <= SCALE / 8
    ensures Close(ExpNegQ(y) as real, f(Real(y)), 23.0)
  {
    hide ExpSum, Real, ExpNegQ, IsExponential;
    SmallReal(y);
    var x := Real(y);
    ExpOfSmall(y, 20);
    ExpOfSmall(y, 21);
    Straddled(f, x, 20);
    Straddled(f, x, 21);
  }

  /** The argument after e doublings, and how far off its value may be. */
  ghost function Grown(x: real, e: nat): real {
    Mul(Pow2(e) as real, x)
  }

  ghost function Slack(e: nat): real {
    24.0 * Pow2(e) as real - 1.0
  }

  lemma SlackGrows(e: nat)
    ensures Slack(e) >= 23.0 && Slack(e + 1) == 2.0 * Slack(e) + 1.0 && Slack(0) == 23.0
  {
  }

  lemma Grow(x: real, e: nat)
    requires 0.0 <= x <= 0.125
    ensures 0.0 <= Grown(x, e) && 8.0 * Grown(x, e) <= Pow2(e) as real
    ensures Grown(x, e + 1) == 2.0 * Grown(x, e) && Grown(x, 0) == x
  {
    hide Mul;
    var k := Pow2(e) as real;
    OfSmall(k, x);
    assert Pow2(e + 1) as real == 2.0 * k;
    Twos(k, x);
    assert Pow2(0) as real == 1.0;
    Commutes(1.0, x);
    Units(x);
  }

  /** The square of a value near r, on the Q64 scale. */
  lemma SquareNear(t: nat, r: real, g: real)
    requires t <= SCALE && 0.0 <= r <= 1.0 && g >= 0.0 && Close(t as real, r, g)
    ensures Close(Round(t * t, SCALE) as real, Mul(r, r), 2.0 * g + 1.0)
  {
    hide Round, Mul;
    var q := Round(t * t, SCALE);
    RoundIsNear(t * t, SCALE);
    Casts(t, t);
    SquareError(t as real, r, g);
    assert (q * SCALE) as real == One() * q as real;
  }

  lemma SquareError(t: real, r: real, g: real)
    requires 0.0 <= t <= One() && 0.0 <= r <= 1.0 && g >= 0.0 && Close(t, r, g)
    ensures Within(Mul(t, t), One() * (One() * Mul(r, r)), One() * (2.0 * g))
  {
    hide Mul;
    var w := One() * r;
    Scales(r, w);
    Scales(r, r);
    Squares(t, w);
    Apart(t + w, t - w, g);
  }

  lemma Squares(t: real, w: real)
    ensures Mul(t, t) - Mul(w, w) == Mul(t + w, t - w)
  {
    hide Mul;
    Distributes(t + w, t, w);
    Distributes(t, t, w);
    Distributes(w, t, w);
    Commutes(t + w, t);
    Commutes(t + w, w);
    Commutes(t, w);
  }

  lemma Apart(a: real, d: real, g: real)
    requires 0.0 <= a <= 2.0 * One() && -g <= d <= g && 0.0 <= g
    ensures -(One() * (2.0 * g)) <= Mul(a, d) <= One() * (2.0 * g)
  {
    hide Mul;
    Monotone(a, d, g);
    Monotone(a, -g, d);
    Negates(a, g);
    Commutes(a, g);
    Monotone(g, a, One() * 2.0);
    Scales(g, 2.0);
    Commutes(g, 2.0);
    Units(g);
    Twos(1.0, g);
    Commutes(1.0, g);
  }

  /** Squaring e times doubles the argument e times. */
  lemma {:induction false} SquaredIsNear(f: real -> real, t: nat, x: real, e: nat)
    requires IsExponential(f) && t <= SCALE && 0.0 <= x <= 0.125 && Close(t as real, f(x), 23.0)
    ensures Close(Squared(t, e) as real, f(Grown(x, e)), Slack(e))
    decreases e
  {
    hide Round, IsExponential, Close, Grown, Slack, Mul;
    if e > 0 {
      var h := Grown(x, e - 1);
      SquaredIsNear(f, t, x, e - 1);
      SquaredBounds(t, e - 1);
      NextSquaring(t, e - 1);
      Grow(x, e - 1);
      SlackGrows(e - 1);
      InUnit(f, h, e - 1);
      Added(f, h, h);
      assert h + h == 2.0 * h;
      var s, r, g := Squared(t, e - 1), f(h), Slack(e - 1);
      SquareNear(s, r, g);
      var q, p, k := Round(s * s, SCALE), Mul(r, r), 2.0 * g + 1.0;
      assert q == Squared(t, e) && p == f(Grown(x, e)) && k == Slack(e);
      assert Close(q as real, p, k);
    } else {
      NoSquaring(t);
      Grow(x, 0);
      SlackGrows(0);
    }
  }

  lemma NextSquaring(t: int, e: nat)
    ensures Squared(t, e + 1) == Round(Squared(t, e) * Squared(t, e), SCALE) && Pow2(e + 1) == 2 * Pow2(e)
  {
  }

  lemma NoSquaring(t: int)
    ensures Squared(t, 0) == t && Pow2(0) == 1
  {
  }

  /** Reducing and doubling back moves the argument by at most half of what one unit became. */
  lemma ReducedIsNear(v: nat)
    requires v < 64 * SCALE
    ensures var e := Shift(v, 0);
      Within(One() * Grown(Real(Reduced(v)), e), One() * Real(v), Pow2(e) as real / 2.0)
  {
    hide Round, Shift, Real, Mul;
    var e, y := Shift(v, 0), Reduced(v);
    RoundIsNear(v, Pow2(e));
    OnScale(v);
    OnScale(y);
    Scales(Pow2(e) as real, Real(y));
    Casts(y, Pow2(e));
    Commutes(y as real, Pow2(e) as real);
  }

  lemma SlopeOnScale(f: real -> real, a: real, b: real, k: real)
    requires IsExponential(f) && 0.0 <= a && 8.0 * a <= 512.0 && 0.0 <= b && 8.0 * b <= 512.0
    requires k <= 256.0 && Within(One() * a, One() * b, k)
    ensures Within(One() * f(a), One() * f(b), k)
  {
    hide IsExponential;
    assert Pow2(9) as real == 512.0 by { assert Pow2(9) == 512; }
    if a <= b {
      Slope(f, a, b, 9);
    } else {
      Slope(f, b, a, 9);
    }
  }

  lemma AtReduced(f: real -> real, v: nat)
    requires IsExponential(f) && v < 64 * SCALE
    ensures var e := Shift(v, 0); Close(ExpNegQ(v) as real, f(Grown(Real(Reduced(v)), e)), Slack(e))
  {
    hide IsExponential, Shift, Real, Grown, Slack, ExpNegQ, Reduced, Alternating;
    ExpParts(v);
    var y, e := Reduced(v), Shift(v, 0);
    SmallIsSeries(y);
    SmallReal(y);
    SmallIsExponential(f, y);
    SquaredIsNear(f, Alternating(y, 20), Real(y), e);
  }

  lemma ShiftUnits(v: nat)
    requires v < 64 * SCALE
    ensures var e := Shift(v, 0); Pow2(e) as real <= 512.0 && Slack(e) <= 12287.0
    ensures 0.0 <= Real(v) && 8.0 * Real(v) <= 512.0
  {
    hide Shift;
    ShiftIsLeast(v, 0);
    PowersGrow(Shift(v, 0), 9);
    assert Pow2(9) == 512;
  }

  /** Below 64 the value is within 12543 units of the exponential. */
  lemma BelowTheCut(f: real -> real, v: nat)
    requires IsExponential(f) && v < 64 * SCALE
    ensures Within(ExpNegQ(v) as real, One() * f(Real(v)), 12543.0)
  {
    hide IsExponential, Shift, Real, Grown, Slack, ExpNegQ, Reduced;
    var e := Shift(v, 0);
    var x := Real(Reduced(v));
    AtReduced(f, v);
    ShiftUnits(v);
    ExpParts(v);
    SmallReal(Reduced(v));
    Grow(x, e);
    ReducedIsNear(v);
    SlopeOnScale(f, Grown(x, e), Real(v), Pow2(e) as real / 2.0);
  }

  lemma UnderSquare(f: real -> real, x: real, u: real, w: real)
    requires IsExponential(f) && 0.0 <= x && 0.0 <= f(x) <= u && Mul(u, u) <= w
    ensures 0.0 <= f(2.0 * x) <= w
  {
    hide IsExponential, Mul;
    Added(f, x, x);
    assert x + x == 2.0 * x;
    NotNegative(f(x), f(x));
    Monotone(f(x), f(x), u);
    Commutes(f(x), u);
    Monotone(u, f(x), u);
  }

  lemma EighthSum()
    ensures ExpSum(0.125, 2) <= 0.883
  {
    FirstSums(0.125);
    assert PowerTerm(0.125, 1) == 0.125;
    assert PowerTerm(0.125, 2) == 0.0078125;
  }

  /** Past the cut the exponential is less than a unit. */
  lemma AtTheCut(f: real -> real)
    requires IsExponential(f)
    ensures 0.0 <= One() * f(64.0) <= 1.0
  {
    hide IsExponential, ExpSum, Mul;
    EighthSum();
    Straddled(f, 0.125, 2);
    InUnit(f, 0.125, 0);
    SquareOf(0.883, 0.78);
    UnderSquare(f, 0.125, 0.883, 0.78);
    SquareOf(0.78, 0.61);
    UnderSquare(f, 0.25, 0.78, 0.61);
    SquareOf(0.61, 0.38);
    UnderSquare(f, 0.5, 0.61, 0.38);
    SquareOf(0.38, 0.15);
    UnderSquare(f, 1.0, 0.38, 0.15);
    FromTwo(f);
  }

  lemma FromTwo(f: real -> real)
    requires IsExponential(f) && 0.0 <= f(2.0) <= 0.15
    ensures 0.0 <= One() * f(64.0) <= 1.0
  {
    hide IsExponential, Mul;
    SquareOf(0.15, 0.023);
    UnderSquare(f, 2.0, 0.15, 0.023);
    SquareOf(0.023, 0.00053);
    UnderSquare(f, 4.0, 0.023, 0.00053);
    SquareOf(0.00053, 0.0000003);
    UnderSquare(f, 8.0, 0.00053, 0.0000003);
    SquareOf(0.0000003, 0.0000000000001);
    UnderSquare(f, 16.0, 0.0000003, 0.0000000000001);
    SquareOf(0.0000000000001, 0.00000000000000000000000001);
    UnderSquare(f, 32.0, 0.0000000000001, 0.00000000000000000000000001);
  }

  lemma SquareOf(u: real, w: real)
    requires u * u <= w
    ensures Mul(u, u) <= w
  {
  }

  lemma {:induction false} EnoughPowers(n: nat)
    ensures n < Pow2(n)
  {
    if n > 0 {
      EnoughPowers(n - 1);
    }
  }

  lemma AnyInUnit(f: real -> real, x: real)
    requires IsExponential(f) && 0.0 <= x
    ensures 0.0 <= f(x) <= 1.0
  {
    hide IsExponential;
    var n: nat := (8.0 * x).Floor + 1;
    EnoughPowers(n);
    InUnit(f, x, n);
  }

  /** For every age the value is within 12543 units of the exponential: less than 2^-50. */
  lemma ExpIsExponential(f: real -> real, v: nat)
    requires IsExponential(f)
    ensures Within(ExpNegQ(v) as real, One() * f(Real(v)), 12543.0)
  {
    hide IsExponential, Real, Mul, ExpNegQ;
    if v < 64 * SCALE {
      BelowTheCut(f, v);
    } else {
      AtTheCut(f);
      PastTheCut(v);
      var rest := Real(v) - 64.0;
      AnyInUnit(f, rest);
      Added(f, 64.0, rest);
      assert 64.0 + rest == Real(v);
      NotNegative(f(64.0), f(rest));
      Commutes(f(64.0), f(rest));
      AtMost(f(rest), f(64.0));
    }
  }

  lemma PastTheCut(v: nat)
    requires v >= 64 * SCALE
    ensures Real(v) >= 64.0 && ExpNegQ(v) == 0
  {
  }
}
