/** The Wilson score interval of `eval/stats.py`, over exact reals. The square root is the one real the code takes from
    `math.sqrt`: here it is an argument with the property that defines it. */
module Wilson {

  /** An interval, Python's `None` without a trial, or a raised `ValueError`. */
  datatype Interval = Interval(low: real, high: real) | NoInterval | InvalidProportion

  function Square(x: real): real {
    x * x
  }

  /** The variance of one trial that succeeds with probability `p`. */
  function Variance(p: real): real {
    p * (1.0 - p)
  }

  function Rate(successes: nat, trials: nat): real
    requires trials > 0
  {
    successes as real / trials as real
  }

  function Scale(z: real, trials: nat): real
    requires trials > 0
  {
    Square(z) / trials as real
  }

  /** What the code takes the square root of. */
  function Radicand(successes: nat, trials: nat, z: real): real
    requires trials > 0
  {
    Variance(Rate(successes, trials)) / trials as real + Scale(z, trials) / (4.0 * trials as real)
  }

  ghost predicate IsRoot(root: real, x: real) {
    root >= 0.0 && Square(root) == x
  }

  function Centre(rate: real, scale: real): real
    requires scale >= 0.0
  {
    (rate + scale / 2.0) / (1.0 + scale)
  }

  function Half(z: real, root: real, scale: real): real
    requires scale >= 0.0
  {
    z * root / (1.0 + scale)
  }

  function Max(a: real, b: real): real {
    if a >= b then a else b
  }

  function Min(a: real, b: real): real {
    if a <= b then a else b
  }

  function Wilson(successes: int, trials: int, z: real, root: real): (interval: Interval)
    requires z >= 0.0
    ensures interval.InvalidProportion? <==> successes < 0 || successes > trials
    ensures interval.NoInterval? <==> successes == 0 && trials == 0
  {
    if !(0 <= successes <= trials) then InvalidProportion
    else if trials == 0 then NoInterval
    else
      ScaleNonNegative(z, trials);
      var rate, scale := Rate(successes, trials), Scale(z, trials);
      var centre, half := Centre(rate, scale), Half(z, root, scale);
      Interval(Max(0.0, centre - half), Min(1.0, centre + half))
  }

  lemma ScaleNonNegative(z: real, trials: nat)
    requires trials > 0
    ensures Scale(z, trials) >= 0.0
  {
    Quotient(Square(z), trials as real);
    SignOfQuotient(Scale(z, trials), Square(z), trials as real);
  }

  lemma Quotient(a: real, b: real)
    requires b > 0.0
    ensures (a / b) * b == a
  {
  }

  lemma SignOfQuotient(x: real, a: real, b: real)
    requires b > 0.0 && a >= 0.0 && x * b == a
    ensures x >= 0.0
  {
  }

  // ---- Squares and intervals ----

  lemma SquareOrder(x: real, y: real)
    requires x >= 0.0 && y >= 0.0
    ensures Square(x) <= Square(y) <==> x <= y
  {
    if x <= y {
      assert x * x <= x * y <= y * y;
    } else {
      Positive(x - y, x + y);
      assert x * x - y * y == (x - y) * (x + y);
    }
  }

  lemma Positive(x: real, y: real)
    requires x > 0.0 && y > 0.0
    ensures x * y > 0.0
  {
  }

  lemma SquarePositive(x: real)
    requires x != 0.0
    ensures Square(x) > 0.0
    decreases x < 0.0
  {
    if x > 0.0 {
      SquareOrder(x, 0.0);
      assert Square(0.0) == 0.0;
    } else {
      SquarePositive(-x);
      SquareOfNegation(x);
    }
  }

  lemma SquareOfNegation(x: real)
    ensures Square(-x) == Square(x)
  {
  }

  lemma WithinHalf(p: real, c: real, h: real)
    requires h >= 0.0
    ensures c - h <= p <= c + h <==> Square(p - c) <= Square(h)
  {
    if p >= c {
      SquareOrder(p - c, h);
    } else {
      SquareOrder(c - p, h);
      SquareOfNegation(c - p);
      assert -(c - p) == p - c;
    }
  }

  lemma SquareOfProduct(d: real, x: real)
    ensures Square(d * x) == Square(d) * Square(x)
  {
    assert (d * x) * (d * x) == d * (x * d) * x == (d * d) * (x * x);
  }

  lemma ScaledSquares(d: real, x: real, y: real)
    requires d > 0.0
    ensures Square(d * x) <= Square(d * y) <==> Square(x) <= Square(y)
  {
    SquareOfProduct(d, x);
    SquareOfProduct(d, y);
    SquarePositive(d);
    FactorOut(Square(d), Square(x), Square(y));
  }

  lemma FactorOut(d: real, x: real, y: real)
    requires d > 0.0
    ensures d * x <= d * y <==> x <= y
  {
    if x <= y {
      assert d * (y - x) >= 0.0;
    } else {
      assert d * (x - y) > 0.0;
    }
  }

  // ---- The quadratic behind the interval ----

  /** How far `p` is from satisfying the score test, scaled by the number of trials. */
  ghost function Excess(rate: real, scale: real, p: real): real {
    Square(rate - p) - scale * Variance(p)
  }

  lemma SquareOfSum(a: real, b: real)
    ensures Square(a + b) == Square(a) + 2.0 * (a * b) + Square(b)
  {
  }

  lemma CentredSquare(k: real, p: real)
    ensures Square(k * (p - 0.5)) == Square(k) * (0.25 - Variance(p))
  {
    SquareOfProduct(k, p - 0.5);
    assert Square(p - 0.5) == 0.25 - Variance(p);
  }

  lemma CrossTerm(r: real, k: real, p: real)
    ensures 2.0 * ((p - r) * (k * (p - 0.5))) == k * (Square(p - r) - Variance(p)) + k * Variance(r)
  {
    var x, y := (p - r) * (p - 0.5), Square(p - r) - Variance(p);
    assert (p - r) * (k * (p - 0.5)) == k * x;
    assert 2.0 * x == y + Variance(r);
    assert 2.0 * (k * x) == k * (y + Variance(r));
  }

  lemma Factored(k: real, x: real, v: real)
    ensures x + k * (x - v) + Square(k) * (0.25 - v) == (1.0 + k) * (x - k * v) + Square(k) / 4.0
  {
    assert (1.0 + k) * (x - k * v) == x - k * v + k * (x - k * v);
    assert k * (x - k * v) == k * x - Square(k) * v;
    assert k * (x - v) == k * x - k * v;
    assert Square(k) * (0.25 - v) == Square(k) / 4.0 - Square(k) * v;
  }

  lemma Quadratic(r: real, k: real, p: real)
    ensures Square((p - r) + k * (p - 0.5)) == (1.0 + k) * Excess(r, k, p) + (k * Variance(r) + Square(k) / 4.0)
  {
    var x, v := Square(p - r), Variance(p);
    assert Square(r - p) == x by {
      SquareOfNegation(p - r);
      assert -(p - r) == r - p;
    }
    assert Excess(r, k, p) == x - k * v;
    SquareOfSum(p - r, k * (p - 0.5));
    CentredSquare(k, p);
    CrossTerm(r, k, p);
    assert Square((p - r) + k * (p - 0.5)) == x + (k * (x - v) + k * Variance(r)) + Square(k) * (0.25 - v);
    Factored(k, x, v);
  }

  /** The equations that the endpoints' centre and half width solve. */
  ghost predicate Solves(r: real, k: real, c: real, h: real) {
    && k >= 0.0 && h >= 0.0
    && (1.0 + k) * c == r + k / 2.0
    && Square((1.0 + k) * h) == k * Variance(r) + Square(k) / 4.0
  }

  /** The score test for one `p`. */
  lemma Inside(r: real, k: real, p: real, c: real, h: real)
    requires Solves(r, k, c, h)
    ensures c - h <= p <= c + h <==> Excess(r, k, p) <= 0.0
  {
    WithinHalf(p, c, h);
    ScaledSquares(1.0 + k, p - c, h);
    InsideScaled(r, k, p, c, h);
  }

  lemma InsideScaled(r: real, k: real, p: real, c: real, h: real)
    requires Solves(r, k, c, h)
    ensures Square((1.0 + k) * (p - c)) <= Square((1.0 + k) * h) <==> Excess(r, k, p) <= 0.0
  {
    Shifted(r, k, p, c);
    Quadratic(r, k, p);
    FactorOut(1.0 + k, Excess(r, k, p), 0.0);
  }

  lemma Shifted(r: real, k: real, p: real, c: real)
    requires (1.0 + k) * c == r + k / 2.0
    ensures (1.0 + k) * (p - c) == (p - r) + k * (p - 0.5)
  {
    assert (1.0 + k) * (p - c) == (1.0 + k) * p - (1.0 + k) * c;
    assert (1.0 + k) * p == p + k * p;
    assert k * (p - 0.5) == k * p - k / 2.0;
  }

  // ---- The interval the code returns ----

  lemma DefinesCentre(r: real, k: real)
    requires k >= 0.0
    ensures (1.0 + k) * Centre(r, k) == r + k / 2.0
  {
    Quotient(r + k / 2.0, 1.0 + k);
    assert (1.0 + k) * Centre(r, k) == Centre(r, k) * (1.0 + k);
  }

  lemma DefinesHalf(z: real, root: real, k: real)
    requires k >= 0.0 && z >= 0.0 && root >= 0.0
    ensures Half(z, root, k) >= 0.0
    ensures Square((1.0 + k) * Half(z, root, k)) == Square(z) * Square(root)
  {
    Product(z, root);
    Quotient(z * root, 1.0 + k);
    SignOfQuotient(Half(z, root, k), z * root, 1.0 + k);
    assert (1.0 + k) * Half(z, root, k) == Half(z, root, k) * (1.0 + k) == z * root;
    SquareOfProduct(z, root);
  }

  lemma DefinesRate(successes: nat, trials: nat)
    requires successes <= trials && trials > 0
    ensures 0.0 <= Rate(successes, trials) <= 1.0
    ensures Rate(successes, trials) + Rate(trials - successes, trials) == 1.0
  {
    var n := trials as real;
    var r, r' := Rate(successes, trials), Rate(trials - successes, trials);
    Quotient(successes as real, n);
    Quotient((trials - successes) as real, n);
    RateBounds(r, successes as real, n);
    SumToOne(r, r', successes as real, (trials - successes) as real, n);
  }

  lemma DefinesScale(trials: nat, z: real)
    requires trials > 0
    ensures Scale(z, trials) * trials as real == Square(z)
  {
    Quotient(Square(z), trials as real);
  }

  /** The endpoints' defining equations, before the clamps. */
  lemma Endpoints(successes: nat, trials: nat, z: real, root: real)
    requires successes <= trials && trials > 0 && z >= 0.0 && IsRoot(root, Radicand(successes, trials, z))
    ensures var r, k := Rate(successes, trials), Scale(z, trials);
            k >= 0.0 && k * trials as real == Square(z) && 0.0 <= r <= 1.0
            && Solves(r, k, Centre(r, k), Half(z, root, k))
  {
    var r, k := Rate(successes, trials), Scale(z, trials);
    ScaleNonNegative(z, trials);
    DefinesScale(trials, z);
    DefinesRate(successes, trials);
    DefinesCentre(r, k);
    DefinesHalf(z, root, k);
    RootSpread(successes, trials, z, root);
  }

  lemma RootSpread(successes: nat, trials: nat, z: real, root: real)
    requires trials > 0 && IsRoot(root, Radicand(successes, trials, z))
    ensures var r, k := Rate(successes, trials), Scale(z, trials);
            Square(z) * Square(root) == k * Variance(r) + Square(k) / 4.0
  {
    var r, k := Rate(successes, trials), Scale(z, trials);
    DefinesScale(trials, z);
    Spread(Square(z), trials as real, k, Variance(r), Square(root));
  }

  lemma RateBounds(r: real, s: real, n: real)
    requires n > 0.0 && 0.0 <= s <= n && r * n == s
    ensures 0.0 <= r <= 1.0
  {
    SignOfQuotient(r, s, n);
    SignOfQuotient(1.0 - r, n - s, n);
  }

  lemma Spread(zz: real, n: real, k: real, v: real, radicand: real)
    requires n > 0.0 && k * n == zz && radicand == v / n + k / (4.0 * n)
    ensures zz * radicand == k * v + Square(k) / 4.0
  {
    Quotient(v, n);
    Quotient(k, 4.0 * n);
    var a, b := v / n, k / (4.0 * n);
    assert b * (4.0 * n) == k;
    assert b * n == k / 4.0;
    assert (k * n) * a == k * (a * n) == k * v;
    assert (k * n) * b == k * (b * n) == k * (k / 4.0);
  }

  /** The endpoints themselves are proportions, so the clamps to 0 and 1 never move one. */
  lemma ClampsNeverMove(successes: nat, trials: nat, z: real, root: real)
    requires successes <= trials && trials > 0 && z >= 0.0 && IsRoot(root, Radicand(successes, trials, z))
    ensures var r, k := Rate(successes, trials), Scale(z, trials);
            k >= 0.0 &&
            Wilson(successes, trials, z, root)
              == Interval(Centre(r, k) - Half(z, root, k), Centre(r, k) + Half(z, root, k))
  {
    Endpoints(successes, trials, z, root);
    var r, k := Rate(successes, trials), Scale(z, trials);
    var c, h := Centre(r, k), Half(z, root, k);
    InsideUnit(r, k, c, h, c - h);
    InsideUnit(r, k, c, h, c + h);
  }

  lemma InsideUnit(r: real, k: real, c: real, h: real, p: real)
    requires Solves(r, k, c, h) && 0.0 <= r <= 1.0 && c - h <= p <= c + h
    ensures 0.0 <= p <= 1.0
  {
    Inside(r, k, p, c, h);
    if p < 0.0 {
      Positive(-p, 1.0 - p);
      Outside(r, k, p);
    } else if p > 1.0 {
      Positive(p, p - 1.0);
      Outside(r, k, p);
    }
  }

  /** Beyond the unit interval the score test fails for every rate inside it. */
  lemma Outside(r: real, k: real, p: real)
    requires k >= 0.0 && 0.0 <= r <= 1.0 && (p < 0.0 || p > 1.0)
    requires Variance(p) < 0.0
    ensures Excess(r, k, p) > 0.0
  {
    Product(k, -Variance(p));
    SquarePositive(r - p);
  }

  lemma Product(k: real, x: real)
    requires k >= 0.0 && x >= 0.0
    ensures k * x >= 0.0 && k * -x == -(k * x)
  {
  }

  /** The characterisation: a proportion lies in the interval exactly when the score test accepts it. */
  lemma Characterised(successes: nat, trials: nat, z: real, root: real, p: real)
    requires successes <= trials && trials > 0 && z >= 0.0 && IsRoot(root, Radicand(successes, trials, z))
    ensures InInterval(p, Wilson(successes, trials, z, root)) <==> Accepted(Rate(successes, trials), trials, z, p)
  {
    Endpoints(successes, trials, z, root);
    ClampsNeverMove(successes, trials, z, root);
    var r, k := Rate(successes, trials), Scale(z, trials);
    Inside(r, k, p, Centre(r, k), Half(z, root, k));
    AcceptedExactly(r, k, trials, z, p);
  }

  lemma AcceptedExactly(r: real, k: real, trials: nat, z: real, p: real)
    requires trials > 0 && k * trials as real == Square(z)
    ensures Excess(r, k, p) <= 0.0 <==> Accepted(r, trials, z, p)
  {
    Unscale(trials as real, k, Square(r - p), Variance(p), Square(z));
  }

  predicate InInterval(p: real, interval: Interval)
    requires interval.Interval?
  {
    interval.low <= p <= interval.high
  }

  /** Pearson's score test: `p` is within `z` standard errors, under `p` itself, of the observed rate. */
  predicate Accepted(rate: real, trials: nat, z: real, p: real) {
    trials as real * Square(rate - p) <= Square(z) * Variance(p)
  }

  lemma Unscale(n: real, k: real, x: real, v: real, zz: real)
    requires n > 0.0 && k * n == zz
    ensures x - k * v <= 0.0 <==> n * x <= zz * v
  {
    FactorOut(n, x, k * v);
    assert n * (k * v) == (k * n) * v;
  }

  lemma VarianceNonNegative(p: real)
    requires 0.0 <= p <= 1.0
    ensures Variance(p) >= 0.0
  {
    Product(p, 1.0 - p);
  }

  /** The observed rate is always inside, and both endpoints are proportions. */
  lemma ContainsRate(successes: nat, trials: nat, z: real, root: real)
    requires successes <= trials && trials > 0 && z >= 0.0 && IsRoot(root, Radicand(successes, trials, z))
    ensures var interval := Wilson(successes, trials, z, root);
            0.0 <= interval.low <= Rate(successes, trials) <= interval.high <= 1.0
  {
    Endpoints(successes, trials, z, root);
    ClampsNeverMove(successes, trials, z, root);
    var r := Rate(successes, trials);
    Characterised(successes, trials, z, root, r);
    VarianceNonNegative(r);
    NonNegativeProduct(trials as real, z, r);
  }

  lemma NonNegativeProduct(n: real, z: real, r: real)
    requires Variance(r) >= 0.0
    ensures n * Square(r - r) <= Square(z) * Variance(r)
  {
    assert Square(r - r) == 0.0;
    assert Square(z) >= 0.0;
    Product(Square(z), Variance(r));
  }

  /** Counting failures instead of successes mirrors the interval, with the same root. */
  lemma Mirrored(successes: nat, trials: nat, z: real, root: real)
    requires successes <= trials && trials > 0 && z >= 0.0 && IsRoot(root, Radicand(successes, trials, z))
    ensures IsRoot(root, Radicand(trials - successes, trials, z))
    ensures var one, other := Wilson(successes, trials, z, root), Wilson(trials - successes, trials, z, root);
            other == Interval(1.0 - one.high, 1.0 - one.low)
  {
    var r, r', k := Rate(successes, trials), Rate(trials - successes, trials), Scale(z, trials);
    MirroredRadicand(successes, trials, z);
    ClampsNeverMove(successes, trials, z, root);
    ClampsNeverMove(trials - successes, trials, z, root);
    MirroredCentre(r, r', k);
  }

  lemma MirroredRadicand(successes: nat, trials: nat, z: real)
    requires successes <= trials && trials > 0
    ensures Radicand(trials - successes, trials, z) == Radicand(successes, trials, z)
    ensures Rate(successes, trials) + Rate(trials - successes, trials) == 1.0
  {
    DefinesRate(successes, trials);
    assert Variance(Rate(successes, trials)) == Variance(Rate(trials - successes, trials));
  }

  lemma MirroredCentre(r: real, r': real, k: real)
    requires k >= 0.0 && r + r' == 1.0
    ensures Centre(r, k) + Centre(r', k) == 1.0
  {
    Quotient(r + k / 2.0, 1.0 + k);
    Quotient(r' + k / 2.0, 1.0 + k);
    SumToOne(Centre(r, k), Centre(r', k), r + k / 2.0, r' + k / 2.0, 1.0 + k);
  }

  lemma SumToOne(x: real, y: real, a: real, b: real, n: real)
    requires n > 0.0 && x * n == a && y * n == b && a + b == n
    ensures x + y == 1.0
  {
    assert (x + y - 1.0) * n == x * n + y * n - n == 0.0;
  }
}
