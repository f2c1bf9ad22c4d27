/** `pass_hat_k` of `eval/stats.py`: the estimate, from `trials` runs of one scenario, of the probability that `k`
    independent repetitions all succeed. */
module PassHatK {
  import opened Binomials

  /** A value, Python's `None`, or a raised `ValueError`. */
  datatype Estimate = Estimate(value: real) | NoEstimate | InvalidInput

  function Ratio(a: nat, b: nat): real
    requires b > 0
  {
    a as real / b as real
  }

  function PassHatK(successes: int, trials: int, k: int): (estimate: Estimate)
    ensures estimate.InvalidInput? <==> k <= 0 || successes < 0 || successes > trials
    ensures estimate.NoEstimate? <==> 0 <= successes <= trials < k && k > 0
  {
    if k < 1 || !(0 <= successes <= trials) then InvalidInput
    else if trials < k then NoEstimate
    else
      CombPositive(trials, k);
      Estimate(Ratio(Comb(successes, k), Comb(trials, k)))
  }

  /** The estimate for a number of successes, where one is defined. */
  ghost function Value(trials: nat, k: nat): nat -> real
    requires 1 <= k <= trials
  {
    (successes: nat) => if successes <= trials then PassHatK(successes, trials, k).value else 0.0
  }

  lemma RatioTimes(a: nat, c: nat)
    requires c > 0
    ensures Times(Ratio(a, c), c) == a as real
  {
    var x, y := a as real, c as real;
    assert (x / y) * y == x;
  }

  lemma CancelFactor(x: real, y: real, c: nat)
    requires c > 0 && Times(x, c) == Term(c, y, 1.0)
    ensures x == y
  {
    var d := c as real;
    assert y * 1.0 == y;
    assert x * d == y * d;
  }

  lemma Scaled(trials: nat, k: nat, s: nat)
    requires 1 <= k <= trials && s <= trials
    ensures Times(Value(trials, k)(s), Comb(trials, k)) == Picks(k)(s)
  {
    CombPositive(trials, k);
    RatioTimes(Comb(s, k), Comb(trials, k));
    assert Value(trials, k)(s) == Ratio(Comb(s, k), Comb(trials, k));
  }

  /** Unbiased: over `trials` independent runs that each succeed with probability `p`, the expected estimate is the
      probability that `k` runs all succeed. */
  lemma Unbiased(trials: nat, k: nat, p: real, q: real)
    requires 1 <= k <= trials && p + q == 1.0
    ensures Expectation(trials, p, q, Value(trials, k), 0) == Pow(p, k)
  {
    forall s: nat | s <= trials
      ensures Times(Value(trials, k)(s), Comb(trials, k)) == Picks(k)(s)
    {
      Scaled(trials, k, s);
    }
    ExpectationScales(trials, p, q, Picks(k), Value(trials, k), Comb(trials, k), 0);
    ExpectedPicks(trials, k, p, q);
    CombPositive(trials, k);
    CancelFactor(Expectation(trials, p, q, Value(trials, k), 0), Pow(p, k), Comb(trials, k));
  }

  lemma {:induction false} CombMonotone(m: nat, n: nat, k: nat)
    requires m <= n
    ensures Comb(m, k) <= Comb(n, k)
    decreases n
  {
    if m < n && k > 0 {
      CombMonotone(m, n - 1, k);
    }
  }

  /** With fewer than all trials successful, some pick of `k` trials has a failure. */
  lemma CombStrict(m: nat, n: nat, k: nat)
    requires m < n && 1 <= k <= n
    ensures Comb(m, k) < Comb(n, k)
  {
    CombMonotone(m, n - 1, k);
    CombPositive(n - 1, k - 1);
  }

  lemma RatioOrder(a: nat, b: nat, c: nat)
    requires a <= b <= c && c > 0
    ensures 0.0 <= Ratio(a, c) <= Ratio(b, c) <= 1.0
    ensures Ratio(a, c) == 0.0 <==> a == 0
    ensures Ratio(a, c) == 1.0 <==> a == c
  {
    RatioTimes(a, c);
    RatioTimes(b, c);
    Order(Ratio(a, c), Ratio(b, c), a, b, c);
  }

  lemma Order(x: real, y: real, a: nat, b: nat, c: nat)
    requires a <= b <= c && c > 0
    requires Times(x, c) == a as real && Times(y, c) == b as real
    ensures 0.0 <= x <= y <= 1.0
    ensures x == 0.0 <==> a == 0
    ensures x == 1.0 <==> a == c
  {
    assert Times(0.0, c) == 0.0 && Times(1.0, c) == c as real;
    DivideTimes(0.0, x, c);
    DivideTimes(x, y, c);
    DivideTimes(y, 1.0, c);
    if a == 0 {
      DivideTimes(x, 0.0, c);
    }
    if a == c {
      DivideTimes(1.0, x, c);
    }
  }

  lemma DivideTimes(x: real, y: real, c: nat)
    requires c > 0 && Times(x, c) <= Times(y, c)
    ensures x <= y
  {
    var d := c as real;
    assert x * d <= y * d;
  }

  lemma DivideOut(x: real, y: real, c: real)
    requires c > 0.0 && x * c <= y * c
    ensures x <= y
  {
  }

  /** A better run never lowers the estimate, which is a probability: zero exactly below `k` successes, one exactly
      when every trial succeeded. */
  lemma MonotoneProbability(successes: nat, more: nat, trials: nat, k: nat)
    requires successes <= more <= trials && 1 <= k <= trials
    ensures 0.0 <= PassHatK(successes, trials, k).value <= PassHatK(more, trials, k).value <= 1.0
    ensures PassHatK(successes, trials, k).value == 0.0 <==> successes < k
    ensures PassHatK(successes, trials, k).value == 1.0 <==> successes == trials
  {
    CombPositive(trials, k);
    CombMonotone(successes, more, k);
    CombMonotone(more, trials, k);
    RatioOrder(Comb(successes, k), Comb(more, k), Comb(trials, k));
    if successes < k {
      CombBeyond(successes, k);
    } else {
      CombPositive(successes, k);
    }
    if successes < trials {
      CombStrict(successes, trials, k);
    }
  }

  /** Asking for one more repetition never raises the estimate. */
  lemma NonIncreasingInK(successes: nat, trials: nat, k: nat)
    requires successes <= trials && 1 <= k < trials
    ensures PassHatK(successes, trials, k + 1).value <= PassHatK(successes, trials, k).value
  {
    CombPositive(trials, k);
    CombPositive(trials, k + 1);
    if successes <= k {
      MonotoneProbability(successes, trials, trials, k);
      MonotoneProbability(successes, trials, trials, k + 1);
    } else {
      CombStep(trials, k);
      CombStep(successes, k);
      RatioFalls(Comb(successes, k + 1), Comb(trials, k + 1), Comb(successes, k), Comb(trials, k), k + 1,
                 successes - k, trials - k);
    }
  }

  lemma RatioFalls(a: nat, b: nat, c: nat, d: nat, j: nat, s: nat, t: nat)
    requires b > 0 && d > 0 && j > 0 && s <= t
    requires a * j == c * s && b * j == d * t
    ensures Ratio(a, b) <= Ratio(c, d)
  {
    Products(a, b, c, d, j, s, t);
    RatioTimes(a, b);
    RatioTimes(c, d);
    CrossMultiply(Ratio(a, b), Ratio(c, d), a, b, c, d);
  }

  lemma Products(a: nat, b: nat, c: nat, d: nat, j: nat, s: nat, t: nat)
    requires j > 0 && s <= t
    requires a * j == c * s && b * j == d * t
    ensures a * d <= c * b
  {
    assert (a * d) * j == (a * j) * d == (c * s) * d == (c * d) * s;
    assert (c * b) * j == c * (b * j) == c * (d * t) == (c * d) * t;
    Raise(c * d, s, t);
    DivideOutInt(a * d, c * b, j);
  }

  lemma Raise(x: nat, s: nat, t: nat)
    requires s <= t
    ensures x * s <= x * t
  {
  }

  lemma DivideOutInt(x: int, y: int, j: int)
    requires j > 0 && x * j <= y * j
    ensures x <= y
  {
  }

  lemma CrossMultiply(x: real, y: real, a: nat, b: nat, c: nat, d: nat)
    requires b > 0 && d > 0 && a * d <= c * b
    requires Times(x, b) == a as real && Times(y, d) == c as real
    ensures x <= y
  {
    var e, f := b as real, d as real;
    assert (a as real) * f == (a * d) as real <= (c * b) as real == (c as real) * e;
    assert (x * e) * f == x * (e * f) && (y * f) * e == y * (e * f);
    DivideOut(x, y, e * f);
  }
}
