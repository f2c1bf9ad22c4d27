/** Binomial coefficients, as `math.comb` counts them, and expectations over a binomial distribution. */
module Binomials {

  /** The number of ways to choose `k` of `n`, by Pascal's rule; zero when `k > n`. */
  function Comb(n: nat, k: nat): nat {
    if k == 0 then 1 else if n == 0 then 0 else Comb(n - 1, k - 1) + Comb(n - 1, k)
  }

  function Factorial(n: nat): nat {
    if n == 0 then 1 else n * Factorial(n - 1)
  }

  function Pow(x: real, k: nat): real {
    if k == 0 then 1.0 else x * Pow(x, k - 1)
  }

  lemma {:induction false} CombBeyond(n: nat, k: nat)
    requires n < k
    ensures Comb(n, k) == 0
  {
    if n > 0 {
      CombBeyond(n - 1, k - 1);
      CombBeyond(n - 1, k);
    }
  }

  lemma {:induction false} CombPositive(n: nat, k: nat)
    requires k <= n
    ensures Comb(n, k) >= 1
  {
    if k > 0 {
      CombPositive(n - 1, k - 1);
    }
  }

  lemma StepArithmetic(n: int, k: int, a: int, b: int, c: int)
    requires a * (k + 1) == b * (n - 1 - k) && b * k == c * (n - k)
    ensures (b + a) * (k + 1) == (c + b) * (n - k)
  {
    assert (b + a) * (k + 1) == b * (k + 1) + a * (k + 1) == b * (k + 1) + b * (n - 1 - k) == b * n;
    assert (c + b) * (n - k) == c * (n - k) + b * (n - k) == b * k + b * (n - k) == b * n;
  }

  /** Absorption: the step from `k` to `k + 1` chosen. */
  lemma {:induction false} CombStep(n: nat, k: nat)
    ensures Comb(n, k + 1) * (k + 1) == Comb(n, k) * (n - k)
  {
    if n == 0 {
      if k > 0 {
        CombBeyond(0, k);
      }
    } else {
      CombStep(n - 1, k);
      var a, b := Comb(n - 1, k + 1), Comb(n - 1, k);
      if k == 0 {
        StepArithmetic(n, 0, a, 1, 0);
      } else {
        CombStep(n - 1, k - 1);
        StepArithmetic(n, k, a, b, Comb(n - 1, k - 1));
      }
    }
  }

  lemma QuotientArithmetic(a: int, b: int, k: int, m: int, f: int, g: int)
    requires a * k == b * m
    ensures a * ((k * f) * g) == b * (f * (m * g))
  {
    assert a * ((k * f) * g) == (a * k) * (f * g);
    assert b * (f * (m * g)) == (b * m) * (f * g);
  }

  /** Pascal's rule counts what the factorials count. */
  lemma {:induction false} CombIsFactorialQuotient(n: nat, k: nat)
    requires k <= n
    ensures Comb(n, k) * (Factorial(k) * Factorial(n - k)) == Factorial(n)
    decreases k
  {
    if k > 0 {
      CombIsFactorialQuotient(n, k - 1);
      CombStep(n, k - 1);
      QuotientArithmetic(Comb(n, k), Comb(n, k - 1), k, n - k + 1, Factorial(k - 1), Factorial(n - k));
    }
  }

  /** The average of `x` and `y`, weighted by `p` and `q`. */
  ghost function Mix(p: real, q: real, x: real, y: real): real {
    p * x + q * y
  }

  /** One more outcome in a weighted sum. */
  ghost function Add(weight: real, x: real, rest: real): real {
    weight * x + rest
  }

  /** The probability of exactly `s` successes in `n` independent trials that each succeed with probability `p`
      and fail with probability `q`. */
  ghost function Probability(n: nat, p: real, q: real, s: nat): real {
    if n == 0 then (if s == 0 then 1.0 else 0.0)
    else Mix(p, q, if s == 0 then 0.0 else Probability(n - 1, p, q, s - 1), Probability(n - 1, p, q, s))
  }

  /** The closed form of one term. */
  ghost function Term(c: nat, u: real, v: real): real {
    c as real * (u * v)
  }

  lemma SplitTerm(p: real, q: real, a: nat, b: nat, u: real, v: real)
    ensures Mix(p, q, Term(a, u, q * v), Term(b, p * u, v)) == Term(a + b, p * u, q * v)
  {
    var w := (p * u) * (q * v);
    assert p * (a as real * (u * (q * v))) == a as real * w;
    assert q * (b as real * ((p * u) * v)) == b as real * w;
    assert (a + b) as real * w == a as real * w + b as real * w;
  }

  lemma NoneSucceed(p: real, q: real, u: real)
    ensures Mix(p, q, 0.0, Term(1, 1.0, u)) == Term(1, 1.0, q * u)
  {
  }

  lemma TermOfOne(u: real)
    ensures Term(1, u, 1.0) == u
  {
  }

  lemma {:induction false} AllSucceed(n: nat, p: real, q: real)
    ensures Comb(n, n) == 1 && Probability(n, p, q, n) == Pow(p, n)
  {
    if n > 0 {
      AllSucceed(n - 1, p, q);
      CombBeyond(n - 1, n);
      ProbabilityBeyond(n - 1, p, q, n);
      MixEnd(p, q, Pow(p, n - 1));
    }
  }

  lemma MixEnd(p: real, q: real, x: real)
    ensures Mix(p, q, x, 0.0) == p * x
  {
  }

  lemma ZeroProduct(x: real)
    ensures 0.0 * x == 0.0
  {
  }

  /** It is the binomial distribution. */
  lemma {:induction false} ProbabilityIsBinomial(n: nat, p: real, q: real, s: nat)
    requires s <= n
    ensures Probability(n, p, q, s) == Term(Comb(n, s), Pow(p, s), Pow(q, n - s))
  {
    if n == 0 {
      assert Term(1, 1.0, 1.0) == 1.0;
    } else if s == 0 {
      ProbabilityIsBinomial(n - 1, p, q, 0);
      NoneSucceed(p, q, Pow(q, n - 1));
    } else if s == n {
      AllSucceed(n, p, q);
      TermOfOne(Pow(p, n));
    } else {
      ProbabilityIsBinomial(n - 1, p, q, s - 1);
      ProbabilityIsBinomial(n - 1, p, q, s);
      var a, b, u, v := Comb(n - 1, s - 1), Comb(n - 1, s), Pow(p, s - 1), Pow(q, n - 1 - s);
      SplitTerm(p, q, a, b, u, v);
      assert Pow(q, n - s) == q * v && Pow(p, s) == p * u && Comb(n, s) == a + b;
      assert Probability(n - 1, p, q, s - 1) == Term(a, u, q * v);
      assert Probability(n - 1, p, q, s) == Term(b, p * u, v);
    }
  }

  lemma {:induction false} ProbabilityBeyond(n: nat, p: real, q: real, s: nat)
    requires n < s
    ensures Probability(n, p, q, s) == 0.0
  {
    if n > 0 {
      ProbabilityBeyond(n - 1, p, q, s - 1);
      ProbabilityBeyond(n - 1, p, q, s);
      ZeroProduct(p);
      ZeroProduct(q);
    }
  }

  /** The expected value of `f` over the number of successes, summed from `from` on. */
  ghost function Expectation(n: nat, p: real, q: real, f: nat -> real, from: nat): real
    requires from <= n + 1
    decreases n + 1 - from
  {
    if from == n + 1 then 0.0 else Add(Probability(n, p, q, from), f(from), Expectation(n, p, q, f, from + 1))
  }

  /** `f` of one success more. */
  function Shift(f: nat -> real): nat -> real {
    (s: nat) => f(s + 1)
  }

  function Sum(f: nat -> real, g: nat -> real): nat -> real {
    (s: nat) => f(s) + g(s)
  }

  lemma TermArithmetic(p: real, q: real, a: real, b: real, x: real, e: real, d: real)
    ensures Add(Mix(p, q, a, b), x, Mix(p, q, e, d)) == Mix(p, q, Add(a, x, e), Add(b, x, d))
  {
    assert (p * a + q * b) * x == p * (a * x) + q * (b * x);
    assert p * (a * x + e) == p * (a * x) + p * e;
    assert q * (b * x + d) == q * (b * x) + q * d;
  }

  /** Conditioning on the last trial: it succeeds with probability `p`, adding one success to the others'. */
  lemma {:induction false} ConditionTail(n: nat, p: real, q: real, f: nat -> real, s: nat)
    requires 0 < s <= n + 1
    ensures Expectation(n + 1, p, q, f, s)
         == Mix(p, q, Expectation(n, p, q, Shift(f), s - 1), Expectation(n, p, q, f, s))
    decreases n + 1 - s
  {
    var e, d := 0.0, 0.0;
    if s == n + 1 {
      ProbabilityBeyond(n, p, q, n + 1);
    } else {
      ConditionTail(n, p, q, f, s + 1);
      e, d := Expectation(n, p, q, Shift(f), s), Expectation(n, p, q, f, s + 1);
    }
    TermArithmetic(p, q, Probability(n, p, q, s - 1), Probability(n, p, q, s), f(s), e, d);
  }

  lemma Condition(n: nat, p: real, q: real, f: nat -> real)
    ensures Expectation(n + 1, p, q, f, 0)
         == Mix(p, q, Expectation(n, p, q, Shift(f), 0), Expectation(n, p, q, f, 0))
  {
    ConditionTail(n, p, q, f, 1);
    TermArithmetic(p, q, 0.0, Probability(n, p, q, 0), f(0), Expectation(n, p, q, Shift(f), 0),
                   Expectation(n, p, q, f, 1));
    assert Add(0.0, f(0), Expectation(n, p, q, Shift(f), 0)) == Expectation(n, p, q, Shift(f), 0);
  }

  lemma Distribute(w: real, a: real, b: real, x: real, y: real)
    ensures Add(w, a + b, x + y) == Add(w, a, x) + Add(w, b, y)
  {
  }

  /** Expectation is additive. */
  lemma {:induction false} ExpectationAdds(n: nat, p: real, q: real, f: nat -> real, g: nat -> real, s: nat)
    requires s <= n + 1
    ensures Expectation(n, p, q, Sum(f, g), s) == Expectation(n, p, q, f, s) + Expectation(n, p, q, g, s)
    decreases n + 1 - s
  {
    if s <= n {
      ExpectationAdds(n, p, q, f, g, s + 1);
      Distribute(Probability(n, p, q, s), f(s), g(s), Expectation(n, p, q, f, s + 1), Expectation(n, p, q, g, s + 1));
    }
  }

  ghost function Times(x: real, c: nat): real {
    x * (c as real)
  }

  lemma ScaleArithmetic(w: real, x: real, rest: real, c: nat)
    ensures Times(Add(w, x, rest), c) == Add(w, Times(x, c), Times(rest, c))
  {
    var d := c as real;
    assert (w * x + rest) * d == (w * x) * d + rest * d;
    assert (w * x) * d == w * (x * d);
  }

  /** Scaling the outcome scales the expectation. */
  lemma {:induction false} ExpectationScales(n: nat, p: real, q: real, f: nat -> real, g: nat -> real, c: nat, s: nat)
    requires s <= n + 1
    requires forall x: nat | x <= n :: Times(g(x), c) == f(x)
    ensures Times(Expectation(n, p, q, g, s), c) == Expectation(n, p, q, f, s)
    decreases n + 1 - s
  {
    if s <= n {
      ExpectationScales(n, p, q, f, g, c, s + 1);
      ScaleArithmetic(Probability(n, p, q, s), g(s), Expectation(n, p, q, g, s + 1), c);
    }
  }

  /** Functions that agree on the outcomes have the same expectation. */
  lemma {:induction false} ExpectationAgrees(n: nat, p: real, q: real, f: nat -> real, g: nat -> real, s: nat)
    requires s <= n + 1
    requires forall x: nat | x <= n :: f(x) == g(x)
    ensures Expectation(n, p, q, f, s) == Expectation(n, p, q, g, s)
    decreases n + 1 - s
  {
    if s <= n {
      ExpectationAgrees(n, p, q, f, g, s + 1);
    }
  }

  /** The number of ways to pick `k` of the successes. */
  function Picks(k: nat): nat -> real {
    (s: nat) => Comb(s, k) as real
  }

  lemma PicksArithmetic(p: real, q: real, a: nat, b: nat, u: real)
    requires p + q == 1.0
    ensures Mix(p, q, Term(a, u, 1.0) + Term(b, p * u, 1.0), Term(b, p * u, 1.0)) == Term(a + b, p * u, 1.0)
  {
    var w := b as real * ((p * u) * 1.0);
    assert u * 1.0 == u && (p * u) * 1.0 == p * u;
    assert p * (a as real * u + w) == p * (a as real * u) + p * w;
    assert p * w + q * w == (p + q) * w == w;
    assert p * (a as real * u) == a as real * (p * u);
    assert (a + b) as real * (p * u) == a as real * (p * u) + w;
  }

  /** Conditioning relates the picks of `k` of `n` to those of `k - 1` and of `k` of the other trials. */
  lemma PicksCondition(n: nat, k: nat, p: real, q: real)
    requires n > 0 && k > 0
    ensures Expectation(n, p, q, Picks(k), 0)
         == Mix(p, q, Expectation(n - 1, p, q, Picks(k - 1), 0) + Expectation(n - 1, p, q, Picks(k), 0),
                Expectation(n - 1, p, q, Picks(k), 0))
  {
    Condition(n - 1, p, q, Picks(k));
    ExpectationAgrees(n - 1, p, q, Shift(Picks(k)), Sum(Picks(k - 1), Picks(k)), 0);
    ExpectationAdds(n - 1, p, q, Picks(k - 1), Picks(k), 0);
  }

  lemma MixOnes(p: real, q: real)
    requires p + q == 1.0
    ensures Mix(p, q, 1.0, 1.0) == 1.0
  {
  }

  lemma {:induction false} ProbabilitiesSumToOne(n: nat, p: real, q: real)
    requires p + q == 1.0
    ensures Expectation(n, p, q, Picks(0), 0) == 1.0
  {
    if n == 0 {
      assert Expectation(0, p, q, Picks(0), 1) == 0.0;
    } else {
      Condition(n - 1, p, q, Picks(0));
      ExpectationAgrees(n - 1, p, q, Shift(Picks(0)), Picks(0), 0);
      ProbabilitiesSumToOne(n - 1, p, q);
      MixOnes(p, q);
    }
  }

  /** `Comb(n, k)` times `p` to the `k`. */
  ghost function Expected(n: nat, k: nat, p: real): real {
    Term(Comb(n, k), Pow(p, k), 1.0)
  }

  lemma ExpectedStep(n: nat, k: nat, p: real, q: real)
    requires n > 0 && k > 0 && p + q == 1.0
    ensures Mix(p, q, Expected(n - 1, k - 1, p) + Expected(n - 1, k, p), Expected(n - 1, k, p)) == Expected(n, k, p)
  {
    PicksArithmetic(p, q, Comb(n - 1, k - 1), Comb(n - 1, k), Pow(p, k - 1));
    assert Pow(p, k) == p * Pow(p, k - 1);
  }

  lemma ExpectedBase(n: nat, k: nat, p: real)
    ensures Expected(n, 0, p) == 1.0
    ensures k > 0 ==> Expected(0, k, p) == 0.0
  {
    TermOfOne(1.0);
    ZeroProduct(Pow(p, k) * 1.0);
  }

  lemma NoTrials(k: nat, p: real, q: real)
    requires k > 0
    ensures Expectation(0, p, q, Picks(k), 0) == 0.0
  {
    assert Expectation(0, p, q, Picks(k), 1) == 0.0;
    assert Picks(k)(0) == 0.0;
  }

  /** The expected number of all-success picks of `k` trials is the number of picks times `p` to the `k`. */
  lemma {:induction false} ExpectedPicks(n: nat, k: nat, p: real, q: real)
    requires p + q == 1.0
    ensures Expectation(n, p, q, Picks(k), 0) == Expected(n, k, p)
  {
    ExpectedBase(n, k, p);
    if k == 0 {
      ProbabilitiesSumToOne(n, p, q);
    } else if n == 0 {
      NoTrials(k, p, q);
    } else {
      PicksCondition(n, k, p, q);
      ExpectedPicks(n - 1, k, p, q);
      ExpectedPicks(n - 1, k - 1, p, q);
      ExpectedStep(n, k, p, q);
    }
  }
}
