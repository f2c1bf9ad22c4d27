/** The price arithmetic of `eval/cost.py`, in exact US dollars: list prices, frozen cache prices, the estimated cost
    of a usage, and the conservative bound one call is reserved at. */
module Prices {
  import opened Options

  datatype Provider = OpenAI | Anthropic

  /** One list price, in US cents per million tokens. */
  datatype Listed = Listed(provider: Provider, model: string, inputCents: nat, outputCents: nat)

  /** US dollars per token. */
  datatype Price = Price(provider: Provider, input: real, output: real, cacheRead: real, cacheWrite: real)

  datatype Usage = Usage(
    modelCalls: nat, failedCalls: nat, unreportedCalls: nat, inputTokens: nat, outputTokens: nat,
    cacheReadTokens: nat, cacheWriteTokens: nat, providerRequests: nat)

  datatype Cost = Cost(usd: real, known: bool)

  const NO_USAGE := Usage(0, 0, 0, 0, 0, 0, 0, 0)
  const EMBEDDING_MODELS := ["text-embedding-3-small", "text-embedding-3-large"]
  const EVALUATION_PRICES := [
    Listed(OpenAI, "gpt-5.6-sol", 400, 2000),
    Listed(OpenAI, "text-embedding-3-small", 2, 0),
    Listed(OpenAI, "text-embedding-3-large", 13, 0)]
  const CACHE_WRITE_MULTIPLIER := 1.25

  const CACHE_READ_MULTIPLIER := 0.1
  const CACHE_READ_MULTIPLIER_BY_MODEL := map["claude-opus-5-5" := 0.05, "gpt-6.1-sol" := 0.05]

  /** The largest input a model's listed price holds for. */
  const PRICED_INPUT_TOKENS: map<string, nat> := map["gpt-5.6-sol" := 272_000, "claude-haiku-5-5" := 100_000]

  function CacheReadMultiplier(model: string): real {
    if model in CACHE_READ_MULTIPLIER_BY_MODEL then CACHE_READ_MULTIPLIER_BY_MODEL[model] else CACHE_READ_MULTIPLIER
  }

  function Find(prices: seq<Listed>, model: string): Option<Listed> {
    if prices == [] then None
    else if prices[0].model == model then Some(prices[0])
    else Find(prices[1..], model)
  }

  function PerToken(cents: nat): real {
    cents as real / 100.0 / 1_000_000.0
  }

  /** The model's price, or `None` where the code raises `ValueError`. */
  function PriceOf(model: string, catalog: seq<Listed>): Option<Price> {
    match Find(catalog + EVALUATION_PRICES, model)
    case None => None
    case Some(listed) =>
      var input := PerToken(listed.inputCents);
      Some(Price(listed.provider, input, PerToken(listed.outputCents), input * CacheReadMultiplier(model),
                 input * CACHE_WRITE_MULTIPLIER))
  }

  predicate Known(usage: Usage) {
    usage.failedCalls == 0 && usage.unreportedCalls == 0
  }

  function FreshInputTokens(usage: Usage): nat {
    var cached := usage.cacheReadTokens + usage.cacheWriteTokens;
    if usage.inputTokens >= cached then usage.inputTokens - cached else 0
  }

  /** The price of some tokens at one rate. */
  function Charge(tokens: nat, rate: real): real {
    tokens as real * rate
  }

  /** `cost`, but for whether it is known. */
  function UsageCost(usage: Usage, rates: Price): real {
    Charge(FreshInputTokens(usage), rates.input) + Charge(usage.cacheReadTokens, rates.cacheRead)
      + Charge(usage.cacheWriteTokens, rates.cacheWrite) + Charge(usage.outputTokens, rates.output)
  }

  function Max(a: real, b: real): real {
    if a >= b then a else b
  }

  function Bound(rates: Price, inputTokens: nat, outputTokens: nat): real {
    Charge(inputTokens, Max(rates.input, rates.cacheWrite)) + Charge(outputTokens, rates.output)
  }

  /** `call_bound`. */
  function CallBound(model: string, inputTokens: nat, outputTokens: nat, catalog: seq<Listed>): Option<real> {
    match PriceOf(model, catalog)
    case None => None
    case Some(rates) => Some(Bound(rates, inputTokens, outputTokens))
  }

  // ---- The bound covers the call ----

  /** A cache read is never dearer than fresh input, and a cache write never cheaper. */
  ghost predicate Ordered(rates: Price) {
    0.0 <= rates.cacheRead <= rates.input <= rates.cacheWrite && 0.0 <= rates.output
  }

  lemma PerTokenNonNegative(cents: nat)
    ensures PerToken(cents) >= 0.0
    ensures PerToken(cents) == 0.0 <==> cents == 0
  {
  }

  lemma Discounted(rate: real, multiplier: real)
    requires rate >= 0.0 && 0.0 <= multiplier <= 1.0
    ensures 0.0 <= rate * multiplier <= rate
  {
  }

  lemma PricesOrdered(model: string, catalog: seq<Listed>)
    requires PriceOf(model, catalog).Some?
    ensures Ordered(PriceOf(model, catalog).value)
  {
    var listed := Find(catalog + EVALUATION_PRICES, model).value;
    PerTokenNonNegative(listed.inputCents);
    PerTokenNonNegative(listed.outputCents);
    assert CacheReadMultiplier(model) in {0.05, CACHE_READ_MULTIPLIER};
    Discounted(PerToken(listed.inputCents), CacheReadMultiplier(model));
  }

  lemma ChargeMonotone(few: nat, many: nat, low: real, high: real)
    requires few <= many && 0.0 <= low <= high
    ensures 0.0 <= Charge(few, low) <= Charge(many, high)
  {
    var a, b := few as real, many as real;
    assert a * low <= b * low;
    assert b * low <= b * high;
  }

  lemma ChargeAdds(a: nat, b: nat, rate: real)
    ensures Charge(a, rate) + Charge(b, rate) == Charge(a + b, rate)
  {
    assert a as real * rate + b as real * rate == (a as real + b as real) * rate;
  }

  /** Which rate each kind of token pays, token by token. Starting from a usage that costs nothing, one more token of
      input adds the input rate as long as the cache traffic is within the input, and nothing while it exceeds it; a
      cached token adds its cache rate, together with its input or beyond it; an output token adds the output rate. */
  lemma MarginalCosts(usage: Usage, rates: Price)
    ensures UsageCost(NO_USAGE, rates) == 0.0
    ensures var cost, more := UsageCost(usage, rates), usage.(inputTokens := usage.inputTokens + 1);
            var cached := usage.cacheReadTokens + usage.cacheWriteTokens;
            && UsageCost(usage.(outputTokens := usage.outputTokens + 1), rates) == cost + rates.output
            && UsageCost(more, rates) == cost + (if cached <= usage.inputTokens then rates.input else 0.0)
            && (cached <= usage.inputTokens ==>
                  UsageCost(more.(cacheReadTokens := usage.cacheReadTokens + 1), rates) == cost + rates.cacheRead
                  && UsageCost(more.(cacheWriteTokens := usage.cacheWriteTokens + 1), rates) == cost + rates.cacheWrite)
            && (cached >= usage.inputTokens ==>
                  UsageCost(usage.(cacheReadTokens := usage.cacheReadTokens + 1), rates) == cost + rates.cacheRead
                  && UsageCost(usage.(cacheWriteTokens := usage.cacheWriteTokens + 1), rates) == cost + rates.cacheWrite)
  {
    OneMore(FreshInputTokens(usage), rates.input);
    OneMore(usage.cacheReadTokens, rates.cacheRead);
    OneMore(usage.cacheWriteTokens, rates.cacheWrite);
    OneMore(usage.outputTokens, rates.output);
  }

  lemma OneMore(tokens: nat, rate: real)
    ensures Charge(tokens + 1, rate) == Charge(tokens, rate) + rate && Charge(0, rate) == 0.0
  {
    ChargeAdds(tokens, 1, rate);
  }

  function Plus(a: Usage, b: Usage): Usage {
    Usage(a.modelCalls + b.modelCalls, a.failedCalls + b.failedCalls, a.unreportedCalls + b.unreportedCalls,
          a.inputTokens + b.inputTokens, a.outputTokens + b.outputTokens, a.cacheReadTokens + b.cacheReadTokens,
          a.cacheWriteTokens + b.cacheWriteTokens, a.providerRequests + b.providerRequests)
  }

  predicate CacheWithinInput(usage: Usage) {
    usage.cacheReadTokens + usage.cacheWriteTokens <= usage.inputTokens
  }

  /** Usages add up: a sum is known exactly when both parts are, and costs what they cost together as long as each
      part's cache traffic is within its input; otherwise one part's spare input can hide the other's, and never
      costs more. */
  lemma CostOfSum(a: Usage, b: Usage, rates: Price)
    requires Ordered(rates)
    ensures Known(Plus(a, b)) <==> Known(a) && Known(b)
    ensures Plus(a, b) == Plus(b, a) && Plus(a, NO_USAGE) == a
    ensures Known(NO_USAGE) && !Known(NO_USAGE.(failedCalls := 1)) && !Known(NO_USAGE.(unreportedCalls := 1))
    ensures UsageCost(Plus(a, b), rates) <= UsageCost(a, rates) + UsageCost(b, rates)
    ensures CacheWithinInput(a) && CacheWithinInput(b) ==>
              UsageCost(Plus(a, b), rates) == UsageCost(a, rates) + UsageCost(b, rates)
  {
    var sum := Plus(a, b);
    ChargeAdds(a.outputTokens, b.outputTokens, rates.output);
    ChargeAdds(a.cacheReadTokens, b.cacheReadTokens, rates.cacheRead);
    ChargeAdds(a.cacheWriteTokens, b.cacheWriteTokens, rates.cacheWrite);
    ChargeAdds(FreshInputTokens(a), FreshInputTokens(b), rates.input);
    ChargeMonotone(FreshInputTokens(sum), FreshInputTokens(a) + FreshInputTokens(b), rates.input, rates.input);
  }

  /** A million tokens cost their list price, in dollars: input and output as listed, cached input at its multiple. */
  lemma MillionTokens(model: string, catalog: seq<Listed>)
    requires PriceOf(model, catalog).Some?
    ensures var rates, listed := PriceOf(model, catalog).value, Find(catalog + EVALUATION_PRICES, model).value;
            var dollars, million := listed.inputCents as real / 100.0, 1_000_000;
            && UsageCost(NO_USAGE.(inputTokens := million), rates) == dollars
            && UsageCost(NO_USAGE.(outputTokens := million), rates) == listed.outputCents as real / 100.0
            && UsageCost(NO_USAGE.(inputTokens := million, cacheReadTokens := million), rates)
                 == dollars * (if model in {"claude-opus-5-5", "gpt-6.1-sol"} then 0.05 else 0.1)
            && UsageCost(NO_USAGE.(inputTokens := million, cacheWriteTokens := million), rates)
                 == dollars * 1.25
            && rates.provider == listed.provider
  {
  }

  /** A lookup finds the first entry of that model. */
  lemma {:induction false} FirstFound(prices: seq<Listed>, model: string)
    ensures Find(prices, model).None? <==> forall listed | listed in prices :: listed.model != model
    ensures Find(prices, model).Some? ==>
              exists i | 0 <= i < |prices| ::
                prices[i] == Find(prices, model).value && prices[i].model == model
                && forall j | 0 <= j < i :: prices[j].model != model
  {
    if prices != [] {
      FirstFound(prices[1..], model);
      if prices[0].model != model && Find(prices[1..], model).Some? {
        var i :| 0 <= i < |prices[1..]| && prices[1..][i] == Find(prices[1..], model).value
                 && prices[1..][i].model == model && forall j | 0 <= j < i :: prices[1..][j].model != model;
        assert prices[i + 1] == Find(prices, model).value;
        assert forall j | 0 <= j < i + 1 :: prices[j].model != model;
      }
    }
  }

  /** Whatever the cache does with up to `inputTokens` tokens, the bound holds: neither the input nor the cache traffic
      may exceed them. */
  lemma BoundCovers(usage: Usage, rates: Price, inputTokens: nat, outputTokens: nat)
    requires Ordered(rates)
    requires usage.inputTokens <= inputTokens && usage.outputTokens <= outputTokens
    requires usage.cacheReadTokens + usage.cacheWriteTokens <= inputTokens
    ensures 0.0 <= UsageCost(usage, rates) <= Bound(rates, inputTokens, outputTokens)
  {
    var plain, read, write := FreshInputTokens(usage), usage.cacheReadTokens, usage.cacheWriteTokens;
    var dear := rates.cacheWrite;
    ChargeMonotone(plain, plain, rates.input, dear);
    ChargeMonotone(read, read, rates.cacheRead, dear);
    ChargeMonotone(write, write, dear, dear);
    ChargeAdds(plain, read, dear);
    ChargeAdds(plain + read, write, dear);
    ChargeMonotone(plain + read + write, inputTokens, dear, dear);
    ChargeMonotone(usage.outputTokens, outputTokens, rates.output, rates.output);
  }

  /** The usage one call can report within limits on its input, its output, and its cache traffic. */
  ghost predicate Within(usage: Usage, inputTokens: nat, outputTokens: nat, cacheTokens: nat) {
    usage.inputTokens <= inputTokens && usage.outputTokens <= outputTokens
    && usage.cacheReadTokens + usage.cacheWriteTokens <= cacheTokens
  }

  /** The bound's exact reach: it covers every usage with up to `cacheTokens` of cache traffic exactly when that is no
      more than the input it was computed for, or the input is free. */
  lemma BoundExactly(rates: Price, inputTokens: nat, outputTokens: nat, cacheTokens: nat)
    requires Ordered(rates)
    ensures (forall usage | Within(usage, inputTokens, outputTokens, cacheTokens) ::
               UsageCost(usage, rates) <= Bound(rates, inputTokens, outputTokens))
            <==> cacheTokens <= inputTokens || rates.cacheWrite == 0.0
  {
    if cacheTokens <= inputTokens {
      forall usage | Within(usage, inputTokens, outputTokens, cacheTokens)
        ensures UsageCost(usage, rates) <= Bound(rates, inputTokens, outputTokens)
      {
        BoundCovers(usage, rates, inputTokens, outputTokens);
      }
    } else if rates.cacheWrite == 0.0 {
      forall usage | Within(usage, inputTokens, outputTokens, cacheTokens)
        ensures UsageCost(usage, rates) <= Bound(rates, inputTokens, outputTokens)
      {
        ChargeMonotone(usage.outputTokens, outputTokens, rates.output, rates.output);
        FreeInput(usage, rates, inputTokens);
      }
    } else {
      var worst := NO_USAGE.(outputTokens := outputTokens, cacheWriteTokens := cacheTokens);
      assert Within(worst, inputTokens, outputTokens, cacheTokens);
      DearestUsage(worst, rates, inputTokens, outputTokens);
    }
  }

  /** And it is the least such bound: a call that writes its whole input to the cache and uses its whole output costs
      it. */
  lemma BoundReached(rates: Price, inputTokens: nat, outputTokens: nat)
    requires Ordered(rates)
    ensures exists usage | Within(usage, inputTokens, outputTokens, inputTokens) ::
              UsageCost(usage, rates) == Bound(rates, inputTokens, outputTokens)
  {
    var dearest := NO_USAGE.(inputTokens := inputTokens, cacheWriteTokens := inputTokens, outputTokens := outputTokens);
    assert Within(dearest, inputTokens, outputTokens, inputTokens);
    assert Charge(0, rates.input) == 0.0 && Charge(0, rates.cacheRead) == 0.0;
  }

  lemma FreeInput(usage: Usage, rates: Price, inputTokens: nat)
    requires Ordered(rates) && rates.cacheWrite == 0.0
    ensures UsageCost(usage, rates) == Charge(usage.outputTokens, rates.output)
    ensures Charge(inputTokens, Max(rates.input, rates.cacheWrite)) == 0.0
  {
  }

  lemma DearestUsage(usage: Usage, rates: Price, inputTokens: nat, outputTokens: nat)
    requires Ordered(rates) && rates.cacheWrite > 0.0
    requires usage.inputTokens == 0 && usage.cacheReadTokens == 0 && usage.outputTokens == outputTokens
    requires usage.cacheWriteTokens > inputTokens
    ensures UsageCost(usage, rates) > Bound(rates, inputTokens, outputTokens)
  {
    var extra := usage.cacheWriteTokens - inputTokens;
    ChargeAdds(inputTokens, extra, rates.cacheWrite);
    assert extra as real * rates.cacheWrite > 0.0;
    assert Charge(0, rates.input) == 0.0 && Charge(0, rates.cacheRead) == 0.0;
  }
}
