/** Pricing of reported usage: overlapping provider counters become disjoint buckets, a tier is
    chosen by context, and each bucket is charged in 28-digit decimal arithmetic. */
module Pricing {
  import opened Prelude
  import opened Usage

  // ---------------------------------------------------------------- 28-digit decimals

  const PRECISION := 10_000_000_000_000_000_000_000_000_000   // ten to the 28th

  /** A non-negative decimal, coefficient times ten to the exponent. */
  datatype Dec = Dec(coef: nat, exp: int)

  /** How many digits a coefficient has beyond the context precision. */
  function Surplus(coef: nat): nat {
    if coef < PRECISION then 0 else 1 + Surplus(coef / 10)
  }

  function HalfEven(n: nat, unit: nat): nat
    requires unit > 0
  {
    var q, r := n / unit, n % unit;
    if 2 * r > unit || (2 * r == unit && q % 2 == 1) then q + 1 else q
  }

  /** Rounding of a result to the context precision. */
  function Fix(d: Dec): Dec {
    var k := Surplus(d.coef);
    if k == 0 then d else Dec(HalfEven(d.coef, Pow10(k)), d.exp + k)
  }

  function Mul(a: Dec, b: Dec): Dec {
    Fix(Dec(a.coef * b.coef, a.exp + b.exp))
  }

  /** Division by one million: a quotient that fits the precision is exact. */
  function PerMillion(a: Dec): Dec {
    Fix(Dec(a.coef, a.exp - 6))
  }

  function Add(a: Dec, b: Dec): Dec {
    var e := Min(a.exp, b.exp);
    Fix(Dec(a.coef * Pow10(a.exp - e) + b.coef * Pow10(b.exp - e), e))
  }

  function SumDec(from: Dec, ds: seq<Dec>): Dec
    decreases |ds|
  {
    if ds == [] then from else SumDec(Add(from, ds[0]), ds[1..])
  }

  /** The number a decimal stands for, in units of ten to the minus fifteenth. */
  function Units(d: Dec): nat
    requires d.exp >= -15
  {
    d.coef * Pow10(d.exp + 15)
  }

  // ---------------------------------------------------------------- schedules

  datatype Category = InputC | OutputC | ReasoningC | CacheReadC | CacheWriteC | CacheWrite5mC | CacheWrite1hC

  type Rates = map<Category, Dec>
  datatype Tier = Tier(upTo: Option<int>, rates: Rates)
  /** `serviceTier` None is the schedule for every service tier. */
  datatype Schedule = Schedule(serviceTier: Option<ServiceTier>, tiers: seq<Tier>)

  /** At most a million dollars per million tokens, with at most nine decimal places. */
  ghost predicate RateValid(r: Dec) {
    -9 <= r.exp <= 6 && r.coef * Pow10(r.exp + 9) <= 1_000_000_000_000_000
  }

  /** Bounds increase strictly and only the last tier is unbounded. */
  ghost predicate Ordered(tiers: seq<Tier>) {
    && tiers != [] && tiers[|tiers| - 1].upTo.None?
    && (forall i :: 0 <= i < |tiers| - 1 ==> tiers[i].upTo.Some?)
    && (forall i, j :: 0 <= i < j < |tiers| - 1 ==> tiers[i].upTo.value < tiers[j].upTo.value)
  }

  ghost predicate ScheduleValid(s: Schedule) {
    Ordered(s.tiers) && forall i, c :: 0 <= i < |s.tiers| && c in s.tiers[i].rates ==> RateValid(s.tiers[i].rates[c])
  }

  /** A tier covers a context when it is unbounded or the context does not pass its bound. */
  predicate Covers(t: Tier, context: int) {
    t.upTo.None? || context <= t.upTo.value
  }

  function FirstCovering(tiers: seq<Tier>, context: int): Option<nat> {
    if tiers == [] then None
    else if Covers(tiers[0], context) then Some(0)
    else
      var rest := FirstCovering(tiers[1..], context);
      if rest.None? then None else Some(rest.value + 1)
  }

  lemma {:induction false} FirstCoveringIsFirst(tiers: seq<Tier>, context: int)
    ensures var r := FirstCovering(tiers, context);
            && (r.Some? ==> r.value < |tiers| && Covers(tiers[r.value], context))
            && forall i :: 0 <= i < (if r.Some? then r.value else |tiers|) ==> !Covers(tiers[i], context)
  {
    if tiers != [] && !Covers(tiers[0], context) {
      FirstCoveringIsFirst(tiers[1..], context);
      var r := FirstCovering(tiers, context);
      forall i | 0 <= i < (if r.Some? then r.value else |tiers|)
        ensures !Covers(tiers[i], context)
      {
        if i > 0 {
          assert tiers[i] == tiers[1..][i - 1];
        }
      }
    }
  }

  /** The half-open band of contexts a tier is for. */
  ghost predicate InBand(tiers: seq<Tier>, i: nat, context: int)
    requires i < |tiers| && Ordered(tiers)
  {
    Covers(tiers[i], context) && (i > 0 ==> tiers[i - 1].upTo.value < context)
  }

  /** An ordered schedule puts every context in exactly one tier, and that one is chosen. */
  lemma ExactlyOneTier(tiers: seq<Tier>, context: int)
    requires Ordered(tiers)
    ensures FirstCovering(tiers, context).Some? && FirstCovering(tiers, context).value < |tiers|
    ensures forall i: nat :: i < |tiers| ==> (InBand(tiers, i, context) <==> i == FirstCovering(tiers, context).value)
  {
    FirstCoveringIsFirst(tiers, context);
    var r := FirstCovering(tiers, context);
    assert Covers(tiers[|tiers| - 1], context);
    forall i: nat | i < |tiers|
      ensures InBand(tiers, i, context) <==> i == r.value
    {
      if i > r.value {
        assert tiers[r.value].upTo.value <= tiers[i - 1].upTo.value;
      } else if i == r.value && i > 0 {
        assert !Covers(tiers[i - 1], context);
      }
    }
  }

  // ---------------------------------------------------------------- buckets

  datatype Bucket = Bucket(category: Category, tokens: Count)

  function Minus(a: Count, b: Count): Count {
    if a.Some? && b.Some? then Some(a.value - b.value) else None
  }

  /** Native counters as disjoint buckets. */
  function NativeBuckets(u: ProviderUsage): seq<Bucket> {
    match u.provider
    case Anthropic =>
      [Bucket(InputC, u.input), Bucket(OutputC, u.output), Bucket(CacheReadC, u.cacheRead)] +
      (if u.cacheWrite == Some(0) then [Bucket(CacheWrite5mC, Some(0)), Bucket(CacheWrite1hC, Some(0))]
       else [Bucket(CacheWrite5mC, u.cacheWrite5m), Bucket(CacheWrite1hC, u.cacheWrite1h)])
    case Google =>
      [Bucket(InputC, Minus(u.input, u.cacheRead)), Bucket(OutputC, u.output), Bucket(CacheReadC, u.cacheRead),
       Bucket(ReasoningC, u.reasoning)]
    case OpenAI =>
      [Bucket(InputC, if Unsupported(u) then None else Minus(u.input, u.cacheRead)), Bucket(OutputC, u.output),
       Bucket(CacheReadC, u.cacheRead)]
  }

  /** OpenAI has no cache-write category in this version. */
  predicate Unsupported(u: ProviderUsage) {
    u.provider == OpenAI && u.cacheWrite.Some? && u.cacheWrite.value != 0
  }

  function RunnerBuckets(u: RunnerUsage): seq<Bucket> {
    [Bucket(InputC, u.input), Bucket(OutputC, u.output), Bucket(ReasoningC, u.reasoning),
     Bucket(CacheReadC, u.cacheRead), Bucket(CacheWriteC, u.cacheWrite)]
  }

  function SumBuckets(bs: seq<Bucket>): Count {
    if bs == [] then Some(0)
    else if bs[0].tokens.None? then None
    else
      var rest := SumBuckets(bs[1..]);
      if rest.None? then None else Some(bs[0].tokens.value + rest.value)
  }

  ghost predicate AllKnown(bs: seq<Bucket>) {
    forall i :: 0 <= i < |bs| ==> bs[i].tokens.Some?
  }

  /** Splitting overlapping counters loses and invents nothing: with a known total and every priced
      bucket known, the buckets are non-negative, bounded, and add up to that total, which is also
      the reported one when there is one. */
  lemma BucketsPartitionTotal(u: ProviderUsage)
    requires u.Valid() && u.TotalTokens().Some? && AllKnown(NativeBuckets(u))
    ensures SumBuckets(NativeBuckets(u)) == u.TotalTokens()
    ensures u.reportedTotal.Some? ==> SumBuckets(NativeBuckets(u)) == u.reportedTotal
    ensures forall i :: 0 <= i < |NativeBuckets(u)| ==> 0 <= NativeBuckets(u)[i].tokens.value <= COUNT_LIMIT
  {
    var bs := NativeBuckets(u);
    assert bs[0].tokens.Some? && bs[1].tokens.Some? && bs[2].tokens.Some?;
    SumOfParts(u.Parts());
    match u.provider
    case Anthropic =>
      assert bs[3].tokens.Some? && bs[4].tokens.Some?;
      assert u.Parts()[3] == u.cacheWrite;
      SumOfFive(bs);
    case Google =>
      assert bs[3].tokens.Some?;
      SumOfFour(bs);
    case OpenAI =>
      SumOfThree(bs);
  }

  lemma SumOfThree(bs: seq<Bucket>)
    requires |bs| == 3 && AllKnown(bs)
    ensures SumBuckets(bs) == Some(bs[0].tokens.value + bs[1].tokens.value + bs[2].tokens.value)
  {
    assert SumBuckets(bs[3..]) == Some(0);
    assert bs[2..][1..] == bs[3..] && SumBuckets(bs[2..]) == Some(bs[2].tokens.value);
    assert bs[1..][1..] == bs[2..];
  }

  lemma SumOfFour(bs: seq<Bucket>)
    requires |bs| == 4 && AllKnown(bs)
    ensures SumBuckets(bs) == Some(bs[0].tokens.value + bs[1].tokens.value + bs[2].tokens.value + bs[3].tokens.value)
  {
    SumOfThree(bs[1..]);
  }

  lemma SumOfFive(bs: seq<Bucket>)
    requires |bs| == 5 && AllKnown(bs)
    ensures SumBuckets(bs) == Some(bs[0].tokens.value + bs[1].tokens.value + bs[2].tokens.value
                                   + bs[3].tokens.value + bs[4].tokens.value)
  {
    SumOfFour(bs[1..]);
  }

  lemma SumOfParts(cs: seq<Count>)
    requires 2 <= |cs| <= 4 && SumKnown(cs).Some?
    ensures forall i :: 0 <= i < |cs| ==> cs[i].Some?
    ensures SumKnown(cs).value == cs[0].value + cs[1].value + (if |cs| > 2 then cs[2].value else 0)
                                  + (if |cs| > 3 then cs[3].value else 0)
  {
    assert cs[0].Some? && SumKnown(cs[1..]).Some? && cs[1..][0] == cs[1];
    assert SumKnown(cs[1..][1..]).Some? && cs[1..][1..] == cs[2..];
    if |cs| > 2 {
      assert SumKnown(cs[2..][1..]).Some? && cs[2..][1..] == cs[3..];
      if |cs| > 3 {
        assert cs[3..][1..] == [];
      }
    }
  }

  // ---------------------------------------------------------------- the estimate

  datatype Status = NotAvailable | Complete | Partial
  datatype Basis = NativeBasis | RunnerBasis | Unreported

  datatype Reason =
    | UsageNotReported | RunnerBillingIncomplete | RequestAndRetryUnknown | RunnerZeroFills
    | ScheduleUnavailable | ServiceTierUnmatched | ModelUnmatched | TierUnavailable
    | UnsupportedCacheWrite | UnpricedCategories
    | UsageUnknown(category: Category) | RateUnknown(category: Category)

  datatype Line = Line(bucket: Bucket, rate: Option<Dec>, cost: Option<Dec>)

  datatype Estimate = Estimate(basis: Basis, status: Status, knownCost: Option<Dec>, tier: Option<Tier>,
                               lines: seq<Line>, reasons: seq<Reason>)

  function RateFor(rates: Rates, c: Category): Option<Dec> {
    if c in rates then Some(rates[c]) else None
  }

  function CostOf(b: Bucket, rates: Rates): Option<Dec> {
    if b.tokens.None? || b.tokens.value < 0 then None
    else if b.tokens.value == 0 then Some(Dec(0, 0))
    else if b.category !in rates then None
    else Some(PerMillion(Mul(Dec(b.tokens.value, 0), rates[b.category])))
  }

  function LineOf(b: Bucket, rates: Rates): Line {
    Line(b, RateFor(rates, b.category), CostOf(b, rates))
  }

  function ReasonOf(b: Bucket, rates: Rates): seq<Reason> {
    if b.tokens.None? || b.tokens.value < 0 then [UsageUnknown(b.category)]
    else if CostOf(b, rates).None? then [RateUnknown(b.category)]
    else []
  }

  function Lines(bs: seq<Bucket>, rates: Rates): seq<Line> {
    if bs == [] then [] else Lines(bs[..|bs| - 1], rates) + [LineOf(bs[|bs| - 1], rates)]
  }

  function LineReasons(bs: seq<Bucket>, rates: Rates): seq<Reason> {
    if bs == [] then [] else LineReasons(bs[..|bs| - 1], rates) + ReasonOf(bs[|bs| - 1], rates)
  }

  function Charges(bs: seq<Bucket>, rates: Rates): seq<Dec> {
    if bs == [] then []
    else
      var c := CostOf(bs[|bs| - 1], rates);
      Charges(bs[..|bs| - 1], rates) + (if c.Some? then [c.value] else [])
  }

  /** A non-zero bucket that was charged. */
  predicate Useful(bs: seq<Bucket>, rates: Rates) {
    exists i :: 0 <= i < |bs| && CostOf(bs[i], rates).Some? && bs[i].tokens != Some(0)
  }

  const RUNNER_REASONS: seq<Reason> := [RunnerBillingIncomplete, RequestAndRetryUnknown, RunnerZeroFills]

  function NativeContext(u: ProviderUsage): Count {
    if u.provider == Anthropic then SumKnown([u.input, u.cacheRead, u.cacheWrite]) else u.input
  }

  /** The tier whose rates apply, if it can be determined. */
  function ChooseTier(native: Option<ProviderUsage>, tiers: seq<Tier>): Option<Tier> {
    if |tiers| == 1 then Some(tiers[0])
    else if native.None? || NativeContext(native.value).None? then None
    else
      var i := FirstCovering(tiers, NativeContext(native.value).value);
      if i.Some? && i.value < |tiers| then Some(tiers[i.value]) else None
  }

  function BucketsOf(native: Option<ProviderUsage>, runner: Option<RunnerUsage>): seq<Bucket> {
    if runner.Some? then RunnerBuckets(runner.value)
    else if native.Some? then NativeBuckets(native.value) else []
  }

  /** OpenCode discards the TTL of Anthropic cache writes, so no rate is assumed for them. */
  function EffectiveRates(runner: Option<RunnerUsage>, rates: Rates): Rates {
    if runner.Some? && runner.value.provider == Anthropic && runner.value.cacheWrite != Some(0)
    then rates - {CacheWriteC} else rates
  }

  function BucketReasons(native: Option<ProviderUsage>, runner: Option<RunnerUsage>): seq<Reason> {
    if native.None? || runner.Some? then []
    else
      var bs := NativeBuckets(native.value);
      (if Unsupported(native.value) then [UnsupportedCacheWrite] else []) +
      (if native.value.reportedTotal.Some? && SumBuckets(bs).Some? && SumBuckets(bs) != native.value.reportedTotal
       then [UnpricedCategories] else [])
  }

  /** Why nothing can be estimated, if so. */
  function Blocker(native: Option<ProviderUsage>, runner: Option<RunnerUsage>, schedule: Option<Schedule>,
                   expectedModel: Option<string>): Option<Reason>
  {
    var modelId := if native.Some? then native.value.modelId else None;
    if native.None? && runner.None? then Some(UsageNotReported)
    else if schedule.None? then Some(ScheduleUnavailable)
    else if schedule.value.serviceTier.Some?
            && (runner.Some? || native.value.serviceTier != schedule.value.serviceTier) then Some(ServiceTierUnmatched)
    else if native.Some? && expectedModel.Some? && modelId != expectedModel then Some(ModelUnmatched)
    else if ChooseTier(native, schedule.value.tiers).None? then Some(TierUnavailable)
    else None
  }

  function BasisOf(native: Option<ProviderUsage>, runner: Option<RunnerUsage>): Basis {
    if native.Some? then NativeBasis else if runner.Some? then RunnerBasis else Unreported
  }

  function RunnerReasons(runner: Option<RunnerUsage>): seq<Reason> {
    if runner.Some? then RUNNER_REASONS else []
  }

  /** `estimate`, as a function of its inputs. */
  function Estimated(native: Option<ProviderUsage>, runner: Option<RunnerUsage>, schedule: Option<Schedule>,
                     expectedModel: Option<string>): Estimate
    requires native.None? || runner.None?
  {
    var blocker := Blocker(native, runner, schedule, expectedModel);
    var basis := BasisOf(native, runner);
    if blocker.Some? then
      Estimate(basis, NotAvailable, None, None, [], RunnerReasons(runner) + [blocker.value])
    else
      var tier := ChooseTier(native, schedule.value.tiers).value;
      var rates := EffectiveRates(runner, tier.rates);
      var bs := BucketsOf(native, runner);
      var reasons := RunnerReasons(runner) + BucketReasons(native, runner) + LineReasons(bs, rates);
      var priced := reasons == [] || Useful(bs, rates);
      Estimate(basis, if !priced then NotAvailable else if reasons == [] then Complete else Partial,
               if priced then Some(SumDec(Dec(0, 0), Charges(bs, rates))) else None,
               Some(tier), Lines(bs, rates), reasons)
  }

  /** The search for a tier, as the loop over the schedule. */
  method FindTier(tiers: seq<Tier>, context: int) returns (i: Option<nat>)
    ensures i == FirstCovering(tiers, context)
  {
    var k := 0;
    while k < |tiers|
      invariant k <= |tiers|
      invariant forall j :: 0 <= j < k ==> !Covers(tiers[j], context)
    {
      if Covers(tiers[k], context) {
        FirstCoveringIsFirst(tiers, context);
        return Some(k);
      }
      k := k + 1;
    }
    FirstCoveringIsFirst(tiers, context);
    i := None;
  }

  /** `estimate`: reasons, charges and lines are appended bucket by bucket. */
  method EstimateUsage(native: Option<ProviderUsage>, runner: Option<RunnerUsage>, schedule: Option<Schedule>,
                       expectedModel: Option<string>) returns (r: Estimate)
    requires native.None? || runner.None?
    ensures r == Estimated(native, runner, schedule, expectedModel)
  {
    hide CostOf, NativeBuckets, Blocker, ChooseTier, EffectiveRates, BucketReasons, SumDec, ReasonOf, Useful, RateFor;
    NothingUseful(native, runner, schedule, expectedModel);
    var reasons := RunnerReasons(runner);
    var basis := BasisOf(native, runner);
    var blocker := Blocker(native, runner, schedule, expectedModel);
    if blocker.Some? {
      return Estimate(basis, NotAvailable, None, None, [], reasons + [blocker.value]);
    }
    var tier := ChooseTier(native, schedule.value.tiers).value;
    var rates := EffectiveRates(runner, tier.rates);
    var bs := BucketsOf(native, runner);
    reasons := reasons + BucketReasons(native, runner);
    ghost var before := reasons;
    var charges: seq<Dec> := [];
    var lines: seq<Line> := [];
    var useful := false;
    var i := 0;
    while i < |bs|
      invariant i <= |bs|
      invariant lines == Lines(bs[..i], rates) && charges == Charges(bs[..i], rates)
      invariant reasons == before + LineReasons(bs[..i], rates)
      invariant useful <==> Useful(bs[..i], rates)
    {
      var b := bs[i];
      var cost := CostOf(b, rates);
      assert bs[..i + 1][..i] == bs[..i] && bs[..i + 1][i] == b;
      reasons := reasons + ReasonOf(b, rates);
      if cost.Some? {
        charges := charges + [cost.value];
        if b.tokens != Some(0) {
          useful := true;
        }
      }
      UsefulStep(bs, i, rates);
      lines := lines + [LineOf(b, rates)];
      i := i + 1;
    }
    assert bs[..i] == bs;
    var complete := reasons == [];
    r := Estimate(basis, NotAvailable, None, Some(tier), lines, reasons);
    if complete || useful {
      r := r.(knownCost := Some(SumDec(Dec(0, 0), charges)), status := if complete then Complete else Partial);
    }
  }

  lemma NothingUseful(native: Option<ProviderUsage>, runner: Option<RunnerUsage>, schedule: Option<Schedule>,
                      expectedModel: Option<string>)
    ensures forall rates :: !Useful([], rates)
    ensures Blocker(native, runner, schedule, expectedModel).None? ==>
              schedule.Some? && ChooseTier(native, schedule.value.tiers).Some?
  {
  }

  lemma UsefulStep(bs: seq<Bucket>, i: nat, rates: Rates)
    requires i < |bs|
    ensures Useful(bs[..i + 1], rates) <==>
              Useful(bs[..i], rates) || (CostOf(bs[i], rates).Some? && bs[i].tokens != Some(0))
  {
    hide CostOf;
    var longer, shorter := bs[..i + 1], bs[..i];
    if Useful(shorter, rates) {
      var k :| 0 <= k < i && CostOf(shorter[k], rates).Some? && shorter[k].tokens != Some(0);
      assert longer[k] == shorter[k];
    }
    if Useful(longer, rates) {
      var k :| 0 <= k < i + 1 && CostOf(longer[k], rates).Some? && longer[k].tokens != Some(0);
      assert k < i ==> shorter[k] == longer[k];
    }
    assert longer[i] == bs[i];
  }

  // ---------------------------------------------------------------- exactness

  const CHARGE_LIMIT := 10_000_000_000_000_000_000_000   // ten million dollars, in units

  lemma SmallIsExact(d: Dec)
    requires d.coef < PRECISION
    ensures Fix(d) == d
  {
  }

  lemma ProductBounds(n: nat, coef: nat, p: nat)
    requires n <= COUNT_LIMIT && p >= 1 && coef * p <= 1_000_000_000_000_000
    ensures n * coef <= COUNT_LIMIT * 1_000_000_000_000_000
    ensures (n * coef) * p == n * (coef * p) <= COUNT_LIMIT * 1_000_000_000_000_000
  {
    assert coef * 1 <= coef * p;
    assert n * coef <= COUNT_LIMIT * coef;
    assert n * (coef * p) <= COUNT_LIMIT * (coef * p);
  }

  /** A charge is exact: no rounding happens in its product or its quotient. */
  lemma ChargeIsExact(b: Bucket, rates: Rates)
    requires b.category in rates && RateValid(rates[b.category])
    requires b.tokens.Some? && 0 < b.tokens.value <= COUNT_LIMIT
    ensures var c := CostOf(b, rates);
            && c.Some? && -15 <= c.value.exp <= 0
            && Units(c.value) == b.tokens.value * (rates[b.category].coef * Pow10(rates[b.category].exp + 9))
            && Units(c.value) <= CHARGE_LIMIT
  {
    var n, r := b.tokens.value, rates[b.category];
    ProductBounds(n, r.coef, Pow10(r.exp + 9));
    hide Fix, Pow10;
    SmallIsExact(Dec(n * r.coef, r.exp));
    SmallIsExact(Dec(n * r.coef, r.exp - 6));
    assert Mul(Dec(n, 0), r) == Dec(n * r.coef, r.exp);
  }

  lemma ZeroUnits(e: int)
    requires e >= -15
    ensures Units(Dec(0, e)) == 0
  {
  }

  /** Adding two amounts that are small enough is exact. */
  lemma AddIsExact(a: Dec, b: Dec)
    requires -15 <= a.exp && -15 <= b.exp && Units(a) + Units(b) < PRECISION
    ensures Add(a, b).exp == Min(a.exp, b.exp) && Units(Add(a, b)) == Units(a) + Units(b)
  {
    var e := Min(a.exp, b.exp);
    var p := Pow10(e + 15);
    var x, y := a.coef * Pow10(a.exp - e), b.coef * Pow10(b.exp - e);
    Rescale(a.coef, a.exp - e, e + 15);
    Rescale(b.coef, b.exp - e, e + 15);
    Distribute(x, y, p);
    hide Fix, Pow10;
    SmallIsExact(Dec(x + y, e));
  }

  lemma Distribute(x: nat, y: nat, p: nat)
    requires p >= 1
    ensures (x + y) * p == x * p + y * p && x + y <= (x + y) * p
  {
  }

  lemma Rescale(n: nat, k: nat, m: nat)
    ensures (n * Pow10(k)) * Pow10(m) == n * Pow10(k + m)
  {
    Pow10Adds(k, m);
    Associate(n, Pow10(k), Pow10(m));
  }

  lemma Associate(a: nat, b: nat, c: nat)
    ensures (a * b) * c == a * (b * c)
  {
  }

  function UnitsOf(ds: seq<Dec>): nat
    requires forall i :: 0 <= i < |ds| ==> ds[i].exp >= -15
  {
    if ds == [] then 0 else Units(ds[0]) + UnitsOf(ds[1..])
  }

  lemma {:induction false} SumIsExact(from: Dec, ds: seq<Dec>)
    requires from.exp >= -15 && forall i :: 0 <= i < |ds| ==> ds[i].exp >= -15
    requires Units(from) + UnitsOf(ds) < PRECISION
    ensures SumDec(from, ds).exp >= -15 && Units(SumDec(from, ds)) == Units(from) + UnitsOf(ds)
    decreases |ds|
  {
    if ds != [] {
      AddIsExact(from, ds[0]);
      SumIsExact(Add(from, ds[0]), ds[1..]);
    }
  }

  /** What a bucket costs exactly, in units; nothing when it cannot be priced. */
  function ExactUnits(b: Bucket, rates: Rates): nat {
    if b.tokens.Some? && b.tokens.value > 0 && b.category in rates && rates[b.category].exp >= -9
    then b.tokens.value * (rates[b.category].coef * Pow10(rates[b.category].exp + 9)) else 0
  }

  function ExactTotal(bs: seq<Bucket>, rates: Rates): nat {
    if bs == [] then 0 else ExactTotal(bs[..|bs| - 1], rates) + ExactUnits(bs[|bs| - 1], rates)
  }

  ghost predicate BucketsValid(bs: seq<Bucket>, rates: Rates) {
    && (forall i :: 0 <= i < |bs| && bs[i].tokens.Some? ==> bs[i].tokens.value <= COUNT_LIMIT)
    && (forall c :: c in rates ==> RateValid(rates[c]))
  }

  lemma {:induction false} UnitsOfAppend(ds: seq<Dec>, d: Dec)
    requires d.exp >= -15 && forall i :: 0 <= i < |ds| ==> ds[i].exp >= -15
    ensures UnitsOf(ds + [d]) == UnitsOf(ds) + Units(d)
    decreases |ds|
  {
    if ds == [] {
      assert ds + [d] == [d] && [d][1..] == [];
    } else {
      assert (ds + [d])[1..] == ds[1..] + [d];
      UnitsOfAppend(ds[1..], d);
    }
  }

  lemma {:induction false} ChargesAreExact(bs: seq<Bucket>, rates: Rates)
    requires BucketsValid(bs, rates)
    ensures forall i :: 0 <= i < |Charges(bs, rates)| ==> Charges(bs, rates)[i].exp >= -15
    ensures UnitsOf(Charges(bs, rates)) == ExactTotal(bs, rates) <= |bs| * CHARGE_LIMIT
    decreases |bs|
  {
    hide CostOf, ExactUnits, Units, RateValid;
    if bs != [] {
      var b := bs[|bs| - 1];
      var init := bs[..|bs| - 1];
      ChargesAreExact(init, rates);
      OneCharge(b, rates);
      if CostOf(b, rates).Some? {
        UnitsOfAppend(Charges(init, rates), CostOf(b, rates).value);
      } else {
        assert Charges(bs, rates) == Charges(init, rates);
      }
    }
  }

  /** A bucket is charged exactly, if it is charged, and for nothing otherwise. */
  lemma OneCharge(b: Bucket, rates: Rates)
    requires (b.tokens.Some? ==> b.tokens.value <= COUNT_LIMIT) && forall c :: c in rates ==> RateValid(rates[c])
    ensures var c := CostOf(b, rates);
            if c.None? then ExactUnits(b, rates) == 0
            else c.value.exp >= -15 && Units(c.value) == ExactUnits(b, rates) <= CHARGE_LIMIT
  {
    if CostOf(b, rates).None? {
      return;
    }
    hide CostOf;
    if b.tokens == Some(0) {
      ZeroCost(b, rates);
    } else {
      PricedHasRate(b, rates);
      ChargeIsExact(b, rates);
    }
  }

  lemma ZeroCost(b: Bucket, rates: Rates)
    requires b.tokens == Some(0)
    ensures CostOf(b, rates) == Some(Dec(0, 0)) && Units(Dec(0, 0)) == 0 && ExactUnits(b, rates) == 0
  {
    ZeroUnits(0);
  }

  lemma PricedHasRate(b: Bucket, rates: Rates)
    requires CostOf(b, rates).Some? && b.tokens != Some(0)
    ensures b.tokens.Some? && b.tokens.value > 0 && b.category in rates
  {
  }

  ghost predicate InputsValid(native: Option<ProviderUsage>, runner: Option<RunnerUsage>, schedule: Option<Schedule>) {
    && (native.Some? ==> native.value.Valid()) && (runner.Some? ==> runner.value.Valid())
    && !(native.Some? && runner.Some?)
    && (schedule.Some? ==> ScheduleValid(schedule.value))
  }

  lemma InputsGiveValidBuckets(native: Option<ProviderUsage>, runner: Option<RunnerUsage>, schedule: Schedule)
    requires InputsValid(native, runner, Some(schedule)) && ChooseTier(native, schedule.tiers).Some?
    ensures var rates := EffectiveRates(runner, ChooseTier(native, schedule.tiers).value.rates);
            BucketsValid(BucketsOf(native, runner), rates) && |BucketsOf(native, runner)| <= 5
  {
    hide RateValid;
    var tiers := schedule.tiers;
    var t := ChooseTier(native, tiers).value;
    assert exists i :: 0 <= i < |tiers| && tiers[i] == t;
    if native.Some? && runner.None? {
      NativeBounds(native.value);
    }
  }

  lemma NativeBounds(u: ProviderUsage)
    requires u.Valid()
    ensures |NativeBuckets(u)| <= 5
    ensures forall i :: 0 <= i < |NativeBuckets(u)| && NativeBuckets(u)[i].tokens.Some? ==>
              0 <= NativeBuckets(u)[i].tokens.value <= COUNT_LIMIT
  {
  }

  /** The known cost is exact: no product, quotient or sum is rounded, for any valid usage and any
      valid schedule. */
  lemma KnownCostIsExact(native: Option<ProviderUsage>, runner: Option<RunnerUsage>, schedule: Option<Schedule>,
                         expectedModel: Option<string>)
    requires InputsValid(native, runner, schedule)
    ensures var r := Estimated(native, runner, schedule, expectedModel);
            r.knownCost.Some? ==>
              && r.tier.Some? && r.knownCost.value.exp >= -15
              && Units(r.knownCost.value)
                 == ExactTotal(BucketsOf(native, runner), EffectiveRates(runner, r.tier.value.rates))
  {
    hide CostOf, NativeBuckets, RateValid;
    var r := Estimated(native, runner, schedule, expectedModel);
    if r.knownCost.Some? {
      var rates := EffectiveRates(runner, r.tier.value.rates);
      InputsGiveValidBuckets(native, runner, schedule.value);
      ChargesAreExact(BucketsOf(native, runner), rates);
      ZeroUnits(0);
      SumIsExact(Dec(0, 0), Charges(BucketsOf(native, runner), rates));
    }
  }

  // ---------------------------------------------------------------- withdrawing rates

  /** The same tiers with some rates missing. */
  ghost predicate Withdrawn(less: Schedule, more: Schedule) {
    && less.serviceTier == more.serviceTier && |less.tiers| == |more.tiers|
    && forall i :: 0 <= i < |less.tiers| ==>
         && less.tiers[i].upTo == more.tiers[i].upTo
         && FewerRates(less.tiers[i].rates, more.tiers[i].rates)
  }

  ghost predicate FewerRates(less: Rates, more: Rates) {
    forall c :: c in less ==> c in more && less[c] == more[c]
  }

  lemma {:induction false} SameTierChosen(a: seq<Tier>, b: seq<Tier>, context: int)
    requires |a| == |b| && forall i :: 0 <= i < |a| ==> a[i].upTo == b[i].upTo
    ensures FirstCovering(a, context) == FirstCovering(b, context)
  {
    if a != [] {
      SameTierChosen(a[1..], b[1..], context);
    }
  }

  lemma {:induction false} FewerRatesCostLess(bs: seq<Bucket>, less: Rates, more: Rates)
    requires FewerRates(less, more)
    ensures ExactTotal(bs, less) <= ExactTotal(bs, more)
    ensures LineReasons(bs, less) == [] ==> LineReasons(bs, more) == []
    ensures Useful(bs, less) ==> Useful(bs, more)
    decreases |bs|
  {
    if bs != [] {
      FewerRatesCostLess(bs[..|bs| - 1], less, more);
    }
    if Useful(bs, less) {
      var i :| 0 <= i < |bs| && CostOf(bs[i], less).Some? && bs[i].tokens != Some(0);
      assert CostOf(bs[i], more).Some?;
    }
  }

  /** Withdrawing rates from a schedule never raises the known cost, and never makes one known. */
  lemma WithdrawingNeverRaises(native: Option<ProviderUsage>, runner: Option<RunnerUsage>,
                               less: Schedule, more: Schedule, expectedModel: Option<string>)
    requires InputsValid(native, runner, Some(less)) && InputsValid(native, runner, Some(more)) && Withdrawn(less, more)
    ensures var a := Estimated(native, runner, Some(less), expectedModel);
            var b := Estimated(native, runner, Some(more), expectedModel);
            a.knownCost.Some? ==>
              && b.knownCost.Some? && a.knownCost.value.exp >= -15 && b.knownCost.value.exp >= -15
              && Units(a.knownCost.value) <= Units(b.knownCost.value)
  {
    hide CostOf, NativeBuckets, RateValid, LineReasons, ExactTotal, Useful, Charges, SumDec, Lines, InputsValid;
    KnownCostIsExact(native, runner, Some(less), expectedModel);
    KnownCostIsExact(native, runner, Some(more), expectedModel);
    if native.Some? && NativeContext(native.value).Some? {
      SameTierChosen(less.tiers, more.tiers, NativeContext(native.value).value);
    }
    var x, y := ChooseTier(native, less.tiers), ChooseTier(native, more.tiers);
    assert x.Some? <==> y.Some?;
    if x.Some? {
      assert FewerRates(x.value.rates, y.value.rates);
      FewerRatesCostLess(BucketsOf(native, runner), EffectiveRates(runner, x.value.rates), EffectiveRates(runner, y.value.rates));
    }
  }

  /** Runner usage never yields a complete estimate; a complete one is native, and prices every
      bucket of it. */
  lemma CompleteMeansNative(native: Option<ProviderUsage>, runner: Option<RunnerUsage>, schedule: Option<Schedule>,
                            expectedModel: Option<string>)
    requires native.None? || runner.None?
    requires Estimated(native, runner, schedule, expectedModel).status == Complete
    ensures runner.None? && native.Some? && !Unsupported(native.value)
    ensures AllPriced(NativeBuckets(native.value), Estimated(native, runner, schedule, expectedModel).tier.value.rates)
    ensures native.value.reportedTotal.Some? ==>
              SumBuckets(NativeBuckets(native.value)) == native.value.reportedTotal
  {
    hide CostOf;
    var r := Estimated(native, runner, schedule, expectedModel);
    NoReasonsAllPriced(NativeBuckets(native.value), r.tier.value.rates);
    PricedIsKnown(NativeBuckets(native.value), r.tier.value.rates);
  }

  ghost predicate AllPriced(bs: seq<Bucket>, rates: Rates) {
    forall i :: 0 <= i < |bs| ==> CostOf(bs[i], rates).Some?
  }

  lemma {:induction false} NoReasonsAllPriced(bs: seq<Bucket>, rates: Rates)
    requires LineReasons(bs, rates) == []
    ensures AllPriced(bs, rates)
    decreases |bs|
  {
    if bs != [] {
      NoReasonsAllPriced(bs[..|bs| - 1], rates);
      forall i | 0 <= i < |bs|
        ensures CostOf(bs[i], rates).Some?
      {
        if i < |bs| - 1 {
          assert bs[..|bs| - 1][i] == bs[i];
        }
      }
    }
  }

  lemma {:induction false} PricedIsKnown(bs: seq<Bucket>, rates: Rates)
    requires AllPriced(bs, rates)
    ensures SumBuckets(bs).Some?
  {
    if bs != [] {
      assert CostOf(bs[0], rates).Some?;
      forall i | 0 <= i < |bs[1..]|
        ensures CostOf(bs[1..][i], rates).Some?
      {
        assert bs[1..][i] == bs[i + 1];
      }
      PricedIsKnown(bs[1..], rates);
    }
  }
}
