/** What an estimate charges for, field by field: which reported counter is priced at which rate, which
    context selects the rates, and when an estimate is complete. */
module PricedFields {
  import opened Prelude
  import opened Usage
  import opened Pricing

  /** A count at the rate of a category, in units; nothing while either is unknown. */
  function Charge(n: Count, rates: Rates, c: Category): nat {
    if n.Some? && n.value > 0 && c in rates && rates[c].exp >= -9
    then n.value * (rates[c].coef * Pow10(rates[c].exp + 9)) else 0
  }

  /** A part of a count that includes another. */
  function Without(whole: Count, part: Count): Count {
    if whole.Some? && part.Some? then Some(whole.value - part.value) else None
  }

  /** OpenAI counts cached input within the input, and prices no cache writes; Anthropic counts cached
      input and cache writes beside it, by time to live; Google counts cached input within the input and
      reasoning beside the output. */
  function NativeCharge(u: ProviderUsage, rates: Rates): nat {
    match u.provider
    case OpenAI =>
      var writes := u.cacheWrite.Some? && u.cacheWrite.value != 0;
      Charge(if writes then None else Without(u.input, u.cacheRead), rates, InputC)
      + Charge(u.output, rates, OutputC) + Charge(u.cacheRead, rates, CacheReadC)
    case Anthropic =>
      var none := u.cacheWrite == Some(0);
      Charge(u.input, rates, InputC) + Charge(u.output, rates, OutputC) + Charge(u.cacheRead, rates, CacheReadC)
      + (if none then 0 else Charge(u.cacheWrite5m, rates, CacheWrite5mC) + Charge(u.cacheWrite1h, rates, CacheWrite1hC))
    case Google =>
      Charge(Without(u.input, u.cacheRead), rates, InputC) + Charge(u.output, rates, OutputC)
      + Charge(u.cacheRead, rates, CacheReadC) + Charge(u.reasoning, rates, ReasoningC)
  }

  /** The runner's counters are disjoint; of Anthropic's cache writes it does not know the time to live. */
  function RunnerCharge(u: RunnerUsage, rates: Rates): nat {
    var writes := if u.provider == Anthropic && u.cacheWrite != Some(0) then None else u.cacheWrite;
    Charge(u.input, rates, InputC) + Charge(u.output, rates, OutputC) + Charge(u.reasoning, rates, ReasoningC)
    + Charge(u.cacheRead, rates, CacheReadC) + Charge(writes, rates, CacheWriteC)
  }

  lemma LastBucket(bs: seq<Bucket>, b: Bucket, rates: Rates)
    ensures ExactTotal(bs + [b], rates) == ExactTotal(bs, rates) + Charge(b.tokens, rates, b.category)
  {
    assert (bs + [b])[..|bs|] == bs;
  }

  lemma ThreeBuckets(a: Bucket, b: Bucket, c: Bucket, rates: Rates)
    ensures ExactTotal([a, b, c], rates)
         == Charge(a.tokens, rates, a.category) + Charge(b.tokens, rates, b.category) + Charge(c.tokens, rates, c.category)
  {
    assert [] + [a] == [a] && [a] + [b] == [a, b] && [a, b] + [c] == [a, b, c];
    hide Charge;
    LastBucket([], a, rates);
    LastBucket([a], b, rates);
    LastBucket([a, b], c, rates);
  }

  lemma FiveBuckets(a: Bucket, b: Bucket, c: Bucket, d: Bucket, e: Bucket, rates: Rates)
    ensures ExactTotal([a, b, c, d], rates) == ExactTotal([a, b, c], rates) + Charge(d.tokens, rates, d.category)
    ensures ExactTotal([a, b, c, d, e], rates) == ExactTotal([a, b, c, d], rates) + Charge(e.tokens, rates, e.category)
  {
    hide Charge, ExactTotal;
    assert [a, b, c] + [d] == [a, b, c, d] && [a, b, c, d] + [e] == [a, b, c, d, e];
    LastBucket([a, b, c], d, rates);
    LastBucket([a, b, c, d], e, rates);
  }

  lemma NativeTotal(u: ProviderUsage, rates: Rates)
    ensures ExactTotal(NativeBuckets(u), rates) == NativeCharge(u, rates)
  {
    hide ExactTotal;
    var bs := NativeBuckets(u);
    ThreeBuckets(bs[0], bs[1], bs[2], rates);
    match u.provider
    case OpenAI => assert bs == [bs[0], bs[1], bs[2]];
    case Anthropic =>
      FiveBuckets(bs[0], bs[1], bs[2], bs[3], bs[4], rates);
      assert bs == [bs[0], bs[1], bs[2], bs[3], bs[4]];
    case Google =>
      FiveBuckets(bs[0], bs[1], bs[2], bs[3], bs[3], rates);
      assert bs == [bs[0], bs[1], bs[2], bs[3]];
  }

  lemma RunnerTotal(u: RunnerUsage, rates: Rates)
    ensures ExactTotal(RunnerBuckets(u), EffectiveRates(Some(u), rates)) == RunnerCharge(u, rates)
  {
    hide ExactTotal;
    var bs, effective := RunnerBuckets(u), EffectiveRates(Some(u), rates);
    ThreeBuckets(bs[0], bs[1], bs[2], effective);
    FiveBuckets(bs[0], bs[1], bs[2], bs[3], bs[4], effective);
    assert bs == [bs[0], bs[1], bs[2], bs[3], bs[4]];
  }

  /** The known cost is exactly what the reported fields come to at the rates of the chosen tier. */
  lemma CostOfFields(native: Option<ProviderUsage>, runner: Option<RunnerUsage>, schedule: Option<Schedule>,
                     expectedModel: Option<string>)
    requires InputsValid(native, runner, schedule)
    ensures var r := Estimated(native, runner, schedule, expectedModel);
            r.knownCost.Some? ==>
              && r.tier.Some? && r.knownCost.value.exp >= -15 && (native.Some? || runner.Some?)
              && Units(r.knownCost.value) == if native.Some? then NativeCharge(native.value, r.tier.value.rates)
                                             else RunnerCharge(runner.value, r.tier.value.rates)
  {
    hide InputsValid, ExactTotal, NativeBuckets, RunnerBuckets, NativeCharge, RunnerCharge, Lines, LineReasons, Useful, SumDec,
         Charges, ChooseTier, EffectiveRates;
    OneUsage(native, runner, schedule);
    var r := Estimated(native, runner, schedule, expectedModel);
    KnownCostIsExact(native, runner, schedule, expectedModel);
    if r.knownCost.Some? {
      if native.Some? {
        NativeTotal(native.value, r.tier.value.rates);
        NativeRates(r.tier.value.rates);
      } else {
        RunnerTotal(runner.value, r.tier.value.rates);
      }
    }
  }

  lemma OneUsage(native: Option<ProviderUsage>, runner: Option<RunnerUsage>, schedule: Option<Schedule>)
    requires InputsValid(native, runner, schedule)
    ensures native.None? || runner.None?
  {
  }

  lemma NativeRates(rates: Rates)
    ensures EffectiveRates(None, rates) == rates
  {
  }

  // ---------------------------------------------------------------- the tier

  /** The context of a native request: its input, to which Anthropic's cached and written tokens add. */
  function ContextOf(u: ProviderUsage): Count {
    if u.provider != Anthropic then u.input
    else if u.input.Some? && u.cacheRead.Some? && u.cacheWrite.Some?
    then Some(u.input.value + u.cacheRead.value + u.cacheWrite.value) else None
  }

  lemma ContextIsNative(u: ProviderUsage)
    ensures NativeContext(u) == ContextOf(u)
  {
    var parts := [u.input, u.cacheRead, u.cacheWrite];
    assert parts[1..] == [u.cacheRead, u.cacheWrite] && parts[1..][1..] == [u.cacheWrite] && parts[1..][1..][1..] == [];
    assert SumKnown([]) == Some(0) && SumKnown([u.cacheWrite]) == u.cacheWrite;
    assert SumKnown(parts[1..]) == if u.cacheRead.Some? && u.cacheWrite.Some?
                                   then Some(u.cacheRead.value + u.cacheWrite.value) else None;
  }

  /** The tier an estimate uses: the only one, or the one in whose band the context of a native request
      lies; none when that context is unknown. */
  lemma TierOfContext(native: Option<ProviderUsage>, schedule: Schedule)
    requires Ordered(schedule.tiers)
    ensures var chosen := ChooseTier(native, schedule.tiers);
            if |schedule.tiers| == 1 then chosen == Some(schedule.tiers[0])
            else if native.None? || ContextOf(native.value).None? then chosen.None?
            else exists i: nat :: i < |schedule.tiers| && chosen == Some(schedule.tiers[i])
                                  && InBand(schedule.tiers, i, ContextOf(native.value).value)
  {
    hide ContextOf;
    if native.Some? {
      ContextIsNative(native.value);
      if ContextOf(native.value).Some? {
        ExactlyOneTier(schedule.tiers, ContextOf(native.value).value);
      }
    }
  }

  // ---------------------------------------------------------------- complete estimates

  predicate Priced(n: Count, rates: Rates, c: Category) {
    n.Some? && n.value >= 0 && (n.value == 0 || c in rates)
  }

  /** Every counter that is priced is known, and has a rate unless it is zero. */
  predicate FieldsPriced(u: ProviderUsage, rates: Rates) {
    match u.provider
    case OpenAI =>
      && (u.cacheWrite.Some? ==> u.cacheWrite.value == 0)
      && Priced(Without(u.input, u.cacheRead), rates, InputC) && Priced(u.output, rates, OutputC)
      && Priced(u.cacheRead, rates, CacheReadC)
    case Anthropic =>
      && Priced(u.input, rates, InputC) && Priced(u.output, rates, OutputC) && Priced(u.cacheRead, rates, CacheReadC)
      && (u.cacheWrite == Some(0)
          || (Priced(u.cacheWrite5m, rates, CacheWrite5mC) && Priced(u.cacheWrite1h, rates, CacheWrite1hC)))
    case Google =>
      && Priced(Without(u.input, u.cacheRead), rates, InputC) && Priced(u.output, rates, OutputC)
      && Priced(u.cacheRead, rates, CacheReadC) && Priced(u.reasoning, rates, ReasoningC)
  }

  function Known(n: Count): int {
    if n.Some? then n.value else 0
  }

  /** The tokens that are priced, added up. */
  function FieldSum(u: ProviderUsage): int {
    match u.provider
    case OpenAI => Known(u.input) + Known(u.output)
    case Anthropic =>
      Known(u.input) + Known(u.output) + Known(u.cacheRead)
      + (if u.cacheWrite == Some(0) then 0 else Known(u.cacheWrite5m) + Known(u.cacheWrite1h))
    case Google => Known(u.input) + Known(u.output) + Known(u.reasoning)
  }

  lemma FieldSumIsBuckets(u: ProviderUsage, rates: Rates)
    requires FieldsPriced(u, rates)
    ensures SumBuckets(NativeBuckets(u)) == Some(FieldSum(u))
  {
    var bs := NativeBuckets(u);
    match u.provider
    case OpenAI => SumOfThree(bs);
    case Anthropic => SumOfFive(bs);
    case Google => SumOfFour(bs);
  }

  /** The schedule is for the service tier and the model that were reported. */
  predicate Matches(u: ProviderUsage, schedule: Schedule, expectedModel: Option<string>) {
    && (schedule.serviceTier == None || u.serviceTier == schedule.serviceTier)
    && (expectedModel == None || u.modelId == expectedModel)
  }

  lemma NoReason(b: Bucket, rates: Rates)
    ensures ReasonOf(b, rates) == [] <==> Priced(b.tokens, rates, b.category)
  {
  }

  lemma {:induction false} NoReasons(bs: seq<Bucket>, rates: Rates)
    ensures LineReasons(bs, rates) == [] <==> forall i :: 0 <= i < |bs| ==> Priced(bs[i].tokens, rates, bs[i].category)
    decreases |bs|
  {
    hide Priced, ReasonOf;
    if bs != [] {
      var n := |bs| - 1;
      NoReasons(bs[..n], rates);
      NoReason(bs[n], rates);
      assert forall i :: 0 <= i < n ==> bs[..n][i] == bs[i];
    }
  }

  lemma FieldsAreBuckets(u: ProviderUsage, rates: Rates)
    ensures FieldsPriced(u, rates) <==>
              !Unsupported(u)
              && forall i :: 0 <= i < |NativeBuckets(u)| ==>
                   Priced(NativeBuckets(u)[i].tokens, rates, NativeBuckets(u)[i].category)
  {
    var bs := NativeBuckets(u);
    assert bs[0].category == InputC && bs[1].category == OutputC && bs[2].category == CacheReadC;
    if forall i :: 0 <= i < |bs| ==> Priced(bs[i].tokens, rates, bs[i].category) {
      assert Priced(bs[0].tokens, rates, InputC) && Priced(bs[1].tokens, rates, OutputC) && Priced(bs[2].tokens, rates, CacheReadC);
      if u.provider == Anthropic {
        assert Priced(bs[3].tokens, rates, bs[3].category) && Priced(bs[4].tokens, rates, bs[4].category);
      } else if u.provider == Google {
        assert Priced(bs[3].tokens, rates, bs[3].category);
      }
    }
  }

  /** An estimate is complete if and only if it is about native usage alone, the schedule is for its service
      tier and model, its context selects a tier, every priced counter is known and has a rate, and the
      reported total leaves nothing unpriced. */
  lemma CompleteExactly(native: Option<ProviderUsage>, runner: Option<RunnerUsage>, schedule: Option<Schedule>,
                        expectedModel: Option<string>)
    requires InputsValid(native, runner, schedule)
    ensures Estimated(native, runner, schedule, expectedModel).status == Complete <==>
              && native.Some? && schedule.Some? && Matches(native.value, schedule.value, expectedModel)
              && ChooseTier(native, schedule.value.tiers).Some?
              && FieldsPriced(native.value, ChooseTier(native, schedule.value.tiers).value.rates)
              && (native.value.reportedTotal.Some? ==> native.value.reportedTotal == Some(FieldSum(native.value)))
  {
    hide FieldSum, FieldsPriced, ChooseTier, NativeBuckets, Useful, Lines, SumDec, Charges, InputsValid, Unsupported, Priced;
    OneUsage(native, runner, schedule);
    if native.Some? && schedule.Some? && ChooseTier(native, schedule.value.tiers).Some? {
      var rates := ChooseTier(native, schedule.value.tiers).value.rates;
      NoReasons(NativeBuckets(native.value), rates);
      FieldsAreBuckets(native.value, rates);
      NativeRates(rates);
      if FieldsPriced(native.value, rates) {
        FieldSumIsBuckets(native.value, rates);
      }
    }
  }

  // ---------------------------------------------------------------- what is shown

  /** Each line shows a counter with its rate, and its cost where both are known; the cost shown is exact. */
  lemma LinesTell(bs: seq<Bucket>, rates: Rates, i: nat)
    requires i < |bs| && BucketsValid(bs, rates)
    ensures |Lines(bs, rates)| == |bs|
    ensures var line := Lines(bs, rates)[i];
            && line.bucket == bs[i]
            && line.rate == (if bs[i].category in rates then Some(rates[bs[i].category]) else None)
            && (line.cost.Some? <==> Priced(bs[i].tokens, rates, bs[i].category))
            && (line.cost.Some? ==> line.cost.value.exp >= -15
                                    && Units(line.cost.value) == Charge(bs[i].tokens, rates, bs[i].category))
    decreases |bs|
  {
    hide CostOf;
    LinesInOrder(bs, rates);
    var b := bs[i];
    NoReason(b, rates);
    CostIsKnown(b, rates);
    if CostOf(b, rates).Some? {
      if b.tokens.value == 0 {
        ZeroCost(b, rates);
      } else {
        ChargeIsExact(b, rates);
      }
    }
  }

  lemma CostIsKnown(b: Bucket, rates: Rates)
    ensures CostOf(b, rates).Some? <==> Priced(b.tokens, rates, b.category)
  {
  }

  lemma {:induction false} LinesInOrder(bs: seq<Bucket>, rates: Rates)
    ensures |Lines(bs, rates)| == |bs|
    ensures forall i :: 0 <= i < |bs| ==> Lines(bs, rates)[i] == LineOf(bs[i], rates)
    decreases |bs|
  {
    hide LineOf;
    if bs != [] {
      LinesInOrder(bs[..|bs| - 1], rates);
    }
  }

  // ---------------------------------------------------------------- why, and whether anything is shown

  /** Something was reported, and the schedule is for it: its service tier, which runner usage does not
      tell, the model it names, and a tier that can be determined. */
  predicate Estimable(native: Option<ProviderUsage>, runner: Option<RunnerUsage>, schedule: Option<Schedule>,
                      expectedModel: Option<string>)
  {
    && (native.Some? || runner.Some?) && schedule.Some?
    && (schedule.value.serviceTier.Some? ==> runner.None? && native.Some? && native.value.serviceTier == schedule.value.serviceTier)
    && (native.Some? && expectedModel.Some? ==> native.value.modelId == expectedModel)
    && ChooseTier(native, schedule.value.tiers).Some?
  }

  /** A line that was charged for at least one token. */
  ghost predicate ChargedLine(r: Estimate) {
    exists i :: 0 <= i < |r.lines| && r.lines[i].cost.Some? && r.lines[i].bucket.tokens != Some(0)
  }

  /** Without a tier nothing is shown but a reason. Otherwise a cost is shown exactly when nothing speaks
      against it or some line was charged, and the estimate is complete exactly when nothing does. */
  lemma ShownExactly(native: Option<ProviderUsage>, runner: Option<RunnerUsage>, schedule: Option<Schedule>,
                     expectedModel: Option<string>)
    requires native.None? || runner.None?
    ensures var r := Estimated(native, runner, schedule, expectedModel);
            && (r.tier.Some? <==> Estimable(native, runner, schedule, expectedModel))
            && (r.tier.None? ==> r.lines == [] && r.knownCost.None? && r.reasons != [])
            && (r.knownCost.Some? <==> r.tier.Some? && (r.reasons == [] || ChargedLine(r)))
            && (r.status == Complete <==> r.tier.Some? && r.reasons == [])
            && (r.status == NotAvailable <==> r.knownCost.None?)
  {
    hide NativeBuckets, RunnerBuckets, Lines, LineReasons, Charges, SumDec, EffectiveRates, ChooseTier, CostOf;
    var r := Estimated(native, runner, schedule, expectedModel);
    if r.tier.Some? {
      var bs, rates := BucketsOf(native, runner), EffectiveRates(runner, r.tier.value.rates);
      LinesInOrder(bs, rates);
      assert r.lines == Lines(bs, rates);
      assert forall i :: 0 <= i < |bs| ==> r.lines[i] == LineOf(bs[i], rates);
      if Useful(bs, rates) {
        var i :| 0 <= i < |bs| && CostOf(bs[i], rates).Some? && bs[i].tokens != Some(0);
        assert r.lines[i].cost.Some?;
      }
    }
  }

  /** A counter that is not known, or a rate for it. */
  predicate Lacks(b: Bucket, rates: Rates, why: Reason) {
    || (why == UsageUnknown(b.category) && (b.tokens.None? || b.tokens.value < 0))
    || (why == RateUnknown(b.category) && b.tokens.Some? && b.tokens.value > 0 && b.category !in rates)
  }

  /** What the lines give as reasons: the counters that are not known, and the rates that are missing for
      counters that are not zero. */
  lemma {:induction false} ReasonsTell(bs: seq<Bucket>, rates: Rates, why: Reason)
    ensures why in LineReasons(bs, rates) <==> exists i :: 0 <= i < |bs| && Lacks(bs[i], rates, why)
    decreases |bs|
  {
    if bs != [] {
      var n := |bs| - 1;
      ReasonsTell(bs[..n], rates, why);
      OneReason(bs[n], rates, why);
      hide Lacks, ReasonOf;
      assert forall i :: 0 <= i < n ==> bs[..n][i] == bs[i];
    }
  }

  lemma OneReason(b: Bucket, rates: Rates, why: Reason)
    ensures why in ReasonOf(b, rates) <==> Lacks(b, rates, why)
  {
  }
}
