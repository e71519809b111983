/** Reported usage: native provider counters and the normalized counters of the runner.
    A count that is absent is unknown, never zero. */
module Usage {
  import opened Prelude

  const COUNT_LIMIT := 10_000_000

  type Count = Option<int>

  datatype Provider = OpenAI | Anthropic | Google

  predicate InRange(c: Count) {
    c.Some? ==> 0 <= c.value <= COUNT_LIMIT
  }

  function OrZero(c: Count): int {
    if c.Some? then c.value else 0
  }

  function SumKnown(cs: seq<Count>): Count {
    if cs == [] then Some(0)
    else if cs[0].None? then None
    else
      var rest := SumKnown(cs[1..]);
      if rest.None? then None else Some(cs[0].value + rest.value)
  }

  datatype RunnerUsage = RunnerUsage(
    provider: Provider, profileVersion: string,
    input: Count, output: Count, reasoning: Count, cacheRead: Count, cacheWrite: Count,
    reportedTotal: Count,
    attempts: int, completedSteps: int, toolCalls: int)
  {
    function Captured(): int {
      OrZero(input) + OrZero(output) + OrZero(reasoning) + OrZero(cacheRead) + OrZero(cacheWrite)
    }

    predicate Complete() {
      && attempts > 0 && completedSteps > 0
      && input.Some? && output.Some? && reasoning.Some? && cacheRead.Some? && cacheWrite.Some?
      && reportedTotal.Some?
    }

    /** The larger of what was captured and what was reported. */
    function Spent(): int {
      Max(Captured(), OrZero(reportedTotal))
    }

    predicate Valid() {
      && 1 <= |profileVersion| <= 128
      && InRange(input) && InRange(output) && InRange(reasoning)
      && InRange(cacheRead) && InRange(cacheWrite) && InRange(reportedTotal)
      && 0 <= attempts <= 3 && 0 <= completedSteps <= 1000 && 0 <= toolCalls <= 1000
      && (reportedTotal.Some? ==> reportedTotal.value >= Captured())
      && (attempts == 0 ==> completedSteps == 0 && toolCalls == 0 && Captured() == 0)
    }
  }

  datatype ServiceTier = Standard | Priority | Flex | Scale | Ultrafast

  datatype ProviderUsage = ProviderUsage(
    provider: Provider, profileVersion: string,
    input: Count, output: Count, cacheRead: Count,
    cacheWrite: Count, cacheWrite5m: Count, cacheWrite1h: Count,
    reasoning: Count, reportedTotal: Count,
    generationRequests: int, modelId: Option<string>, serviceTier: Option<ServiceTier>)
  {
    /** The disjoint categories of each provider. */
    function Parts(): seq<Count> {
      match provider
      case OpenAI => [input, output]
      case Anthropic => [input, output, cacheRead, cacheWrite]
      case Google => [input, output, reasoning]
    }

    function TotalTokens(): Count {
      SumKnown(Parts())
    }

    function Captured(): int {
      match provider
      case OpenAI => OrZero(input) + OrZero(output)
      case Anthropic => OrZero(input) + OrZero(output) + OrZero(cacheRead) + OrZero(cacheWrite)
      case Google => OrZero(input) + OrZero(output) + OrZero(reasoning)
    }

    predicate Consistent() {
      && (provider != Anthropic && input.Some? ==>
            && (cacheRead.Some? ==> cacheRead.value <= input.value)
            && (cacheWrite.Some? ==> cacheWrite.value <= input.value))
      && (provider != Google && output.Some? && reasoning.Some? ==> reasoning.value <= output.value)
      && (provider != Anthropic ==> cacheWrite5m.None? && cacheWrite1h.None?)
      && (provider == Google ==> cacheWrite.None?)
      && (cacheWrite.Some? && cacheWrite5m.Some? && cacheWrite1h.Some? ==>
            cacheWrite.value == cacheWrite5m.value + cacheWrite1h.value)
      && (generationRequests == 0 ==>
            && input.None? && output.None? && cacheRead.None? && cacheWrite.None?
            && reasoning.None? && reportedTotal.None? && cacheWrite5m.None? && cacheWrite1h.None?)
      && (reportedTotal.Some? ==>
            && reportedTotal.value >= Captured()
            && (TotalTokens().Some? ==> reportedTotal.value == TotalTokens().value))
    }

    predicate Valid() {
      && 1 <= |profileVersion| <= 128
      && InRange(input) && InRange(output) && InRange(cacheRead)
      && InRange(cacheWrite) && InRange(cacheWrite5m) && InRange(cacheWrite1h)
      && InRange(reasoning) && InRange(reportedTotal)
      && 0 <= generationRequests <= 1
      && Consistent()
    }
  }
}
