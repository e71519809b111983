/** The exact security audit: the event reader runs under limits cut from the configuration, and the
    usage record is built straight from its counters. Launching and the audit's text are parameters. */
module SecurityExecution {
  import opened Prelude
  import opened Usage
  import opened TaskContracts
  import Stream = EventStream
  import StreamTheorems
  import StreamReader
  import StreamAcceptance

  datatype Severity = Critical | High | Medium | Low | Info

  /** What the answer's text is read as. */
  datatype Answer = Parsed(findings: seq<Severity>) | Declined | Unparseable

  datatype Job = Job(revision: Revision, tokenCeiling: nat, maxSteps: nat, maxOutput: nat, blocking: set<Severity>)

  /** An execution that never reached the stream, with why. */
  datatype Launch = Launched | Stopped(why: string, code: nat, late: bool)

  function Config(j: Job): Configuration {
    j.revision.configuration
  }

  /** The limits handed to the stream reader. */
  function LimitsOf(j: Job, tools: set<string>): Stream.Limits
    requires Config(j).Valid()
  {
    var res := Config(j).resources;
    var tokens := Min(j.tokenCeiling, res.maxTokens);
    var steps := Min(j.maxSteps, res.maxIterations);
    Stream.Limits(tokens, steps, steps, res.maxOutputBytes, Config(j).inputs.maxContextTokens,
                  Min(Min(j.maxOutput, 16384), tokens), tools)
  }

  /** A stored revision of this profile; configuring it rejects commands and a diagnosis section. */
  predicate JobValid(j: Job) {
    && Config(j).Valid() && j.revision.id > 0 && 1 <= |j.revision.runtimeVersion| <= 128
    && j.revision.task == SecurityAnalysis && j.revision.mode == OpenCode && j.revision.language == None
    && !j.revision.proposeFix && j.revision.contractVersion == 1
    && Config(j).diagnosis.None? && Config(j).commands == []
  }

  function CountOf(c: Stream.Counts, k: Stream.Key): Count {
    if k in c then Some(c[k]) else None
  }

  /** Every counter is copied, the total of a failed stream included. */
  function UsageOf(j: Job, c: Stream.Counts, attempts: int, steps: int, tools: int): RunnerUsage {
    RunnerUsage(j.revision.provider, j.revision.runtimeVersion,
                CountOf(c, Stream.Input), CountOf(c, Stream.Output), CountOf(c, Stream.Reasoning),
                CountOf(c, Stream.CacheRead), CountOf(c, Stream.CacheWrite), CountOf(c, Stream.Total),
                attempts, steps, tools)
  }

  /** Each of the stricter of two limits, and never more than 16384 tokens of output in a step. */
  lemma LimitsAreTheStricter(j: Job, tools: set<string>)
    requires Config(j).Valid()
    ensures var lim := LimitsOf(j, tools);
            var res := Config(j).resources;
            && lim.maxTokens <= j.tokenCeiling && lim.maxTokens <= res.maxTokens
            && (lim.maxTokens == j.tokenCeiling || lim.maxTokens == res.maxTokens)
            && lim.maxSteps == lim.maxTools <= j.maxSteps && lim.maxSteps <= res.maxIterations
            && (lim.maxSteps == j.maxSteps || lim.maxSteps == res.maxIterations)
            && lim.maxOutput <= j.maxOutput && lim.maxOutput <= 16384 && lim.maxOutput <= lim.maxTokens
            && (lim.maxOutput == j.maxOutput || lim.maxOutput == 16384 || lim.maxOutput == lim.maxTokens)
            && lim.maxBytes == res.maxOutputBytes && lim.maxContext == Config(j).inputs.maxContextTokens
            && lim.allowedTools == tools
  {
  }

  /** A usage record holds the counters of a stream, each under its own name, and what is not known is
      left unknown; tokens in and out are its input and its output. */
  predicate Tells(e: Envelope, c: Stream.Counts, attempts: int, steps: int, tools: int) {
    e.result.runnerUsage.Some? &&
    var u := e.result.runnerUsage.value;
    && u.input == (if Stream.Input in c then Some(c[Stream.Input]) else None)
    && u.output == (if Stream.Output in c then Some(c[Stream.Output]) else None)
    && u.reasoning == (if Stream.Reasoning in c then Some(c[Stream.Reasoning]) else None)
    && u.cacheRead == (if Stream.CacheRead in c then Some(c[Stream.CacheRead]) else None)
    && u.cacheWrite == (if Stream.CacheWrite in c then Some(c[Stream.CacheWrite]) else None)
    && u.reportedTotal == (if Stream.Total in c then Some(c[Stream.Total]) else None)
    && u.attempts == attempts && u.completedSteps == steps && u.toolCalls == tools
    && e.tokensIn == (if Stream.Input in c then c[Stream.Input] else 0)
    && e.tokensOut == (if Stream.Output in c then c[Stream.Output] else 0)
  }

  /** The counters a usage record can hold: none above the contract's bound, and a total, when one
      was kept, that no partial sum has overtaken. */
  predicate Reportable(c: Stream.Counts) {
    && (forall k :: k in c ==> c[k] <= COUNT_LIMIT)
    && (Stream.Total in c ==> Stream.Categories(c) <= c[Stream.Total])
  }

  lemma CertifiedIsReportable(s: Stream.State, lim: Stream.Limits)
    requires StreamTheorems.Certified(s, lim) && lim.maxTokens <= COUNT_LIMIT
    ensures Reportable(s.counts)
  {
    forall k | k in s.counts
      ensures s.counts[k] <= COUNT_LIMIT
    {
      assert Stream.Get(s.counts, k) <= Stream.Categories(s.counts) || k == Stream.Total;
    }
  }

  /** A record copied from counters has them in range and consistent exactly when they are reportable. */
  lemma CopiedCounts(u: RunnerUsage, c: Stream.Counts)
    requires u.input == CountOf(c, Stream.Input) && u.output == CountOf(c, Stream.Output)
    requires u.reasoning == CountOf(c, Stream.Reasoning) && u.cacheRead == CountOf(c, Stream.CacheRead)
    requires u.cacheWrite == CountOf(c, Stream.CacheWrite) && u.reportedTotal == CountOf(c, Stream.Total)
    ensures Reportable(c) <==>
              && InRange(u.input) && InRange(u.output) && InRange(u.reasoning)
              && InRange(u.cacheRead) && InRange(u.cacheWrite) && InRange(u.reportedTotal)
              && (u.reportedTotal.Some? ==> u.reportedTotal.value >= u.Captured())
  {
    assert u.Captured() == Stream.Categories(c);
    hide Stream.Categories;
    forall k
      ensures InRange(CountOf(c, k)) <==> (k in c ==> c[k] <= COUNT_LIMIT)
    {
    }
    if forall k :: InRange(CountOf(c, k)) {
      assert InRange(u.input) && InRange(u.output) && InRange(u.reasoning);
    } else {
      var k :| !InRange(CountOf(c, k));
      assert !Reportable(c);
      match k
      case Input => assert !InRange(u.input);
      case Output => assert !InRange(u.output);
      case Reasoning => assert !InRange(u.reasoning);
      case CacheRead => assert !InRange(u.cacheRead);
      case CacheWrite => assert !InRange(u.cacheWrite);
      case Total => assert !InRange(u.reportedTotal);
    }
  }

  /** The usage record of a run that reached the stream can be built exactly when its counters are
      reportable; every other rule of the record holds of anything the reader returns. */
  lemma UsageBuilds(j: Job, s: Stream.State, tools: set<string>)
    requires JobValid(j) && StreamTheorems.Plausible(s, LimitsOf(j, tools))
    ensures UsageOf(j, s.counts, 1, s.steps, s.toolCalls).Valid() <==> Reportable(s.counts)
    ensures s.code == 0 ==> Reportable(s.counts)
  {
    hide StreamTheorems.Certified, Reportable, InRange, CountOf, RunnerUsage.Captured;
    if s.code == 0 {
      CertifiedIsReportable(s, LimitsOf(j, tools));
    }
    CopiedCounts(UsageOf(j, s.counts, 1, s.steps, s.toolCalls), s.counts);
  }

  /** The certificate of a successful stream is what the contract asks of a completed audit. */
  lemma CertifiedUsage(j: Job, s: Stream.State, tools: set<string>)
    requires JobValid(j) && s.code == 0 && StreamTheorems.Plausible(s, LimitsOf(j, tools))
    ensures var u := UsageOf(j, s.counts, 1, s.steps, s.toolCalls);
            && u.Valid() && u.Complete() && u.Spent() <= Config(j).resources.maxTokens
            && u.completedSteps <= Config(j).resources.maxIterations
            && u.toolCalls <= Config(j).resources.maxIterations && u.attempts <= Config(j).resources.maxAttempts
            && u.Spent() <= j.tokenCeiling && u.completedSteps <= j.maxSteps && u.toolCalls <= j.maxSteps
  {
    UsageBuilds(j, s, tools);
  }

  // ---------------------------------------------------------------- a stream that cannot be reported

  lemma {:induction false} BadStays(t: Stream.Tally, v: Stream.Tokens, i: nat, n: nat)
    requires v.Tokens? && i <= n <= |Stream.KEYS| && Stream.AddUpTo(t, v, i).bad
    ensures Stream.AddUpTo(t, v, n) == Stream.AddUpTo(t, v, i)
    decreases n
  {
    if i < n {
      BadStays(t, v, i, n - 1);
    }
  }

  /** A step whose output counter is not a number, after seven input tokens. */
  const MALFORMED := Stream.Tokens(Stream.Whole(7), Stream.NotAnInteger, Stream.Whole(0), Stream.Whole(0), Stream.Whole(0),
                                   Stream.Whole(7))

  /** The fold of a malformed step stops after its first counter, which stays added. */
  lemma MalformedStep(s: Stream.State, lim: Stream.Limits)
    ensures var s' := Stream.FinishStep(s, MALFORMED, Stream.Stop, lim);
            && s'.code == 4 && s'.missing == s.missing && s'.steps == s.steps + 1
            && s'.counts == s.counts[Stream.Input := Stream.Get(s.counts, Stream.Input) + 7]
  {
    var t := Stream.Tally(s.counts, s.missing, false);
    assert Stream.AddUpTo(t, MALFORMED, 0) == t;
    var t1 := Stream.AddUpTo(t, MALFORMED, 1);
    assert t1 == Stream.AddOne(t, Stream.Input, Stream.Whole(7));
    var t2 := Stream.AddUpTo(t, MALFORMED, 2);
    assert t2 == Stream.AddOne(t1, Stream.Output, Stream.NotAnInteger);
    BadStays(t, MALFORMED, 2, |Stream.KEYS|);
  }

  /** A sound step and then a malformed one leave more input than total. The audit of that output,
      however it is read, yields counters of which no usage record can be built. */
  lemma UnreportableStreamExists(rounds: seq<Stream.Round>, exit: Stream.Exit, env: Stream.Env, a: Stream.Bytes, b: Stream.Bytes)
    requires StreamTheorems.ReadsToEnd(Stream.STARTED.open, rounds) && StreamTheorems.Volume(rounds) <= env.limits.maxBytes
    requires Stream.Payload(StreamTheorems.StdoutBytes(rounds)) == [a, b]
    requires env.parse(a) == Stream.Event(Stream.Anonymous, Stream.StepFinish(StreamTheorems.InputOnly(5), Stream.Stop))
    requires env.parse(b) == Stream.Event(Stream.Anonymous, Stream.StepFinish(MALFORMED, Stream.Stop))
    requires env.limits.maxSteps >= 1 && env.limits.maxTokens >= 5 && env.limits.maxContext >= 5
    ensures var s := Stream.RunStream(rounds, exit, env);
            s.code == 4 && s.reason == Stream.Malformed && !Reportable(s.counts)
  {
    hide Stream.Consume, Stream.RunStream, Reportable;
    StreamTheorems.ChunkIndependence(rounds, exit, env);
    TwoSteps(env, a, b);
    var s1 := Stream.Consume(Stream.INITIAL, a, env);
    assert [a, b][1..] == [b];
    StreamTheorems.FoldOne(s1, b, env);
    assert Stream.Fold(Stream.INITIAL, [a, b], env) == Stream.Consume(s1, b, env);
  }

  lemma MalformedReason(s: Stream.State, lim: Stream.Limits)
    ensures Stream.FinishStep(s, MALFORMED, Stream.Stop, lim).reason == Stream.Malformed
  {
    MalformedStep(s, lim);
    var t := Stream.Tally(s.counts, s.missing, false);
    assert Stream.AddUpTo(t, MALFORMED, 2).bad;
    BadStays(t, MALFORMED, 2, |Stream.KEYS|);
  }

  /** Unless an event was malformed, or the byte ceiling was crossed, the audit of a stream can be
      reported if and only if no counter is above the contract's bound. */
  lemma OnlySizePrevents(rounds: seq<Stream.Round>, exit: Stream.Exit, env: Stream.Env)
    ensures var s := Stream.RunStream(rounds, exit, env);
            s.reason != Stream.Malformed && s.reason != Stream.ByteCeiling ==>
              (Reportable(s.counts) <==> forall k :: k in s.counts ==> s.counts[k] <= COUNT_LIMIT)
  {
    hide Stream.RunStream, Stream.Categories;
    StreamTheorems.KeptTotalCoversCategories(rounds, exit, env);
  }

  /** A complete line at the front of the buffer is consumed first. */
  lemma DrainLine(s: Stream.State, line: Stream.Bytes, rest: Stream.Bytes, env: Stream.Env)
    requires s.code == 0 && !Stream.Blank(line) && Stream.FirstNewline(line) == |line|
    ensures Stream.Drain(s, line + [Stream.NEWLINE] + rest, env) == Stream.Drain(Stream.Consume(s, line, env), rest, env)
  {
    hide Stream.Consume, Stream.Blank;
    var buf := line + [Stream.NEWLINE] + rest;
    LineEnds(line, rest);
    assert buf[..|line|] == line && buf[|line| + 1..] == rest;
  }

  lemma {:induction false} LineEnds(line: Stream.Bytes, rest: Stream.Bytes)
    requires Stream.FirstNewline(line) == |line|
    ensures Stream.FirstNewline(line + [Stream.NEWLINE] + rest) == |line|
  {
    if line != [] {
      assert (line + [Stream.NEWLINE] + rest)[1..] == line[1..] + [Stream.NEWLINE] + rest;
      LineEnds(line[1..], rest);
    }
  }

  /** The byte ceiling can hide that an event was malformed: both are met in one turn, the later one is
      the reason, and the counters are those of the malformed step. */
  lemma ByteCeilingHidesMalformed(exit: Stream.Exit, env: Stream.Env, a: Stream.Bytes, b: Stream.Bytes, noise: Stream.Bytes)
    requires !Stream.Blank(a) && !Stream.Blank(b) && noise != []
    requires Stream.FirstNewline(a) == |a| && Stream.FirstNewline(b) == |b|
    requires env.parse(a) == Stream.Event(Stream.Anonymous, Stream.StepFinish(StreamTheorems.InputOnly(5), Stream.Stop))
    requires env.parse(b) == Stream.Event(Stream.Anonymous, Stream.StepFinish(MALFORMED, Stream.Stop))
    requires env.limits.maxSteps >= 1 && env.limits.maxTokens >= 5 && env.limits.maxContext >= 5
    requires |a| + |b| + 2 <= env.limits.maxBytes < |a| + |b| + 2 + |noise|
    ensures var out := a + [Stream.NEWLINE] + (b + [Stream.NEWLINE]);
            var turn := Stream.Round(Stream.Calm, false, [Stream.Read(Stream.Stdout, out), Stream.Read(Stream.Stderr, noise)]);
            var s := Stream.RunStream([turn], exit, env);
            s.code == 124 && s.reason == Stream.ByteCeiling && !Reportable(s.counts)
  {
    hide Stream.Consume, Stream.Drain, Stream.RunStream, Reportable, Stream.Blank;
    var more := b + [Stream.NEWLINE];
    TwoSteps(env, a, b);
    var s1 := Stream.Consume(Stream.INITIAL, a, env);
    DrainLine(Stream.INITIAL, a, more, env);
    assert more == b + [Stream.NEWLINE] + [];
    DrainLine(s1, b, [], env);
    NothingToDrain(Stream.Consume(s1, b, env), env);
    OneTurn(a + [Stream.NEWLINE] + more, noise, Stream.Consume(s1, b, env), exit, env);
  }

  lemma NothingToDrain(s: Stream.State, env: Stream.Env)
    ensures Stream.Drain(s, [], env) == (s, [])
  {
  }

  /** A sound step and then a malformed one. */
  lemma TwoSteps(env: Stream.Env, a: Stream.Bytes, b: Stream.Bytes)
    requires env.parse(a) == Stream.Event(Stream.Anonymous, Stream.StepFinish(StreamTheorems.InputOnly(5), Stream.Stop))
    requires env.parse(b) == Stream.Event(Stream.Anonymous, Stream.StepFinish(MALFORMED, Stream.Stop))
    requires env.limits.maxSteps >= 1 && env.limits.maxTokens >= 5 && env.limits.maxContext >= 5
    ensures var s1 := Stream.Consume(Stream.INITIAL, a, env);
            var s2 := Stream.Consume(s1, b, env);
            s1.code == 0 && s2.code == 4 && s2.missing == {} && s2.reason == Stream.Malformed && !Reportable(s2.counts)
  {
    hide Stream.FinishStep, Reportable;
    StreamTheorems.InputOnlyStep(Stream.INITIAL, 5, Stream.Stop, env.limits);
    var s1 := Stream.Consume(Stream.INITIAL, a, env);
    assert s1 == Stream.FinishStep(Stream.INITIAL, StreamTheorems.InputOnly(5), Stream.Stop, env.limits);
    Overtaken(s1, env.limits);
  }

  lemma Overtaken(s: Stream.State, lim: Stream.Limits)
    requires s == Stream.FinishStep(Stream.INITIAL, StreamTheorems.InputOnly(5), Stream.Stop, lim)
    requires lim.maxSteps >= 1 && lim.maxTokens >= 5 && lim.maxContext >= 5
    ensures var s' := Stream.FinishStep(s, MALFORMED, Stream.Stop, lim);
            s'.code == 4 && s'.missing == {} && s'.reason == Stream.Malformed && !Reportable(s'.counts)
  {
    hide Stream.FinishStep;
    StreamTheorems.InputOnlyStep(Stream.INITIAL, 5, Stream.Stop, lim);
    MalformedStep(s, lim);
    MalformedReason(s, lim);
    var c := Stream.FinishStep(s, MALFORMED, Stream.Stop, lim).counts;
    assert Stream.Get(s.counts, Stream.Total) == 5 && Stream.Get(s.counts, Stream.Input) == 5;
    assert c[Stream.Total] == 5 && Stream.Categories(c) >= 12;
  }

  lemma OneTurn(out: Stream.Bytes, noise: Stream.Bytes, s: Stream.State, exit: Stream.Exit, env: Stream.Env)
    requires out != [] && noise != [] && |out| <= env.limits.maxBytes < |out| + |noise|
    requires Stream.Drain(Stream.INITIAL, out, env) == (s, []) && s.code != 0 && s.missing == {}
    ensures var turn := Stream.Round(Stream.Calm, false, [Stream.Read(Stream.Stdout, out), Stream.Read(Stream.Stderr, noise)]);
            Stream.RunStream([turn], exit, env) == Stream.Fail(s, 124, Stream.ByteCeiling)
  {
    hide Stream.Drain;
    var first, second := Stream.Read(Stream.Stdout, out), Stream.Read(Stream.Stderr, noise);
    var ready := [first, second];
    assert Stream.STARTED.buffered + out == out;
    assert ready[1..] == [second] && [second][1..] == [];
    var l1 := Stream.DoRead(Stream.STARTED, first, env);
    var l2 := Stream.DoRead(l1, second, env);
    assert Stream.DoReads(l1, [second], env) == l2;
    assert Stream.DoReads(Stream.STARTED, ready, env) == l2;
    var turn := Stream.Round(Stream.Calm, false, ready);
    assert [turn][1..] == [] && Stream.Poll(l2, [], env) == l2;
    assert Stream.Poll(Stream.STARTED, [turn], env) == l2;
    assert l2.s == Stream.Fail(s, 124, Stream.ByteCeiling);
  }

  // ---------------------------------------------------------------- the execution

  function ResultOf(status: Execution, reason: Option<string>, u: RunnerUsage): TaskResult {
    TaskResult(Findings, SecurityAnalysis, OpenCode, None, false, status, reason, NotRun, None, None, None, [], [],
               None, None, Some(u))
  }

  function EnvelopeOf(j: Job, findings: nat, gate: Gate, u: RunnerUsage, r: TaskResult): Envelope {
    Envelope(findings, OrZero(u.input), OrZero(u.output), u.cacheRead, j.revision.modelId, gate, Some(j.revision.id), r)
  }

  predicate Blocks(findings: seq<Severity>, j: Job) {
    exists i :: 0 <= i < |findings| && (findings[i] == Critical || findings[i] in j.blocking)
  }

  lemma AuditIsAccepted(j: Job, findings: nat, gate: Gate, status: Execution, reason: Option<string>, u: RunnerUsage, t: TextPolicy)
    requires JobValid(j) && u.Valid() && u.provider == j.revision.provider && u.profileVersion == j.revision.runtimeVersion
    requires if status == ExCompleted then u.Complete() else gate == GateFail && reason.Some? && reason.value != ""
    requires gate == GatePass ==>
               && u.Spent() <= Config(j).resources.maxTokens && u.completedSteps <= Config(j).resources.maxIterations
               && u.toolCalls <= Config(j).resources.maxIterations && u.attempts <= Config(j).resources.maxAttempts
    ensures Accepted(EnvelopeOf(j, findings, gate, u, ResultOf(status, reason, u)), j.revision, t)
  {
    var r := ResultOf(status, reason, u);
    assert Summary([]) == NotRun && Sizes([]) == 0;
    assert ProfileFor(SecurityAnalysis, OpenCode, None, false) == Some(Profile(CapSecurity, {Findings}, false));
    assert Consistent(r);
  }

  lemma EnvelopeTells(j: Job, findings: nat, gate: Gate, status: Execution, reason: Option<string>, c: Stream.Counts,
                      attempts: int, steps: int, tools: int)
    ensures var u := UsageOf(j, c, attempts, steps, tools);
            var e := EnvelopeOf(j, findings, gate, u, ResultOf(status, reason, u));
            Tells(e, c, attempts, steps, tools) && e.gate == gate && e.findings == findings && e.result.execution == status
  {
  }

  /** `run_security_execution`. None stands for the validation error that leaves it when the usage
      record cannot be built; what it does emit is always accepted. Code 0 means, and takes no more
      than, an output that succeeds, findings that were understood, and none of a blocking severity. */
  method RunSecurityExecution(j: Job, launch: Launch, env: Stream.Env, rounds: seq<Stream.Round>, exit: Stream.Exit,
                              read: string -> Answer, ghost t: TextPolicy)
    returns (out: Option<Envelope>, code: nat)
    requires JobValid(j) && env.limits == LimitsOf(j, env.limits.allowedTools)
    requires launch.Stopped? ==> launch.why != "" && launch.code != 0
    ensures out.None? <==> launch.Launched? && !Reportable(Stream.RunStream(rounds, exit, env).counts)
    ensures out.Some? ==> Accepted(out.value, j.revision, t) && (out.value.gate == GatePass <==> code == 0)
    ensures var text := Stream.RunStream(rounds, exit, env).text;
            out.Some? && code == 0 <==>
              && launch.Launched? && StreamAcceptance.Succeeds(rounds, exit, env)
              && read(text).Parsed? && !Blocks(read(text).findings, j)
    ensures out.Some? && code == 0 ==>
              var s := Stream.RunStream(rounds, exit, env);
              StreamTheorems.Certified(s, env.limits) && out.value.findings == |read(s.text).findings|
    // the record names what was counted, or that nothing was attempted
    ensures out.Some? && launch.Launched? ==>
              var s := Stream.RunStream(rounds, exit, env);
              Tells(out.value, s.counts, 1, s.steps, s.toolCalls)
    ensures out.Some? && launch.Stopped? ==> Tells(out.value, map[], 0, 0, 0)
    // how it ended
    ensures out.Some? && launch.Stopped? ==>
              out.value.result.execution == (if launch.late then ExTimedOut else ExFailed) && code == launch.code
    ensures out.Some? && launch.Launched? ==>
              var s := Stream.RunStream(rounds, exit, env);
              if s.code != 0 then
                out.value.result.execution == (if s.timedOut then ExTimedOut else ExFailed) && code == s.code
              else match read(s.text)
                case Declined => out.value.result.execution == ExRefused && code == 3
                case Unparseable => out.value.result.execution == ExFailed && code == 2
                case Parsed(_) => out.value.result.execution == ExCompleted && code <= 1
  {
    hide Stream.RunStream, StreamTheorems.Certified, Accepted, Stream.Categories, Tells, EnvelopeOf, ResultOf, Reportable;
    var status, reason: Option<string>, findings := ExCompleted, None, [];
    var counts: Stream.Counts, attempts, steps, tools := map[], 0, 0, 0;
    code := 0;
    ghost var s := Stream.RunStream(rounds, exit, env);
    StreamAcceptance.SuccessMeans(rounds, exit, env);
    hide StreamAcceptance.Succeeds;
    if launch.Stopped? {
      status, reason, code := if launch.late then ExTimedOut else ExFailed, Some(launch.why), launch.code;
    } else {
      var reader := new StreamReader.Reader(env);
      reader.Run(rounds, exit);
      StreamTheorems.StreamIsPlausible(rounds, exit, env);
      UsageBuilds(j, s, env.limits.allowedTools);
      counts, attempts, steps, tools := reader.counts, 1, reader.steps, reader.toolCalls;
      if reader.code != 0 {
        status, reason, code := if reader.timedOut then ExTimedOut else ExFailed, Some("OpenCode stream failed"), reader.code;
      } else {
        CertifiedUsage(j, s, env.limits.allowedTools);
        match read(reader.text) {
          case Parsed(rows) => findings := rows;
          case Declined => status, reason, code := ExRefused, Some("Model declined the security audit"), 3;
          case Unparseable => status, reason, code := ExFailed, Some("Security findings failed validation"), 2;
        }
      }
    }
    var usage := UsageOf(j, counts, attempts, steps, tools);
    if !usage.Valid() {
      return None, code;
    }
    var gate := if status == ExCompleted && !Blocks(findings, j) then GatePass else GateFail;
    if status == ExCompleted {
      code := if gate == GatePass then 0 else 1;
    }
    AuditIsAccepted(j, |findings|, gate, status, reason, usage, t);
    EnvelopeTells(j, |findings|, gate, status, reason, counts, attempts, steps, tools);
    out := Some(EnvelopeOf(j, |findings|, gate, usage, ResultOf(status, reason, usage)));
  }
}
