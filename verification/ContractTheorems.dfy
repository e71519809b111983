/** What the contracts refuse: the facts that acceptance of a configuration, a usage record or a result
    implies, each in the terms of its fields. */
module ContractTheorems {
  import opened Prelude
  import opened Usage
  import opened TaskContracts

  // ---------------------------------------------------------------- paths

  function Join(parts: seq<string>): string {
    if parts == [] then "" else if |parts| == 1 then parts[0] else parts[0] + "/" + Join(parts[1..])
  }

  /** Cutting a path at its slashes loses nothing, and no piece has a slash. */
  lemma {:induction false} SegmentsJoin(s: string)
    ensures Segments(s) != [] && Join(Segments(s)) == s
    ensures forall i, j :: 0 <= i < |Segments(s)| && 0 <= j < |Segments(s)[i]| ==> Segments(s)[i][j] != '/'
    decreases |s|
  {
    var i := FirstSlash(s);
    NoSlashBefore(s);
    if i < |s| {
      SegmentsJoin(s[i + 1..]);
      assert s == s[..i] + "/" + s[i + 1..];
      assert Segments(s)[1..] == Segments(s[i + 1..]);
    }
  }

  lemma {:induction false} NoSlashBefore(s: string)
    ensures forall j :: 0 <= j < FirstSlash(s) ==> s[j] != '/'
  {
    if s != "" && s[0] != '/' {
      NoSlashBefore(s[1..]);
      assert forall j :: 0 < j < |s| ==> s[j] == s[1..][j - 1];
    }
  }

  /** A path is permitted when it is a root, or begins with a root and a slash. */
  lemma PermittedMeans(name: string, roots: seq<string>)
    ensures Permitted(name, roots) <==>
              exists i :: 0 <= i < |roots| && (name == roots[i]
                          || (|name| > |roots[i]| && name[..|roots[i]|] == roots[i] && name[|roots[i]|] == '/'))
  {
    forall i | 0 <= i < |roots|
      ensures Under(name, roots[i]) <==>
                name == roots[i] || (|name| > |roots[i]| && name[..|roots[i]|] == roots[i] && name[|roots[i]|] == '/')
    {
      UnderMeans(name, roots[i]);
    }
  }

  lemma UnderMeans(name: string, root: string)
    ensures Under(name, root) <==> name == root || (|name| > |root| && name[..|root|] == root && name[|root|] == '/')
  {
    if |name| > |root| && name[..|root|] == root && name[|root|] == '/' {
      assert name[..|root| + 1] == root + "/";
      assert root + "/" <= name;
    }
    if root + "/" <= name {
      assert name[..|root| + 1] == root + "/" && name[..|root|] == name[..|root| + 1][..|root|];
      assert name[|root|] == (root + "/")[|root|];
    }
  }

  // ---------------------------------------------------------------- profiles and configurations

  /** There are eight profiles, each with a capability of its own; a profile may write exactly when it may
      deliver a patch; only test generation has a language, and only diagnosis may propose a fix. */
  lemma ProfilesMean(task: Task, mode: Mode, language: Option<Language>, fix: bool)
    ensures var p := ProfileFor(task, mode, language, fix);
            && (p.Some? <==>
                  && (task == CiReview ==> mode == SingleCall) && (task != CiReview && task != Other ==> mode == OpenCode)
                  && (language.Some? <==> task == TestGeneration) && (fix ==> task == FailureDiagnosis))
            && (p.Some? ==>
                  && (p.value.writable <==> PatchResult in p.value.kinds)
                  && (Findings in p.value.kinds <==> task == CiReview || task == SecurityAnalysis)
                  && (ReportOnly in p.value.kinds <==> task == FailureDiagnosis || task == Other)
                  && (p.value.writable <==> task == TestGeneration || (task == FailureDiagnosis && fix) || (task == Other && mode == OpenCode)))
  {
  }

  lemma CapabilitiesDiffer(a: (Task, Mode, Option<Language>, bool), b: (Task, Mode, Option<Language>, bool))
    requires ProfileFor(a.0, a.1, a.2, a.3).Some? && ProfileFor(b.0, b.1, b.2, b.3).Some?
    ensures ProfileFor(a.0, a.1, a.2, a.3).value.capability == ProfileFor(b.0, b.1, b.2, b.3).value.capability <==> a == b
  {
  }

  /** When a configuration is accepted for a profile. */
  ghost predicate Configurable(task: Task, mode: Mode, c: Configuration, language: Option<Language>, fix: bool, repairable: string -> bool) {
    && ProfileFor(task, mode, language, fix).Some?
    && (task == Other ==> Present(c.taskLabel) && Present(c.systemPrompt) && Present(c.instructions))
    && (task != Other ==> !Present(c.taskLabel) && !Present(c.systemPrompt))
    && (if ProfileFor(task, mode, language, fix).value.writable then c.writePaths != [] else c.writePaths == [] && c.commands == [])
    && (task == TestGeneration ==> exists i :: 0 <= i < |c.commands| && c.commands[i].required)
    && (c.diagnosis.Some? ==>
          && task == FailureDiagnosis && !c.inputs.diff && c.inputs.artifacts == []
          && (fix ==> forall i :: 0 <= i < |c.writePaths| ==> repairable(c.writePaths[i])))
  }

  /** A configuration is accepted exactly then. The authority keeps what was configured, except that a single
      call gets one iteration and one attempt; it runs commands only if some are configured, and writes only
      in a disposable copy. */
  lemma ConfigureExactly(task: Task, mode: Mode, c: Configuration, language: Option<Language>, fix: bool, repairable: string -> bool)
    ensures var a := Configure(task, mode, c, language, fix, repairable);
            && (a.Some? <==> Configurable(task, mode, c, language, fix, repairable))
            && (a.Some? ==>
                  var k := a.value.configuration;
                  && k == c.(resources := k.resources)
                  && k.resources == (if mode == SingleCall then c.resources.(maxIterations := 1, maxAttempts := 1) else c.resources)
                  && a.value.writePaths == c.writePaths && (a.value.disposable <==> c.writePaths != [])
                  && (a.value.executor == CredentialFree <==> c.commands != [])
                  && a.value.capability == ProfileFor(task, mode, language, fix).value.capability
                  && a.value.kinds == ProfileFor(task, mode, language, fix).value.kinds)
  {
  }

  // ---------------------------------------------------------------- results

  /** The summary of checks: the worst of them, and no check at all is none that was run. */
  lemma SummaryMeans(checks: seq<Check>)
    ensures var failed := exists i :: 0 <= i < |checks| && checks[i].status == Failed;
            var unavailable := exists i :: 0 <= i < |checks| && checks[i].status == Unavailable;
            var skipped := exists i :: 0 <= i < |checks| && checks[i].status == NotRun;
            && (Summary(checks) == Failed <==> failed)
            && (Summary(checks) == Unavailable <==> !failed && unavailable)
            && (Summary(checks) == NotRun <==> !failed && !unavailable && (skipped || checks == []))
  {
  }

  /** What a result that can be constructed is bound to. */
  lemma ConsistentMeans(r: TaskResult)
    requires Consistent(r)
    ensures r.providerUsage.None? || r.runnerUsage.None?
    ensures r.execution != ExCompleted ==> r.reason.Some? && r.reason.value != ""
    ensures r.execution == ExCompleted && r.kind != Findings ==> r.report.Some?
    ensures r.kind == PatchResult && r.execution == ExCompleted ==> r.patch.Some?
    // a patch is in the manifest under its own digest, over a known base, and it is the only one there
    ensures r.patch.Some? ==> r.kind == PatchResult && r.baseCommit.Some? && 1 <= |r.patch.value.files| <= 100
    ensures r.patch.Some? ==>
              exists i :: 0 <= i < |r.artifacts| && r.artifacts[i].id == r.patch.value.artifactId
                          && r.artifacts[i].kind == APatch && r.artifacts[i].sha256 == r.patch.value.sha256
    ensures forall i :: 0 <= i < |r.artifacts| && r.artifacts[i].kind == APatch ==>
              r.patch.Some? && r.artifacts[i].id == r.patch.value.artifactId
    ensures forall i, j :: 0 <= i < j < |r.artifacts| ==> r.artifacts[i].id != r.artifacts[j].id
    // a check is about this base and this patch, says what it measured, and its log is in the manifest
    ensures forall i, j :: 0 <= i < j < |r.checks| ==> r.checks[i].commandId != r.checks[j].commandId
    ensures forall i :: 0 <= i < |r.checks| ==>
              && r.baseCommit == Some(r.checks[i].baseCommit)
              && r.checks[i].patch == (if r.patch.Some? then Some(r.patch.value.sha256) else None)
    ensures forall i :: 0 <= i < |r.checks| ==>
              match r.checks[i].status
              case Passed => r.checks[i].exitCode == Some(0) && r.checks[i].durationMs.Some? && r.checks[i].logId.Some?
              case Failed => r.checks[i].exitCode.Some? && r.checks[i].exitCode != Some(0) && r.checks[i].durationMs.Some?
                             && r.checks[i].logId.Some?
              case _ => r.checks[i].exitCode.None? && r.checks[i].reason.Some? && r.checks[i].reason.value != ""
    ensures forall i :: 0 <= i < |r.checks| && r.checks[i].logId.Some? ==>
              exists j :: 0 <= j < |r.artifacts| && r.artifacts[j].id == r.checks[i].logId.value && r.artifacts[j].kind == ALog
    ensures r.validation == Summary(r.checks) && |r.checks| <= 5 && |r.artifacts| <= 30
  {
    hide RelativePath, Identifier, Summary, ProviderUsage.Valid, RunnerUsage.Valid;
    forall i | 0 <= i < |r.checks|
      ensures r.checks[i].Valid() && (r.checks[i].logId.Some? ==> HasArtifact(r.artifacts, r.checks[i].logId.value, ALog))
    {
    }
  }

  /** What a result of another task, provider, base or command, or beyond a limit of the revision, is refused
      for: none of this holds of one that matches it. */
  lemma MatchMeans(r: TaskResult, v: Revision, gate: Gate, t: TextPolicy)
    requires MatchesRevision(r, v, gate, t)
    ensures r.task == v.task && r.mode == v.mode && r.language == v.language && r.proposeFix == v.proposeFix
    // every path of a patch is permitted
    ensures r.patch.Some? ==>
              forall i :: 0 <= i < |r.patch.value.files| ==> Permitted(r.patch.value.files[i].path, v.configuration.writePaths)
    // usage is of the revision's provider and profile, complete when the execution is, and within limits to pass
    ensures r.runnerUsage.Some? ==>
              && r.runnerUsage.value.provider == v.provider && r.runnerUsage.value.profileVersion == v.runtimeVersion
              && r.mode == OpenCode && r.task != CiReview
    ensures r.runnerUsage.Some? && r.execution == ExCompleted ==>
              && r.runnerUsage.value.attempts > 0 && r.runnerUsage.value.completedSteps > 0
              && r.runnerUsage.value.input.Some? && r.runnerUsage.value.output.Some? && r.runnerUsage.value.reasoning.Some?
              && r.runnerUsage.value.cacheRead.Some? && r.runnerUsage.value.cacheWrite.Some? && r.runnerUsage.value.reportedTotal.Some?
    ensures r.runnerUsage.Some? && gate == GatePass ==>
              && OrZero(r.runnerUsage.value.reportedTotal) <= v.configuration.resources.maxTokens
              && OrZero(r.runnerUsage.value.input) + OrZero(r.runnerUsage.value.output) + OrZero(r.runnerUsage.value.reasoning)
                 + OrZero(r.runnerUsage.value.cacheRead) + OrZero(r.runnerUsage.value.cacheWrite)
                 <= v.configuration.resources.maxTokens
              && r.runnerUsage.value.completedSteps <= v.configuration.resources.maxIterations
              && r.runnerUsage.value.toolCalls <= v.configuration.resources.maxIterations
              && r.runnerUsage.value.attempts <= v.configuration.resources.maxAttempts
    ensures r.providerUsage.Some? ==>
              && r.providerUsage.value.provider == v.provider && r.providerUsage.value.profileVersion == v.runtimeVersion
              && r.mode == SingleCall && (r.task == CiReview || r.task == Other)
              && (r.execution == ExCompleted ==> r.providerUsage.value.generationRequests == 1)
              && (gate == GatePass ==> OrZero(r.providerUsage.value.reportedTotal) <= v.configuration.resources.maxTokens)
    // a check is of this revision and of one of its commands, and not beyond that command's limit if it passed
    ensures forall i :: 0 <= i < |r.checks| ==>
              r.checks[i].revisionId == v.id
              && exists j :: 0 <= j < |v.configuration.commands| && v.configuration.commands[j].id == r.checks[i].commandId
    ensures forall i, j :: 0 <= i < |r.checks| && 0 <= j < |v.configuration.commands|
                           && r.checks[i].commandId == v.configuration.commands[j].id
                           && r.checks[i].status == Passed && r.checks[i].durationMs.Some? ==>
              r.checks[i].durationMs.value <= v.configuration.commands[j].maxSeconds * 1000
    // to pass, the execution is complete, no check failed, every required command passed, and it is no diagnosis
    ensures gate == GatePass ==>
              && r.execution == ExCompleted && r.validation != Failed && r.validation != Unavailable && r.task != FailureDiagnosis
              && forall j :: 0 <= j < |v.configuration.commands| && v.configuration.commands[j].required ==>
                   exists i :: 0 <= i < |r.checks| && r.checks[i].commandId == v.configuration.commands[j].id
                               && r.checks[i].status == Passed
    ensures v.contractVersion == 1 && Sizes(r.artifacts) <= v.configuration.resources.maxOutputBytes
  {
    hide Permitted, CompletedDiagnosis, Sizes, ProviderUsage.TotalTokens, ProviderUsage.Captured;
    forall i | 0 <= i < |r.checks|
      ensures r.checks[i].revisionId == v.id && HasCommand(v.configuration, r.checks[i].commandId)
    {
    }
  }

  // ---------------------------------------------------------------- usage records

  predicate Bounded(c: Count) {
    c.Some? ==> 0 <= c.value <= 10_000_000
  }

  /** A runner's usage record is valid exactly when its counts are known to be in range or unknown, a reported
      total covers the categories, and no attempt means no activity. */
  lemma RunnerUsageMeans(u: RunnerUsage)
    requires 1 <= |u.profileVersion| <= 128
    ensures u.Valid() <==>
              && Bounded(u.input) && Bounded(u.output) && Bounded(u.reasoning)
              && Bounded(u.cacheRead) && Bounded(u.cacheWrite) && Bounded(u.reportedTotal)
              && 0 <= u.attempts <= 3 && 0 <= u.completedSteps <= 1000 && 0 <= u.toolCalls <= 1000
              && (u.reportedTotal.Some? ==>
                    u.reportedTotal.value >= OrZero(u.input) + OrZero(u.output) + OrZero(u.reasoning)
                                             + OrZero(u.cacheRead) + OrZero(u.cacheWrite))
              && (u.attempts == 0 ==>
                    && u.completedSteps == 0 && u.toolCalls == 0
                    && OrZero(u.input) + OrZero(u.output) + OrZero(u.reasoning) + OrZero(u.cacheRead) + OrZero(u.cacheWrite) == 0)
  {
  }

  /** What a provider's counters say of one another: cached and written tokens are part of the input of OpenAI
      and Google, reasoning is part of the output of OpenAI and Anthropic, cache writes have a time to live
      with Anthropic alone and add up, nothing is counted without a request, and a reported total agrees
      with the categories. */
  lemma ProviderUsageMeans(u: ProviderUsage)
    requires u.Valid()
    ensures u.provider != Anthropic && u.input.Some? && u.cacheRead.Some? ==> u.cacheRead.value <= u.input.value
    ensures u.provider != Anthropic && u.input.Some? && u.cacheWrite.Some? ==> u.cacheWrite.value <= u.input.value
    ensures u.provider != Google && u.output.Some? && u.reasoning.Some? ==> u.reasoning.value <= u.output.value
    ensures u.provider != Anthropic ==> u.cacheWrite5m.None? && u.cacheWrite1h.None?
    ensures u.provider == Google ==> u.cacheWrite.None?
    ensures u.cacheWrite.Some? && u.cacheWrite5m.Some? && u.cacheWrite1h.Some? ==>
              u.cacheWrite.value == u.cacheWrite5m.value + u.cacheWrite1h.value
    ensures u.generationRequests == 0 ==> u.input.None? && u.output.None? && u.reportedTotal.None? && u.reasoning.None?
    ensures u.provider == OpenAI && u.reportedTotal.Some? && u.input.Some? && u.output.Some? ==>
              u.reportedTotal.value == u.input.value + u.output.value
    ensures u.provider == Google && u.reportedTotal.Some? && u.input.Some? && u.output.Some? && u.reasoning.Some? ==>
              u.reportedTotal.value == u.input.value + u.output.value + u.reasoning.value
    ensures u.provider == Anthropic && u.reportedTotal.Some? && u.input.Some? && u.output.Some? && u.cacheRead.Some? && u.cacheWrite.Some? ==>
              u.reportedTotal.value == u.input.value + u.output.value + u.cacheRead.value + u.cacheWrite.value
  {
    SumOfUpTo(u.Parts());
  }

  lemma SumOfUpTo(cs: seq<Count>)
    requires 2 <= |cs| <= 4
    ensures (forall i :: 0 <= i < |cs| ==> cs[i].Some?) ==>
              SumKnown(cs) == Some(cs[0].value + cs[1].value + (if |cs| > 2 then cs[2].value else 0)
                                   + (if |cs| > 3 then cs[3].value else 0))
  {
    if forall i :: 0 <= i < |cs| ==> cs[i].Some? {
      assert cs[0].Some? && cs[1].Some?;
      var a := cs[1..];
      var b := a[1..];
      assert a[0] == cs[1];
      assert SumKnown([]) == Some(0);
      if |cs| == 2 {
        assert b == [];
      } else {
        assert cs[2].Some? && b[0] == cs[2];
        var c := b[1..];
        if |cs| == 3 {
          assert c == [];
        } else {
          assert cs[3].Some? && c[0] == cs[3] && c[1..] == [];
          assert SumKnown(c) == Some(cs[3].value);
        }
        assert SumKnown(b) == Some(cs[2].value + if |cs| > 3 then cs[3].value else 0);
      }
      assert SumKnown(a).Some?;
    }
  }
}
