/** The task, configuration and result vocabulary shared by the API and the agent: the
    checks of a result on its own and against the revision that was executed. */
module TaskContracts {
  import opened Prelude
  import opened Usage

  // ---------------------------------------------------------------- profiles

  datatype Task = CiReview | SecurityAnalysis | TestGeneration | FailureDiagnosis | Other
  datatype Mode = SingleCall | OpenCode
  datatype Language = Python | Node
  datatype Kind = Findings | ReportOnly | PatchResult
  datatype Capability =
    | CapReview | CapSecurity | CapTestsPython | CapTestsNode
    | CapDiagnosisReadonly | CapDiagnosisFix | CapCustomSingleCall | CapCustomOpenCode

  datatype Profile = Profile(capability: Capability, kinds: set<Kind>, writable: bool)

  function ProfileFor(task: Task, mode: Mode, language: Option<Language>, proposeFix: bool): Option<Profile> {
    match (task, mode, language, proposeFix)
    case (CiReview, SingleCall, None, false) => Some(Profile(CapReview, {Findings}, false))
    case (SecurityAnalysis, OpenCode, None, false) => Some(Profile(CapSecurity, {Findings}, false))
    case (TestGeneration, OpenCode, Some(Python), false) => Some(Profile(CapTestsPython, {PatchResult}, true))
    case (TestGeneration, OpenCode, Some(Node), false) => Some(Profile(CapTestsNode, {PatchResult}, true))
    case (FailureDiagnosis, OpenCode, None, false) => Some(Profile(CapDiagnosisReadonly, {ReportOnly}, false))
    case (FailureDiagnosis, OpenCode, None, true) => Some(Profile(CapDiagnosisFix, {ReportOnly, PatchResult}, true))
    case (Other, SingleCall, None, false) => Some(Profile(CapCustomSingleCall, {ReportOnly}, false))
    case (Other, OpenCode, None, false) => Some(Profile(CapCustomOpenCode, {ReportOnly, PatchResult}, true))
    case _ => None
  }

  // ---------------------------------------------------------------- names and digests

  predicate IdentifierStart(c: char) {
    'A' <= c <= 'Z' || 'a' <= c <= 'z' || '0' <= c <= '9'
  }

  predicate IdentifierChar(c: char) {
    IdentifierStart(c) || c == '_' || c == '.' || c == '-'
  }

  predicate Identifier(s: string) {
    1 <= |s| <= 64 && IdentifierStart(s[0]) && forall i :: 0 <= i < |s| ==> IdentifierChar(s[i])
  }

  /** Position of the first slash, or the length when there is none. */
  function FirstSlash(s: string): (i: nat)
    ensures i <= |s| && (i < |s| ==> s[i] == '/')
  {
    if s == "" || s[0] == '/' then 0 else 1 + FirstSlash(s[1..])
  }

  function Segments(s: string): seq<string>
    decreases |s|
  {
    var i := FirstSlash(s);
    if i == |s| then [s] else [s[..i]] + Segments(s[i + 1..])
  }

  predicate PathChar(c: char) {
    IdentifierChar(c) || c == ' ' || c == '/' || c == '@' || c == '+' || c == '(' || c == ')'
  }

  /** A literal workspace-relative path of any length. */
  predicate RelativePath(s: string) {
    && s != "" && (forall i :: 0 <= i < |s| ==> PathChar(s[i]))
    && (forall part :: part in Segments(s) ==> part != "" && part != "." && part != "..")
    && s[0] != ' ' && s[|s| - 1] != ' '
  }

  /** A single name of legal characters is a legal path. */
  lemma PlainName(s: string)
    requires |s| > 2 && s[0] != ' ' && s[|s| - 1] != ' '
    requires forall i :: 0 <= i < |s| ==> PathChar(s[i]) && s[i] != '/'
    ensures RelativePath(s)
  {
    assert FirstSlash(s) == |s|;
    assert Segments(s) == [s];
  }

  /** A path as it may appear in a contract. */
  predicate ContractPath(s: string) {
    |s| <= 512 && RelativePath(s)
  }

  /** `name` is `root` or lies below it. */
  predicate Under(name: string, root: string) {
    name == root || root + "/" <= name
  }

  predicate Permitted(name: string, roots: seq<string>) {
    exists i :: 0 <= i < |roots| && Under(name, roots[i])
  }

  type Byte = b: int | 0 <= b < 256

  /** A file on disk: its bytes, whether its owner may execute it, and whether its group or anyone
      else may. */
  datatype File = File(content: seq<Byte>, owner: bool, others: bool)

  /** A file as version control records it: of the execute bits only the owner's is kept. */
  datatype Blob = Blob(content: seq<Byte>, executable: bool)

  /** A patch: for each changed path what is recorded afterwards (None: deleted). */
  type Diff = map<string, Option<Blob>>

  /** What was hashed. SHA-256 is taken to be injective, so a digest is its preimage. */
  datatype Digest = OfBytes(bytes: seq<Byte>) | OfDiff(diff: Diff)

  // ---------------------------------------------------------------- results

  datatype ArtifactKind = AReport | APatch | ALog | ACode | AOther
  datatype Artifact = Artifact(id: string, kind: ArtifactKind, path: string, sha256: Digest, size: int)
  {
    predicate Valid() {
      Identifier(id) && ContractPath(path) && 0 <= size <= 4194304
    }
  }

  datatype Operation = Added | Modified | Deleted
  datatype ChangedFile = ChangedFile(path: string, operation: Operation)
  datatype Patch = Patch(sha256: Digest, artifactId: string, files: seq<ChangedFile>)
  {
    predicate Valid() {
      && Identifier(artifactId) && 1 <= |files| <= 100
      && forall i :: 0 <= i < |files| ==> ContractPath(files[i].path)
    }
  }

  datatype Cause = Repository | External | UnknownCause
  datatype Report = Report(summary: string, uncertainty: Option<string>, nextSteps: seq<string>,
                           cause: Option<Cause>, noPatchReason: Option<string>, evidence: seq<string>)

  datatype CheckStatus = Passed | Failed | NotRun | Unavailable
  datatype Check = Check(
    commandId: string, status: CheckStatus, revisionId: int, baseCommit: string,
    patch: Option<Digest>, exitCode: Option<int>, durationMs: Option<int>,
    logId: Option<string>, reason: Option<string>)
  {
    predicate Outcome() {
      if status == Passed || status == Failed then
        && exitCode.Some? && durationMs.Some? && logId.Some?
        && (status == Passed <==> exitCode.value == 0)
      else
        exitCode.None? && reason.Some? && reason.value != ""
    }

    predicate Valid() {
      && Identifier(commandId) && revisionId > 0
      && (exitCode.Some? ==> -255 <= exitCode.value <= 255)
      && (durationMs.Some? ==> 0 <= durationMs.value <= 1800000)
      && (logId.Some? ==> Identifier(logId.value))
      && (reason.Some? ==> |reason.value| <= 1000)
      && Outcome()
    }
  }

  datatype BuildStatus = Failure | Success | Aborted | NotBuilt

  /** The upstream failure a diagnosis is about; `log` is the redacted excerpt. */
  datatype FailureContext = FailureContext(
    buildId: string, stage: string, commit: string, exitStatus: Option<int>,
    original: BuildStatus, log: string, claimId: Option<string>)

  datatype Execution = ExCompleted | ExFailed | ExTimedOut | ExRefused | ExSkipped

  datatype TaskResult = TaskResult(
    kind: Kind, task: Task, mode: Mode, language: Option<Language>, proposeFix: bool,
    execution: Execution, reason: Option<string>, validation: CheckStatus,
    baseCommit: Option<string>, patch: Option<Patch>, report: Option<Report>,
    artifacts: seq<Artifact>, checks: seq<Check>, failure: Option<FailureContext>,
    providerUsage: Option<ProviderUsage>, runnerUsage: Option<RunnerUsage>)

  /** Failed beats unavailable beats not run; no check at all is not a pass. */
  function Summary(checks: seq<Check>): CheckStatus {
    if exists i :: 0 <= i < |checks| && checks[i].status == Failed then Failed
    else if exists i :: 0 <= i < |checks| && checks[i].status == Unavailable then Unavailable
    else if checks == [] || exists i :: 0 <= i < |checks| && checks[i].status == NotRun then NotRun
    else Passed
  }

  predicate DistinctIds(artifacts: seq<Artifact>) {
    forall i, j :: 0 <= i < j < |artifacts| ==> artifacts[i].id != artifacts[j].id
  }

  predicate DistinctCommands(checks: seq<Check>) {
    forall i, j :: 0 <= i < j < |checks| ==> checks[i].commandId != checks[j].commandId
  }

  function Sizes(artifacts: seq<Artifact>): int {
    if artifacts == [] then 0 else Sizes(artifacts[..|artifacts| - 1]) + artifacts[|artifacts| - 1].size
  }

  predicate HasArtifact(artifacts: seq<Artifact>, id: string, kind: ArtifactKind) {
    exists i :: 0 <= i < |artifacts| && artifacts[i].id == id && artifacts[i].kind == kind
  }

  predicate ArtifactsConsistent(r: TaskResult) {
    && |r.artifacts| <= 30 && DistinctIds(r.artifacts)
    && (forall i :: 0 <= i < |r.artifacts| ==> r.artifacts[i].Valid())
    && (forall i :: 0 <= i < |r.artifacts| && r.artifacts[i].kind == APatch ==>
          r.patch.Some? && r.artifacts[i].id == r.patch.value.artifactId)
  }

  predicate PatchConsistent(r: TaskResult) {
    && (r.kind == PatchResult && r.execution == ExCompleted ==> r.patch.Some?)
    && (r.patch.Some? ==>
          && r.patch.value.Valid() && r.kind == PatchResult && r.baseCommit.Some?
          && exists i :: 0 <= i < |r.artifacts| && r.artifacts[i].id == r.patch.value.artifactId
                         && r.artifacts[i].kind == APatch && r.artifacts[i].sha256 == r.patch.value.sha256)
  }

  predicate ReportConsistent(r: TaskResult) {
    && (r.kind != Findings && r.execution == ExCompleted ==> r.report.Some?)
    && (r.report.Some? ==>
          forall i :: 0 <= i < |r.report.value.evidence| ==>
            exists j :: 0 <= j < |r.artifacts| && r.artifacts[j].id == r.report.value.evidence[i])
  }

  predicate ChecksConsistent(r: TaskResult) {
    && |r.checks| <= 5 && DistinctCommands(r.checks)
    && (forall i :: 0 <= i < |r.checks| ==>
          && r.checks[i].Valid()
          && r.baseCommit == Some(r.checks[i].baseCommit)
          && r.checks[i].patch == (if r.patch.Some? then Some(r.patch.value.sha256) else None)
          && (r.checks[i].logId.Some? ==> HasArtifact(r.artifacts, r.checks[i].logId.value, ALog)))
    && r.validation == Summary(r.checks)
  }

  predicate UsageConsistent(r: TaskResult) {
    && !(r.providerUsage.Some? && r.runnerUsage.Some?)
    && (r.providerUsage.Some? ==> r.providerUsage.value.Valid())
    && (r.runnerUsage.Some? ==> r.runnerUsage.value.Valid())
  }

  /** The checks a result must meet to be constructed at all. */
  predicate Consistent(r: TaskResult) {
    && UsageConsistent(r)
    && (r.execution != ExCompleted ==> r.reason.Some? && r.reason.value != "")
    && ProfileFor(r.task, r.mode, r.language, r.proposeFix).Some?
    && r.kind in ProfileFor(r.task, r.mode, r.language, r.proposeFix).value.kinds
    && ArtifactsConsistent(r) && PatchConsistent(r) && ReportConsistent(r) && ChecksConsistent(r)
  }

  // ---------------------------------------------------------------- configuration

  datatype Command = Command(id: string, required: bool, maxSeconds: int)
  datatype Resources = Resources(maxSeconds: int, maxTokens: int, maxIterations: int, maxAttempts: int,
                                 maxOutputBytes: int)
  datatype Inputs = Inputs(diff: bool, artifacts: seq<string>, maxBytes: int, maxFileBytes: int, maxContextTokens: int)
  datatype Diagnosis = Diagnosis(stage: string, logArtifact: string)

  datatype Configuration = Configuration(
    taskLabel: Option<string>, systemPrompt: Option<string>, instructions: Option<string>,
    inputs: Inputs, resources: Resources, writePaths: seq<string>, commands: seq<Command>,
    diagnosis: Option<Diagnosis>)
  {
    predicate Valid() {
      && 1 <= inputs.maxBytes <= 1048576 && 1 <= inputs.maxFileBytes <= 262144
      && 1 <= inputs.maxContextTokens <= 131072
      && 1 <= resources.maxSeconds <= 1800 && 1 <= resources.maxTokens <= 1000000
      && 1 <= resources.maxIterations <= 40 && 1 <= resources.maxAttempts <= 3
      && 1 <= resources.maxOutputBytes <= 4194304
      && |writePaths| <= 30 && |commands| <= 5
      && (forall i :: 0 <= i < |commands| ==> Identifier(commands[i].id) && 1 <= commands[i].maxSeconds <= 600)
      && (forall i, j :: 0 <= i < j < |commands| ==> commands[i].id != commands[j].id)
    }
  }

  datatype Executor = NoExecutor | CredentialFree
  /** The authority fixed by a configuration; shell, network, host and publish are always off. */
  datatype Authority = Authority(configuration: Configuration, capability: Capability, disposable: bool,
                                 writePaths: seq<string>, executor: Executor, kinds: set<Kind>)

  predicate Present(s: Option<string>) {
    s.Some? && s.value != ""
  }

  /** `configure`: None is a rejected request. `repairable` is the production-file policy. */
  function Configure(task: Task, mode: Mode, c: Configuration, language: Option<Language>, proposeFix: bool,
                     repairable: string -> bool): Option<Authority>
  {
    var p := ProfileFor(task, mode, language, proposeFix);
    if p.None? then None
    else if task == Other && !(Present(c.taskLabel) && Present(c.systemPrompt) && Present(c.instructions)) then None
    else if task != Other && (Present(c.taskLabel) || Present(c.systemPrompt)) then None
    else if !p.value.writable && (c.writePaths != [] || c.commands != []) then None
    else if p.value.writable && c.writePaths == [] then None
    else if task == TestGeneration && !(exists i :: 0 <= i < |c.commands| && c.commands[i].required) then None
    else if c.diagnosis.Some? && (task != FailureDiagnosis || c.inputs.diff || c.inputs.artifacts != []) then None
    else if c.diagnosis.Some? && proposeFix && exists i :: 0 <= i < |c.writePaths| && !repairable(c.writePaths[i]) then None
    else
      var c' := if mode == SingleCall then c.(resources := c.resources.(maxIterations := 1, maxAttempts := 1)) else c;
      Some(Authority(c', p.value.capability, p.value.writable, c'.writePaths,
                     if c'.commands != [] then CredentialFree else NoExecutor, p.value.kinds))
  }

  /** Configuring the stored configuration again yields the stored authority, and a stored
      authority never exceeds its profile: this is the check the agent makes on what it fetches. */
  lemma ConfigureIsStable(task: Task, mode: Mode, c: Configuration, language: Option<Language>, proposeFix: bool,
                          repairable: string -> bool)
    requires Configure(task, mode, c, language, proposeFix, repairable).Some?
    ensures var a := Configure(task, mode, c, language, proposeFix, repairable).value;
            && Configure(task, mode, a.configuration, language, proposeFix, repairable) == Some(a)
            && (a.disposable <==> a.writePaths != [])
            && (a.executor == CredentialFree ==> a.disposable)
            && (mode == SingleCall ==> a.configuration.resources.maxIterations == 1
                                       && a.configuration.resources.maxAttempts == 1)
  {
    var p := ProfileFor(task, mode, language, proposeFix).value;
    var a := Configure(task, mode, c, language, proposeFix, repairable).value;
    assert a.writePaths == c.writePaths && a.configuration.commands == c.commands;
    if p.writable {
      assert a.writePaths != [];
    }
  }

  // ---------------------------------------------------------------- against the revision

  datatype Gate = GatePass | GateFail

  datatype Revision = Revision(
    id: int, projectId: int, task: Task, mode: Mode, language: Option<Language>, proposeFix: bool,
    contractVersion: int, configuration: Configuration,
    provider: Provider, modelId: string, runtimeVersion: string)

  predicate SameProfile(r: TaskResult, v: Revision) {
    && r.task == v.task && r.mode == v.mode && r.language == v.language && r.proposeFix == v.proposeFix
  }

  predicate CompletedDiagnosis(r: TaskResult, c: Configuration, logDigest: string -> Digest, logSize: string -> int)
    requires r.failure.Some? && c.diagnosis.Some?
  {
    var f := r.failure.value;
    && f.claimId.Some? && f.original == Failure
    && f.exitStatus.Some? && f.exitStatus.value != 0
    && f.log != "" && f.stage == c.diagnosis.value.stage
    && r.report.Some? && Present(r.report.value.uncertainty) && r.report.value.cause.Some?
    && r.report.value.nextSteps != []
    && r.report.value.evidence == ["failure-log"]
    && (exists i :: 0 <= i < |r.artifacts| && r.artifacts[i].id == "failure-log" && r.artifacts[i].kind == AOther
                    && r.artifacts[i].size == logSize(f.log) && r.artifacts[i].sha256 == logDigest(f.log))
    && r.runnerUsage.Some? && r.runnerUsage.value.attempts == 1 && r.runnerUsage.value.completedSteps >= 1
    && (r.patch.None? ==> Present(r.report.value.noPatchReason))
    && (r.patch.Some? ==> r.report.value.cause == Some(Repository))
  }

  /** What the API needs to know about text it does not interpret here. */
  datatype TextPolicy = TextPolicy(repairable: string -> bool, logDigest: string -> Digest, logSize: string -> int)

  predicate FailureEvidence(r: TaskResult, v: Revision, gate: Gate, t: TextPolicy) {
    var c := v.configuration;
    if r.failure.Some? then
      && r.task == FailureDiagnosis && c.diagnosis.Some? && gate == GateFail
      && r.baseCommit == Some(r.failure.value.commit)
      && (r.execution == ExCompleted ==> CompletedDiagnosis(r, c, t.logDigest, t.logSize))
      && (r.patch.Some? ==>
            forall i :: 0 <= i < |r.patch.value.files| ==>
              t.repairable(r.patch.value.files[i].path) && r.patch.value.files[i].operation == Modified)
    else !(c.diagnosis.Some? && r.task == FailureDiagnosis)
  }

  predicate NativeUsageFits(r: TaskResult, v: Revision, gate: Gate) {
    r.providerUsage.Some? ==>
      var u := r.providerUsage.value;
      && (r.task == CiReview || r.task == Other) && r.mode == SingleCall
      && u.provider == v.provider && u.profileVersion == v.runtimeVersion
      && (r.execution == ExCompleted ==> u.TotalTokens().Some? && u.generationRequests == 1)
      && (gate == GatePass ==> Max(u.Captured(), OrZero(u.reportedTotal)) <= v.configuration.resources.maxTokens)
  }

  predicate RunnerUsageFits(r: TaskResult, v: Revision, gate: Gate) {
    r.runnerUsage.Some? ==>
      var u := r.runnerUsage.value;
      var res := v.configuration.resources;
      && r.task != CiReview && r.mode == OpenCode
      && u.provider == v.provider && u.profileVersion == v.runtimeVersion
      && (r.execution == ExCompleted ==> u.Complete())
      && (gate == GatePass || (r.task == FailureDiagnosis && r.execution == ExCompleted) ==>
            && u.Spent() <= res.maxTokens && u.completedSteps <= res.maxIterations
            && u.toolCalls <= res.maxIterations && u.attempts <= res.maxAttempts)
  }

  predicate PatchPermitted(r: TaskResult, c: Configuration) {
    r.patch.Some? ==>
      forall i :: 0 <= i < |r.patch.value.files| ==> Permitted(r.patch.value.files[i].path, c.writePaths)
  }

  predicate HasCommand(c: Configuration, id: string) {
    exists i :: 0 <= i < |c.commands| && c.commands[i].id == id
  }

  predicate HasCheck(r: TaskResult, id: string) {
    exists i :: 0 <= i < |r.checks| && r.checks[i].commandId == id
  }

  /** No passed check reports a duration beyond the limit of its command. */
  predicate DurationsWithin(r: TaskResult, c: Configuration) {
    forall i, j :: 0 <= i < |r.checks| && 0 <= j < |c.commands|
                   && r.checks[i].commandId == c.commands[j].id && r.checks[i].status == Passed
                   && r.checks[i].durationMs.Some? ==>
      r.checks[i].durationMs.value <= c.commands[j].maxSeconds * 1000
  }

  predicate ChecksBelong(r: TaskResult, v: Revision) {
    && (forall i :: 0 <= i < |r.checks| ==>
          r.checks[i].revisionId == v.id && HasCommand(v.configuration, r.checks[i].commandId))
    && (r.validation == Passed ==>
          forall j :: 0 <= j < |v.configuration.commands| ==> HasCheck(r, v.configuration.commands[j].id))
  }

  predicate GateAllowed(r: TaskResult, v: Revision, gate: Gate) {
    gate == GatePass ==>
      && r.execution == ExCompleted
      && (forall j :: 0 <= j < |v.configuration.commands| && v.configuration.commands[j].required ==>
            exists i :: 0 <= i < |r.checks| && r.checks[i].commandId == v.configuration.commands[j].id
                        && r.checks[i].status == Passed)
      && r.validation != Failed && r.validation != Unavailable
      && r.task != FailureDiagnosis
  }

  /** The API's binding of a posted result to the immutable revision it was executed under.
      Named test evidence is not part of this model. */
  predicate MatchesRevision(r: TaskResult, v: Revision, gate: Gate, t: TextPolicy) {
    && SameProfile(r, v) && v.contractVersion == 1
    && FailureEvidence(r, v, gate, t)
    && NativeUsageFits(r, v, gate) && RunnerUsageFits(r, v, gate)
    && PatchPermitted(r, v.configuration)
    && Sizes(r.artifacts) <= v.configuration.resources.maxOutputBytes
    && ChecksBelong(r, v) && DurationsWithin(r, v.configuration)
    && GateAllowed(r, v, gate)
  }

  // ---------------------------------------------------------------- the posted envelope

  datatype Envelope = Envelope(
    findings: nat, tokensIn: int, tokensOut: int, cacheReadTokens: Count, model: string,
    gate: Gate, revisionId: Option<int>, result: TaskResult)

  predicate EnvelopeConsistent(e: Envelope) {
    var r := e.result;
    && 0 <= e.tokensIn <= COUNT_LIMIT && 0 <= e.tokensOut <= COUNT_LIMIT && InRange(e.cacheReadTokens)
    && (r.providerUsage.Some? ==>
          && e.tokensIn == OrZero(r.providerUsage.value.input)
          && e.tokensOut == OrZero(r.providerUsage.value.output)
          && e.cacheReadTokens == r.providerUsage.value.cacheRead)
    && (r.providerUsage.None? && r.runnerUsage.Some? ==>
          && e.tokensIn == OrZero(r.runnerUsage.value.input)
          && e.tokensOut == OrZero(r.runnerUsage.value.output)
          && e.cacheReadTokens == r.runnerUsage.value.cacheRead)
    && e.revisionId.Some? && e.revisionId.value > 0
    && (r.kind != Findings ==> e.findings == 0)
    && (e.gate == GatePass ==> r.execution == ExCompleted && r.validation != Failed && r.validation != Unavailable)
  }

  /** Everything the API checks before it stores an explicit run. */
  predicate Accepted(e: Envelope, v: Revision, t: TextPolicy) {
    && Consistent(e.result) && EnvelopeConsistent(e)
    && e.revisionId == Some(v.id) && e.model == v.modelId
    && MatchesRevision(e.result, v, e.gate, t)
  }
}
