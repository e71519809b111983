/** The launcher of a writable custom task: an untrusted editor changes a disposable tree, may
    ask for validation while it runs, is destroyed, and the final tree is validated again.
    What is emitted must describe that final tree, and the API must accept it. */
module OtherOpencode {
  import opened Prelude
  import opened Usage
  import opened TaskContracts
  import opened Workspace
  import opened ValidationExecutor
  import Stream = EventStream
  import StreamTheorems

  // ---------------------------------------------------------------- what can happen

  /** One validation: what git does, and what happens to each configured command. */
  datatype Plan = Plan(git: Git, runs: seq<Run>)

  /** What the editor does, in order: rewrite the tree, or have it validated while paused. */
  datatype Action = Write(tree: Tree) | Ask(plan: Plan)

  /** How the editor's container ends: with a stream result, an exception of the launcher, or a removal
      that could not be confirmed. */
  datatype Ending = Streamed(s: Stream.State) | Threw(fault: Fault) | Uncleaned

  datatype Reading = Understood(report: Report) | Refusal | Unparseable

  /** Everything the environment decides in one run. */
  datatype Script = Script(setup: Option<Fault>, session: seq<Action>, ending: Ending, reading: Reading,
                           last: Plan, tooLate: bool, scratchRemoved: bool)

  datatype Raised = Fault(fault: Fault) | RefusedTask | BadReport

  datatype Job = Job(revision: Revision, baseCommit: string, tokenCeiling: nat, maxSteps: nat)

  function Config(j: Job): Configuration {
    j.revision.configuration
  }

  /** The limits handed to the stream reader. */
  function StreamTokens(j: Job): int {
    Min(j.tokenCeiling, Config(j).resources.maxTokens)
  }

  function StreamSteps(j: Job): int {
    Min(j.maxSteps, Config(j).resources.maxIterations)
  }

  /** Each of the stricter of two limits: the machine's and the revision's. */
  lemma LimitsAreTheStricter(j: Job)
    ensures StreamTokens(j) <= j.tokenCeiling && StreamTokens(j) <= Config(j).resources.maxTokens
    ensures StreamTokens(j) == j.tokenCeiling || StreamTokens(j) == Config(j).resources.maxTokens
    ensures StreamSteps(j) <= j.maxSteps && StreamSteps(j) <= Config(j).resources.maxIterations
    ensures StreamSteps(j) == j.maxSteps || StreamSteps(j) == Config(j).resources.maxIterations
  {
  }

  ghost predicate JobValid(j: Job) {
    && Config(j).Valid() && j.revision.id > 0 && 1 <= |j.revision.runtimeVersion| <= 128
    && j.revision.task == Other && j.revision.mode == OpenCode && j.revision.language == None
    && !j.revision.proposeFix && j.revision.contractVersion == 1 && Config(j).diagnosis.None?
  }

  /** A stream result the reader can produce under this job's limits. */
  ghost predicate FromReader(s: Stream.State, j: Job) {
    exists lim: Stream.Limits :: lim.maxTokens == StreamTokens(j) && lim.maxSteps == lim.maxTools == StreamSteps(j)
                                 && StreamTheorems.Plausible(s, lim)
  }

  /** What the reader returns under this job's limits is such a result. */
  lemma ReaderFits(j: Job, rounds: seq<Stream.Round>, exit: Stream.Exit, env: Stream.Env)
    requires env.limits.maxTokens == StreamTokens(j) && env.limits.maxSteps == env.limits.maxTools == StreamSteps(j)
    ensures FromReader(Stream.RunStream(rounds, exit, env), j)
  {
    hide Stream.RunStream;
    StreamTheorems.StreamIsPlausible(rounds, exit, env);
  }

  ghost predicate PlanFits(p: Plan, j: Job) {
    |p.runs| == |Config(j).commands|
  }

  ghost predicate ScriptFits(sc: Script, j: Job) {
    && PlanFits(sc.last, j)
    && (forall i :: 0 <= i < |sc.session| && sc.session[i].Ask? ==> PlanFits(sc.session[i].plan, j))
    && (sc.ending.Streamed? ==> FromReader(sc.ending.s, j))
  }

  /** The checks were made by these runs, one each; a run the clock left no time for is no execution. */
  ghost predicate MadeBy(checks: seq<Check>, runs: seq<Run>) {
    && |checks| == |runs|
    && forall i :: 0 <= i < |checks| ==>
         Witnessed(checks[i], runs[i]) && (runs[i].outOfTime ==> checks[i].status == Unavailable)
  }

  /** Every run can be reported, for its own command and in the room left by the logs before it. */
  ghost predicate AllReport(runs: seq<Run>, commands: seq<Command>, room: nat) {
    |runs| == |commands| && forall i :: 0 <= i < |runs| ==> CanReport(runs[i], commands[i], RoomAt(runs, i, room))
  }

  const OUT_OF_TIME := "Task wall-clock budget exhausted"

  /** A check has the verdict of its run, says why when there is none, and names a log exactly when a process
      ended; the log then holds that process's output, as far as there was room for it. */
  ghost predicate AsRun(c: Check, artifacts: seq<Artifact>, r: Run, room: nat) {
    && c.status == Verdict(r, room) && Witnessed(c, r)
    && (c.status == Unavailable ==> c.reason == Some(if r.outOfTime then OUT_OF_TIME else WhyUnavailable(r, room)))
    && (c.logId.Some? <==> !r.outOfTime && r.launch.Ended?)
    && (c.logId.Some? ==>
          exists m :: 0 <= m < |artifacts| && artifacts[m].id == c.logId.value
                      && artifacts[m].sha256 == OfBytes(Bound(r.launch.process, room).output))
  }

  /** The checks, so far, are as these runs went. */
  ghost predicate Judged(checks: seq<Check>, artifacts: seq<Artifact>, runs: seq<Run>, room: nat) {
    |checks| <= |runs| && forall i :: 0 <= i < |checks| ==> AsRun(checks[i], artifacts, runs[i], RoomAt(runs, i, room))
  }

  lemma MoreArtifacts(c: Check, artifacts: seq<Artifact>, log: Option<Artifact>, r: Run, room: nat)
    requires AsRun(c, artifacts, r, room)
    ensures AsRun(c, if log.Some? then artifacts + [log.value] else artifacts, r, room)
  {
    hide Verdict, WhyUnavailable, Bound;
    if c.logId.Some? && log.Some? {
      var m :| 0 <= m < |artifacts| && artifacts[m].id == c.logId.value
               && artifacts[m].sha256 == OfBytes(Bound(r.launch.process, room).output);
      assert (artifacts + [log.value])[m] == artifacts[m];
    }
  }

  /** A check and its log, added to those there are. */
  lemma NewArtifact(c: Check, artifacts: seq<Artifact>, log: Option<Artifact>, r: Run, room: nat)
    requires AsRun(c, if log.Some? then [log.value] else [], r, room)
    ensures AsRun(c, if log.Some? then artifacts + [log.value] else artifacts, r, room)
  {
    hide Verdict, WhyUnavailable, Bound;
    if c.logId.Some? && log.Some? {
      assert (artifacts + [log.value])[|artifacts|] == log.value;
    }
  }

  /** Such checks were made by these runs, and all passed exactly when every run is judged a pass. */
  lemma JudgedMeans(checks: seq<Check>, artifacts: seq<Artifact>, runs: seq<Run>, room: nat)
    requires |checks| == |runs| && Judged(checks, artifacts, runs, room)
    ensures MadeBy(checks, runs) && (AllPassed(checks) <==> AllPass(runs, room))
  {
    hide Witnessed, WhyUnavailable, Bound, Passes, Fails, RoomAt;
    forall i | 0 <= i < |checks|
      ensures checks[i].status == Verdict(runs[i], RoomAt(runs, i, room))
      ensures Witnessed(checks[i], runs[i]) && (runs[i].outOfTime ==> checks[i].status == Unavailable)
    {
      assert AsRun(checks[i], artifacts, runs[i], RoomAt(runs, i, room));
    }
  }

  /** Every run so far can be reported. */
  ghost predicate ReportSoFar(runs: seq<Run>, commands: seq<Command>, i: nat, room: nat)
    requires i <= |runs| == |commands|
  {
    forall k :: 0 <= k < i ==> CanReport(runs[k], commands[k], RoomAt(runs, k, room))
  }

  lemma ReportMore(runs: seq<Run>, commands: seq<Command>, i: nat, room: nat)
    requires i < |runs| == |commands|
    ensures ReportSoFar(runs, commands, i + 1, room) <==>
              ReportSoFar(runs, commands, i, room) && CanReport(runs[i], commands[i], RoomAt(runs, i, room))
    ensures ReportSoFar(runs, commands, |runs|, room) <==> AllReport(runs, commands, room)
    ensures AllReport(runs, commands, room) ==> CanReport(runs[i], commands[i], RoomAt(runs, i, room))
  {
    hide CanReport, RoomAt;
  }

  /** Every run is judged a pass. */
  ghost predicate AllPass(runs: seq<Run>, room: nat) {
    forall i :: 0 <= i < |runs| ==> Verdict(runs[i], RoomAt(runs, i, room)) == Passed
  }

  /** No command writes to the tree, as its read-only mount ensures. */
  predicate LeaveAlone(runs: seq<Run>) {
    forall i :: 0 <= i < |runs| ==> runs[i].after.None?
  }

  ghost predicate AllPassed(checks: seq<Check>) {
    forall i :: 0 <= i < |checks| ==> checks[i].status == Passed
  }

  lemma PassedBlocksNothing(checks: seq<Check>)
    requires AllPassed(checks)
    ensures Summary(checks) != Failed && Summary(checks) != Unavailable
  {
  }

  /** The room the patch of a tree leaves for logs. */
  ghost function RoomFor(plan: Plan, tree: Tree, work: DisposableWorkspace): nat {
    Max(0, work.maxOutputBytes
           - if Listed(Contents(tree)) == Listed(work.base) || !plan.git.GitWorks? then 0 else plan.git.rawSize)
  }

  /** A validation of a tree can be completed: the tree can be captured, every run reported, and afterwards
      inspection finds the files there were. */
  ghost predicate CanValidate(plan: Plan, tree: Tree, j: Job, work: DisposableWorkspace) {
    && Capturable(work.base, tree, work.writePaths, work.maxOutputBytes, plan.git)
    && AllReport(plan.runs, Config(j).commands, RoomFor(plan, tree, work))
    && SameFiles(tree, TreeThrough(plan.runs, |plan.runs|, tree), work)
  }

  ghost predicate SameFiles(before: Tree, after: Tree, work: DisposableWorkspace) {
    Inspectable(after, work.maxOutputBytes, work.maxOutputBytes) && Listed(Contents(after)) == Listed(Contents(before))
  }

  /** Where no command writes, a validation can be completed exactly when the tree can be captured and every
      run reported. */
  lemma ValidatesWhere(plan: Plan, tree: Tree, j: Job, work: DisposableWorkspace)
    requires LeaveAlone(plan.runs)
    ensures CanValidate(plan, tree, j, work) <==>
              && Capturable(work.base, tree, work.writePaths, work.maxOutputBytes, plan.git)
              && AllReport(plan.runs, Config(j).commands, RoomFor(plan, tree, work))
  {
    hide AllReport, Inspectable;
    LeftAlone(plan.runs, |plan.runs|, tree);
  }

  /** The tree after the editor rewrote it, or had it validated. */
  function Acted(a: Action, tree: Tree): Tree {
    match a
    case Write(t) => t
    case Ask(plan) => TreeThrough(plan.runs, |plan.runs|, tree)
  }

  /** The tree a session leaves behind. */
  function TreeAfter(session: seq<Action>, tree: Tree): Tree {
    if session == [] then tree else TreeAfter(session[1..], Acted(session[0], tree))
  }

  /** Every validation the editor asks for can be completed; it may rewrite the tree at will between them. */
  ghost predicate SessionHolds(session: seq<Action>, tree: Tree, j: Job, work: DisposableWorkspace) {
    session != [] ==>
      && (session[0].Ask? ==> CanValidate(session[0].plan, tree, j, work))
      && SessionHolds(session[1..], Acted(session[0], tree), j, work)
  }

  /** What a run needs to complete: nothing stops it before the editor, every validation asked for can be
      completed, the stream succeeds in time, its report is understood, and so is the validation of the tree
      that is left. */
  ghost predicate CanComplete(sc: Script, tree: Tree, j: Job, work: DisposableWorkspace) {
    && sc.setup.None? && sc.ending.Streamed? && sc.ending.s.code == 0 && SessionHolds(sc.session, tree, j, work)
    && sc.reading.Understood? && !sc.tooLate && CanValidate(sc.last, TreeAfter(sc.session, tree), j, work)
  }

  /** The room for logs in the last validation. */
  ghost function LastRoom(sc: Script, tree: Tree, work: DisposableWorkspace): nat {
    RoomFor(sc.last, TreeAfter(sc.session, tree), work)
  }

  /** A report carries the summary, the uncertainty and the next steps that were read, and no evidence. */
  predicate ReportRead(reading: Reading, report: Option<Report>) {
    && reading.Understood? && report.Some?
    && report.value.summary == reading.report.summary && report.value.uncertainty == reading.report.uncertainty
    && report.value.nextSteps == reading.report.nextSteps && report.value.evidence == []
  }

  // ---------------------------------------------------------------- reporting failures

  function ExitCode(r: Raised): Stream.ErrorCode {
    match r
    case Fault(f) => if f.Exceeded? then 124 else 4
    case RefusedTask => 3
    case BadReport => 2
  }

  function StatusOf(r: Raised): Execution {
    match r
    case Fault(f) => if f == Exceeded(true) then ExTimedOut else ExFailed
    case RefusedTask => ExRefused
    case BadReport => ExFailed
  }

  /** How a fault is reported: a ceiling with 124, as a time-out when it is the clock's, and anything else
      as a failure with 4. */
  predicate FaultEndsAs(f: Fault, status: Execution, code: nat) {
    if f.Exceeded? then code == 124 && status == (if f.wallClock then ExTimedOut else ExFailed)
    else code == 4 && status == ExFailed
  }

  /** The stream as the reader ended it, or failed because a validation could not be completed. */
  predicate AfterSession(ended: Stream.State, s: Stream.State) {
    || s == ended
    || s == Stream.Fail(ended, 4, Stream.BoundaryFailed) || s == Stream.Fail(ended, 124, Stream.BoundaryFailed)
  }

  /** What leaves the work on a script, given the stream it ended with. */
  predicate RaisedBy(sc: Script, stream: Option<Stream.State>, raised: Option<Raised>, status: Execution, code: nat) {
    if sc.setup.Some? then raised == Some(Fault(sc.setup.value))
    else match sc.ending
      case Threw(f) => raised == Some(Fault(f))
      case Uncleaned => raised == Some(Fault(Misconfigured))
      case Streamed(s) =>
        stream.Some? && AfterSession(s, stream.value) &&
        if stream.value.code != 0 then
          raised.None? && code == stream.value.code && status == (if stream.value.timedOut then ExTimedOut else ExFailed)
        else match sc.reading
          case Refusal => raised == Some(RefusedTask)
          case Unparseable => raised == Some(BadReport)
          case Understood(_) =>
            if raised.None? then status == ExCompleted && !sc.tooLate && code <= 1 else raised.value.Fault?
  }

  /** How a script ends: with what stopped it, or completed. `kept`: the scratch directory is preserved. */
  predicate EndsAs(sc: Script, kept: bool, stream: Option<Stream.State>, status: Execution, code: nat) {
    if !kept && !sc.scratchRemoved then status == ExFailed && code == 4
    else if sc.setup.Some? then FaultEndsAs(sc.setup.value, status, code)
    else match sc.ending
      case Threw(f) => FaultEndsAs(f, status, code)
      case Uncleaned => status == ExFailed && code == 4
      case Streamed(s) =>
        stream.Some? && AfterSession(s, stream.value) &&
        if stream.value.code != 0 then
          code == stream.value.code && status == (if stream.value.timedOut then ExTimedOut else ExFailed)
        else match sc.reading
          case Refusal => status == ExRefused && code == 3
          case Unparseable => status == ExFailed && code == 2
          case Understood(_) =>
            if status == ExCompleted then !sc.tooLate && code <= 1
            else (code == 124 || code == 4) && (status == ExFailed || status == ExTimedOut)
  }

  /** The handlers turn what was raised into how the script ends. */
  lemma RaisedEnds(sc: Script, kept: bool, stream: Option<Stream.State>, raised: Option<Raised>, status: Execution, code: nat)
    requires if !kept && !sc.scratchRemoved then raised == Some(Fault(Boundary)) else RaisedBy(sc, stream, raised, status, code)
    ensures EndsAs(sc, kept, stream, if raised.Some? then StatusOf(raised.value) else status,
                   if raised.Some? then ExitCode(raised.value) else code)
  {
  }

  lemma FailsWith(r: Raised)
    ensures StatusOf(r) != ExCompleted && ExitCode(r) != 0 && Message(r) != ""
  {
  }

  lemma EnvelopeTells(j: Job, s: Option<Stream.State>, attempts: int, code: nat, execution: Execution, reason: Option<string>,
                      p: Option<Patch>, r: Option<Report>, artifacts: seq<Artifact>, checks: seq<Check>)
    ensures var u := UsageOf(j, s, attempts);
            Tells(EnvelopeOf(j, ResultOf(j, execution, reason, p, r, artifacts, checks, u), u, code), s, attempts)
  {
    hide Summary;
  }

  function Message(r: Raised): (m: string)
    ensures m != ""
  {
    match r
    case Fault(Misconfigured) => "Configuration, input or boundary error"
    case Fault(Exceeded(_)) => "Ceiling tripped"
    case Fault(Boundary) => "Custom execution boundary failed"
    case RefusedTask => "Model declined the custom task"
    case BadReport => "Custom output failed the report contract"
  }

  function StreamMessage(r: Stream.Reason): (m: string)
    ensures m != ""
  {
    match r
    case WallClock => "Security wall-clock ceiling exceeded"
    case ByteCeiling => "Security event/output byte ceiling exceeded"
    case _ => "OpenCode stream failed"
  }

  function CountOf(s: Option<Stream.State>, k: Stream.Key): Count {
    if s.Some? && k in s.value.counts then Some(s.value.counts[k]) else None
  }

  /** The usage built from the stream: the total is kept only when the stream succeeded. */
  function UsageOf(j: Job, s: Option<Stream.State>, attempts: int): RunnerUsage {
    RunnerUsage(j.revision.provider, j.revision.runtimeVersion,
                CountOf(s, Stream.Input), CountOf(s, Stream.Output), CountOf(s, Stream.Reasoning),
                CountOf(s, Stream.CacheRead), CountOf(s, Stream.CacheWrite),
                if s.Some? && s.value.code == 0 then CountOf(s, Stream.Total) else None,
                attempts,
                if s.Some? then s.value.steps else 0, if s.Some? then s.value.toolCalls else 0)
  }

  /** An envelope tells what the stream counted, each counter under its own name; the total only of a
      stream that succeeded, and nothing when there was no stream. */
  predicate Tells(e: Envelope, s: Option<Stream.State>, attempts: int) {
    e.result.runnerUsage.Some? &&
    var u := e.result.runnerUsage.value;
    var c := if s.Some? then s.value.counts else map[];
    && u.input == (if Stream.Input in c then Some(c[Stream.Input]) else None)
    && u.output == (if Stream.Output in c then Some(c[Stream.Output]) else None)
    && u.reasoning == (if Stream.Reasoning in c then Some(c[Stream.Reasoning]) else None)
    && u.cacheRead == (if Stream.CacheRead in c then Some(c[Stream.CacheRead]) else None)
    && u.cacheWrite == (if Stream.CacheWrite in c then Some(c[Stream.CacheWrite]) else None)
    && u.reportedTotal == (if s.Some? && s.value.code == 0 && Stream.Total in c then Some(c[Stream.Total]) else None)
    && u.attempts == attempts
    && u.completedSteps == (if s.Some? then s.value.steps else 0) && u.toolCalls == (if s.Some? then s.value.toolCalls else 0)
    && e.tokensIn == (if Stream.Input in c then c[Stream.Input] else 0)
    && e.tokensOut == (if Stream.Output in c then c[Stream.Output] else 0)
  }

  predicate Oversized(s: Option<Stream.State>) {
    s.Some? && exists k :: k != Stream.Total && k in s.value.counts && s.value.counts[k] > COUNT_LIMIT
  }

  lemma CategoriesCovered(c: Stream.Counts, k: Stream.Key)
    requires k != Stream.Total
    ensures Stream.Get(c, k) <= Stream.Categories(c)
  {
  }

  /** The usage of a successful stream is valid, complete and within the configured ceilings. */
  lemma SuccessfulUsage(j: Job, s: Stream.State)
    requires JobValid(j) && FromReader(s, j) && s.code == 0
    ensures var u := UsageOf(j, Some(s), 1);
            && u.Valid() && u.Complete()
            && u.Spent() <= Config(j).resources.maxTokens
            && u.completedSteps <= Config(j).resources.maxIterations
            && u.toolCalls <= Config(j).resources.maxIterations
            && u.attempts <= Config(j).resources.maxAttempts
            // ... nor above the limits of the machine the launcher runs on
            && u.Spent() <= j.tokenCeiling && u.completedSteps <= j.maxSteps && u.toolCalls <= j.maxSteps
    ensures !Oversized(Some(s))
  {
    forall k | k != Stream.Total
      ensures Stream.Get(s.counts, k) <= COUNT_LIMIT
    {
      CategoriesCovered(s.counts, k);
    }
  }

  /** The usage of any run can be constructed unless a captured category passed the contract's
      bound: a failed stream may have added one oversized step before its ceiling stopped it. */
  lemma UsageConstructible(j: Job, s: Option<Stream.State>, attempts: int)
    requires JobValid(j) && (s.Some? ==> FromReader(s.value, j) && attempts == 1)
    requires 0 <= attempts <= 1
    ensures UsageOf(j, s, attempts).Valid() <==> !Oversized(s)
  {
    if s.Some? && s.value.code == 0 {
      SuccessfulUsage(j, s.value);
    } else if s.Some? && !Oversized(s) {
      forall k | k != Stream.Total
        ensures InRange(CountOf(s, k))
      {
      }
    }
  }

  /** Steps of 100,000 and then 10,000,000 input tokens, however they are read: the first is within
      every limit, the second fails the stream and leaves a count that no usage record can hold. */
  lemma OversizedStreamExists(j: Job, rounds: seq<Stream.Round>, exit: Stream.Exit, env: Stream.Env, a: Stream.Bytes,
                              b: Stream.Bytes)
    requires JobValid(j) && StreamTokens(j) >= 100000 && StreamSteps(j) >= 1 && env.limits.maxContext >= 100000
    requires env.limits.maxTokens == StreamTokens(j) && env.limits.maxSteps == env.limits.maxTools == StreamSteps(j)
    requires StreamTheorems.ReadsToEnd(Stream.STARTED.open, rounds) && StreamTheorems.Volume(rounds) <= env.limits.maxBytes
    requires Stream.Payload(StreamTheorems.StdoutBytes(rounds)) == [a, b]
    requires env.parse(a) == Stream.Event(Stream.Anonymous, Stream.StepFinish(StreamTheorems.InputOnly(100000), Stream.Stop))
    requires env.parse(b) == Stream.Event(Stream.Anonymous, Stream.StepFinish(StreamTheorems.InputOnly(10000000), Stream.Stop))
    ensures var s := Stream.RunStream(rounds, exit, env);
            s.code == 124 && Oversized(Some(s)) && !UsageOf(j, Some(s), 1).Valid()
  {
    hide Stream.FinishStep, Stream.RunStream, FromReader;
    StreamTheorems.ChunkIndependence(rounds, exit, env);
    StreamTheorems.InputOnlyStep(Stream.INITIAL, 100000, Stream.Stop, env.limits);
    var s1 := Stream.Consume(Stream.INITIAL, a, env);
    assert s1 == Stream.FinishStep(Stream.INITIAL, StreamTheorems.InputOnly(100000), Stream.Stop, env.limits);
    StreamTheorems.InputOnlyStep(s1, 10000000, Stream.Stop, env.limits);
    var s2 := Stream.Consume(s1, b, env);
    assert Stream.Get(s2.counts, Stream.Input) == 10100000;
    assert [a, b][1..] == [b];
    StreamTheorems.FoldOne(s1, b, env);
    assert Stream.Fold(Stream.INITIAL, [a, b], env) == s2;
    ReaderFits(j, rounds, exit, env);
    UsageConstructible(j, Some(Stream.RunStream(rounds, exit, env)), 1);
  }

  // ---------------------------------------------------------------- evidence

  predicate NamesLog(checks: seq<Check>, id: string) {
    exists j :: 0 <= j < |checks| && checks[j].logId == Some(id)
  }

  /** The artifacts of one validation: the patch, if any, and the logs its checks name. */
  ghost predicate Manifest(artifacts: seq<Artifact>, change: Option<Artifact>, checks: seq<Check>) {
    && |artifacts| <= 1 + |checks| && DistinctIds(artifacts)
    && (change.Some? ==> artifacts != [] && artifacts[0] == change.value)
    && (forall i :: 0 <= i < |artifacts| ==>
          && artifacts[i].Valid()
          && (artifacts[i].kind == APatch ==> change == Some(artifacts[i]))
          && (artifacts[i].kind != APatch ==> artifacts[i].kind == ALog && NamesLog(checks, artifacts[i].id)))
    && (forall j :: 0 <= j < |checks| && checks[j].logId.Some? ==> HasArtifact(artifacts, checks[j].logId.value, ALog))
  }

  /** The first checks, one for each of the first commands, all about the same subject. */
  ghost predicate ChecksSoFar(checks: seq<Check>, c: Configuration, s: Subject) {
    && |checks| <= |c.commands|
    && forall i :: 0 <= i < |checks| ==> Reports(checks[i], c.commands[i], s)
  }

  function SubjectOf(j: Job, p: Option<Patch>): Subject {
    Subject(j.revision.id, j.baseCommit, if p.Some? then Some(p.value.sha256) else None)
  }

  lemma ManifestStarts(change: Option<Artifact>)
    requires change.Some? ==> change.value.Valid() && change.value.kind == APatch
    ensures Manifest(if change.Some? then [change.value] else [], change, [])
  {
    hide RelativePath;
  }

  /** One more check and its log: the ids stay distinct because the command ids are. */
  lemma ManifestGrows(artifacts: seq<Artifact>, change: Option<Artifact>, checks: seq<Check>,
                      c: Configuration, s: Subject, check: Check, log: Option<Artifact>)
    requires Manifest(artifacts, change, checks) && ChecksSoFar(checks, c, s)
    requires |checks| < |c.commands| && c.Valid()
    requires change.Some? ==> change.value.id == "changes"
    requires Reports(check, c.commands[|checks|], s) && Logs(check, log)
    ensures Manifest(if log.Some? then artifacts + [log.value] else artifacts, change, checks + [check])
    ensures ChecksSoFar(checks + [check], c, s)
  {
    hide Manifest, ChecksSoFar, Reports, Artifact.Valid;
    if log.Some? {
      FreshLogId(artifacts, change, checks, c, s, check);
    }
    AnotherLog(artifacts, change, checks, check, log);
    AnotherCheck(checks, c, s, check);
  }

  lemma AnotherCheck(checks: seq<Check>, c: Configuration, s: Subject, check: Check)
    requires ChecksSoFar(checks, c, s) && |checks| < |c.commands| && Reports(check, c.commands[|checks|], s)
    ensures ChecksSoFar(checks + [check], c, s)
  {
    hide Reports;
  }

  /** The id of the next log is new. */
  lemma FreshLogId(artifacts: seq<Artifact>, change: Option<Artifact>, checks: seq<Check>,
                   c: Configuration, s: Subject, check: Check)
    requires Manifest(artifacts, change, checks) && ChecksSoFar(checks, c, s)
    requires |checks| < |c.commands| && c.Valid() && check.logId.Some?
    requires change.Some? ==> change.value.id == "changes"
    requires Reports(check, c.commands[|checks|], s)
    ensures forall i :: 0 <= i < |artifacts| ==> artifacts[i].id != check.logId.value
  {
    hide Artifact.Valid, Check.Valid, HasArtifact, Identifier;
    forall i | 0 <= i < |artifacts|
      ensures artifacts[i].id != check.logId.value
    {
      if artifacts[i].kind == APatch {
        assert check.logId.value[0] == 'v' && "changes"[0] == 'c';
      } else {
        var j :| 0 <= j < |checks| && checks[j].logId == Some(artifacts[i].id);
        LogIdInjective(c.commands[j].id, c.commands[|checks|].id);
      }
    }
  }

  lemma AnotherLog(artifacts: seq<Artifact>, change: Option<Artifact>, checks: seq<Check>,
                   check: Check, log: Option<Artifact>)
    requires Manifest(artifacts, change, checks) && Logs(check, log)
    requires log.Some? ==> forall i :: 0 <= i < |artifacts| ==> artifacts[i].id != log.value.id
    ensures Manifest(if log.Some? then artifacts + [log.value] else artifacts, change, checks + [check])
  {
    hide Artifact.Valid, NamesLog, HasArtifact;
    var artifacts' := if log.Some? then artifacts + [log.value] else artifacts;
    var checks' := checks + [check];
    forall i | 0 <= i < |artifacts'| && artifacts'[i].kind != APatch
      ensures artifacts'[i].kind == ALog && NamesLog(checks', artifacts'[i].id)
    {
      NamesMore(checks, check, artifacts'[i].id);
    }
    forall j | 0 <= j < |checks'| && checks'[j].logId.Some?
      ensures HasArtifact(artifacts', checks'[j].logId.value, ALog)
    {
      HasMore(artifacts, log, checks'[j].logId.value);
    }
  }

  lemma NamesMore(checks: seq<Check>, check: Check, id: string)
    ensures NamesLog(checks, id) || check.logId == Some(id) ==> NamesLog(checks + [check], id)
  {
    if NamesLog(checks, id) {
      var j :| 0 <= j < |checks| && checks[j].logId == Some(id);
      assert (checks + [check])[j] == checks[j];
    }
    assert (checks + [check])[|checks|] == check;
  }

  lemma HasMore(artifacts: seq<Artifact>, log: Option<Artifact>, id: string)
    ensures var artifacts' := if log.Some? then artifacts + [log.value] else artifacts;
            HasArtifact(artifacts, id, ALog) || (log.Some? && log.value.id == id && log.value.kind == ALog) ==>
              HasArtifact(artifacts', id, ALog)
  {
    var artifacts' := if log.Some? then artifacts + [log.value] else artifacts;
    if HasArtifact(artifacts, id, ALog) {
      var i :| 0 <= i < |artifacts| && artifacts[i].id == id && artifacts[i].kind == ALog;
      assert artifacts'[i] == artifacts[i];
    }
    if log.Some? {
      assert artifacts'[|artifacts|] == log.value;
    }
  }

  lemma LogIdInjective(a: string, b: string)
    ensures LogId(a) == LogId(b) ==> a == b
  {
    assert LogId(a)[|LOG_PREFIX|..] == a && LogId(b)[|LOG_PREFIX|..] == b;
  }

  lemma SummaryOf(checks: seq<Check>)
    ensures Summary(checks) == Passed <==> checks != [] && forall i :: 0 <= i < |checks| ==> checks[i].status == Passed
    ensures Summary(checks) == NotRun && (forall i :: 0 <= i < |checks| ==> checks[i].status != NotRun) ==> checks == []
  {
    if Summary(checks) == Passed {
      forall i | 0 <= i < |checks|
        ensures checks[i].status == Passed
      {
        assert checks[i].status != Failed && checks[i].status != Unavailable && checks[i].status != NotRun;
      }
    }
  }

  /** What the launcher assembles once its variables have their final values. */
  function ResultOf(j: Job, execution: Execution, reason: Option<string>, p: Option<Patch>, r: Option<Report>,
                    artifacts: seq<Artifact>, checks: seq<Check>, u: RunnerUsage): TaskResult
  {
    TaskResult(if p.Some? then PatchResult else ReportOnly, Other, OpenCode, None, false,
               execution, reason, Summary(checks), Some(j.baseCommit), p, r, artifacts, checks,
               None, None, Some(u))
  }

  function EnvelopeOf(j: Job, r: TaskResult, u: RunnerUsage, code: nat): Envelope {
    Envelope(0, OrZero(u.input), OrZero(u.output), u.cacheRead, j.revision.modelId,
             if code == 0 then GatePass else GateFail, Some(j.revision.id), r)
  }

  /** The evidence of one validation, as far as it does not depend on the tree. */
  ghost predicate Evidence(j: Job, p: Option<Patch>, change: Option<Artifact>, artifacts: seq<Artifact>, checks: seq<Check>) {
    && (p.Some? <==> change.Some?)
    && (p.Some? ==>
          && p.value.Valid() && p.value.artifactId == "changes" && change.value.id == "changes"
          && change.value.kind == APatch && change.value.sha256 == p.value.sha256
          && forall i :: 0 <= i < |p.value.files| ==> Permitted(p.value.files[i].path, Config(j).writePaths))
    && Manifest(artifacts, change, checks)
    && ChecksSoFar(checks, Config(j), SubjectOf(j, p)) && |checks| == |Config(j).commands|
    && Sizes(artifacts) <= Config(j).resources.maxOutputBytes
  }

  lemma EvidenceHolds(j: Job, base: Checkout, now: Checkout, p: Option<Patch>, change: Option<Artifact>,
                      artifacts: seq<Artifact>, checks: seq<Check>)
    requires Describes(base, now, Config(j).writePaths, Config(j).resources.maxOutputBytes, p, change)
    requires Manifest(artifacts, change, checks) && ChecksSoFar(checks, Config(j), SubjectOf(j, p))
    requires |checks| == |Config(j).commands| && Sizes(artifacts) <= Config(j).resources.maxOutputBytes
    ensures Evidence(j, p, change, artifacts, checks)
  {
    hide Manifest, ChecksSoFar, Permitted, IsChangeList;
  }

  /** Cleared evidence: what is emitted when the run failed. */
  predicate Cleared(p: Option<Patch>, artifacts: seq<Artifact>, checks: seq<Check>) {
    p.None? && artifacts == [] && checks == []
  }

  lemma EvidenceIsConsistent(j: Job, p: Option<Patch>, change: Option<Artifact>, artifacts: seq<Artifact>, checks: seq<Check>,
                             execution: Execution, reason: Option<string>, r: Option<Report>, u: RunnerUsage)
    requires JobValid(j) && u.Valid()
    requires Evidence(j, p, change, artifacts, checks) || Cleared(p, artifacts, checks)
    requires execution == ExCompleted ==> r.Some?
    requires execution != ExCompleted ==> reason.Some? && reason.value != ""
    requires r.Some? ==> r.value.evidence == []
    ensures Consistent(ResultOf(j, execution, reason, p, r, artifacts, checks, u))
  {
    hide RelativePath, Identifier, Permitted, Summary;
    var t := ResultOf(j, execution, reason, p, r, artifacts, checks, u);
    assert ProfileFor(Other, OpenCode, None, false) == Some(Profile(CapCustomOpenCode, {ReportOnly, PatchResult}, true));
    if Evidence(j, p, change, artifacts, checks) {
      assert PatchConsistent(t) by {
        if p.Some? {
          assert artifacts[0] == change.value;
        }
      }
      assert ChecksConsistent(t) by {
        forall i | 0 <= i < |checks|
          ensures checks[i].Valid() && Some(j.baseCommit) == Some(checks[i].baseCommit)
        {
          assert Reports(checks[i], Config(j).commands[i], SubjectOf(j, p));
        }
      }
      assert ArtifactsConsistent(t);
    }
  }

  lemma ChecksAreBelonging(j: Job, res: TaskResult)
    requires ChecksSoFar(res.checks, Config(j), SubjectOf(j, res.patch)) || res.checks == []
    requires |res.checks| == |Config(j).commands| || res.checks == []
    requires res.validation == Summary(res.checks)
    ensures ChecksBelong(res, j.revision)
  {
    hide Identifier, Summary;
    SummaryOf(res.checks);
    forall i | 0 <= i < |res.checks|
      ensures res.checks[i].revisionId == j.revision.id && HasCommand(Config(j), res.checks[i].commandId)
    {
      assert Reports(res.checks[i], Config(j).commands[i], SubjectOf(j, res.patch));
    }
    forall k | 0 <= k < |Config(j).commands| && res.validation == Passed
      ensures HasCheck(res, Config(j).commands[k].id)
    {
      assert Reports(res.checks[k], Config(j).commands[k], SubjectOf(j, res.patch));
    }
  }

  lemma PassIsAllowed(j: Job, p: Option<Patch>, change: Option<Artifact>, artifacts: seq<Artifact>, checks: seq<Check>, res: TaskResult)
    requires Evidence(j, p, change, artifacts, checks) && res.checks == checks && res.validation == Summary(checks)
    requires res.execution == ExCompleted && res.task == Other
    requires Summary(checks) != Failed && Summary(checks) != Unavailable
    ensures GateAllowed(res, j.revision, GatePass)
  {
    hide Evidence, Summary;
    PassMeans(j, p, change, artifacts, checks);
    forall k | 0 <= k < |Config(j).commands|
      ensures exists i :: 0 <= i < |checks| && checks[i].commandId == Config(j).commands[k].id && checks[i].status == Passed
    {
      assert checks[k].commandId == Config(j).commands[k].id;
    }
  }

  /** The API accepts what the launcher emits, for every exit code, exactly when no passed check
      reports a duration beyond its command's limit. */
  lemma AcceptedExactlyWithin(j: Job, p: Option<Patch>, change: Option<Artifact>, artifacts: seq<Artifact>, checks: seq<Check>,
                              execution: Execution, reason: Option<string>, r: Option<Report>, u: RunnerUsage,
                              code: nat, t: TextPolicy)
    requires JobValid(j) && u.Valid()
    requires u.provider == j.revision.provider && u.profileVersion == j.revision.runtimeVersion
    requires Evidence(j, p, change, artifacts, checks) || Cleared(p, artifacts, checks)
    requires execution == ExCompleted ==> r.Some? && u.Complete() && Evidence(j, p, change, artifacts, checks)
    requires execution != ExCompleted ==> reason.Some? && reason.value != "" && code != 0
    requires r.Some? ==> r.value.evidence == []
    requires code == 0 ==>
               && Summary(checks) != Failed && Summary(checks) != Unavailable
               && u.Spent() <= Config(j).resources.maxTokens
               && u.completedSteps <= Config(j).resources.maxIterations
               && u.toolCalls <= Config(j).resources.maxIterations && u.attempts <= Config(j).resources.maxAttempts
    ensures var res := ResultOf(j, execution, reason, p, r, artifacts, checks, u);
            Accepted(EnvelopeOf(j, res, u, code), j.revision, t) <==> DurationsWithin(res, Config(j))
  {
    hide Permitted, Summary, DurationsWithin, Consistent, ChecksBelong, GateAllowed, Manifest;
    var res := ResultOf(j, execution, reason, p, r, artifacts, checks, u);
    EvidenceIsConsistent(j, p, change, artifacts, checks, execution, reason, r, u);
    ChecksAreBelonging(j, res);
    if code == 0 {
      PassIsAllowed(j, p, change, artifacts, checks, res);
    } else {
      FailIsAllowed(res, j.revision);
    }
    assert Sizes([]) == 0;
  }

  lemma FailIsAllowed(res: TaskResult, v: Revision)
    ensures GateAllowed(res, v, GateFail)
  {
  }

  lemma PassingSummary(checks: seq<Check>)
    requires Summary(checks) != Failed && Summary(checks) != Unavailable
    requires forall i :: 0 <= i < |checks| ==> checks[i].status != NotRun
    ensures forall i :: 0 <= i < |checks| ==> checks[i].status == Passed
  {
  }

  /** Evidence whose summary blocks nothing: every configured command passed, on that patch. */
  lemma PassMeans(j: Job, p: Option<Patch>, change: Option<Artifact>, artifacts: seq<Artifact>, checks: seq<Check>)
    requires Evidence(j, p, change, artifacts, checks)
    requires Summary(checks) != Failed && Summary(checks) != Unavailable
    ensures |checks| == |Config(j).commands|
    ensures forall i :: 0 <= i < |Config(j).commands| ==>
              && checks[i].commandId == Config(j).commands[i].id
              && checks[i].status == Passed && checks[i].patch == SubjectOf(j, p).patch
              && |Config(j).commands[i].id| <= 64 - |LOG_PREFIX|
  {
    hide Manifest, Permitted, Summary;
    assert forall i :: 0 <= i < |checks| ==> Reports(checks[i], Config(j).commands[i], SubjectOf(j, p));
    PassingSummary(checks);
  }

  /** No run reports a duration beyond the limit of its command. */
  ghost predicate RunsWithin(runs: seq<Run>, commands: seq<Command>) {
    forall i :: 0 <= i < |runs| && i < |commands| && runs[i].launch.Ended? ==>
      runs[i].launch.process.durationMs <= commands[i].maxSeconds * 1000
  }

  /** When every check passed, their durations are within limits exactly when their processes' are. */
  lemma DurationsOfRuns(res: TaskResult, c: Configuration, runs: seq<Run>)
    requires c.Valid() && MadeBy(res.checks, runs) && AllPassed(res.checks) && |runs| == |c.commands|
    requires forall i :: 0 <= i < |runs| ==> res.checks[i].commandId == c.commands[i].id
    ensures DurationsWithin(res, c) <==> RunsWithin(runs, c.commands)
  {
    hide Identifier;
    forall i | 0 <= i < |runs|
      ensures runs[i].launch.Ended? && res.checks[i].durationMs == Some(runs[i].launch.process.durationMs)
    {
      assert Witnessed(res.checks[i], runs[i]) && res.checks[i].status == Passed;
    }
    if DurationsWithin(res, c) {
      forall i | 0 <= i < |runs|
        ensures runs[i].launch.process.durationMs <= c.commands[i].maxSeconds * 1000
      {
        assert res.checks[i].commandId == c.commands[i].id;
      }
    }
  }

  /** A command that passed within its limit by the clock that stops it, but whose reported duration,
      clean-up included, may be longer: its check is a pass, the evidence is sound, and the API accepts
      the passing envelope if and only if the reported duration is within the limit. */
  lemma OverrunIsRejected(j: Job, s: Stream.State, r: Report, ms: int, t: TextPolicy)
    requires JobValid(j) && |Config(j).commands| == 1 && |Config(j).commands[0].id| <= 64 - |LOG_PREFIX|
    requires FromReader(s, j) && s.code == 0 && r.evidence == [] && 0 <= ms <= 1800000
    ensures var cmd := Config(j).commands[0];
            var check := Check(cmd.id, Passed, j.revision.id, j.baseCommit, None, Some(0), Some(ms), Some(LogId(cmd.id)), None);
            var log := Artifact(LogId(cmd.id), ALog, LogId(cmd.id) + ".log", OfBytes([]), 0);
            var res := ResultOf(j, ExCompleted, None, None, Some(r), [log], [check], UsageOf(j, Some(s), 1));
            && Evidence(j, None, None, [log], [check])
            && (Accepted(EnvelopeOf(j, res, UsageOf(j, Some(s), 1), 0), j.revision, t) <==> ms <= cmd.maxSeconds * 1000)
  {
    hide FromReader, RelativePath, Accepted, DurationsWithin;
    var cmd := Config(j).commands[0];
    var check := Check(cmd.id, Passed, j.revision.id, j.baseCommit, None, Some(0), Some(ms), Some(LogId(cmd.id)), None);
    var log := Artifact(LogId(cmd.id), ALog, LogId(cmd.id) + ".log", OfBytes([]), 0);
    var u := UsageOf(j, Some(s), 1);
    OneLog(j, check, log, ms);
    SuccessfulUsage(j, s);
    hide Evidence, Summary, UsageOf, SubjectOf;
    var res := ResultOf(j, ExCompleted, None, None, Some(r), [log], [check], u);
    PassedBlocksNothing([check]);
    AcceptedExactlyWithin(j, None, None, [log], [check], ExCompleted, None, Some(r), u, 0, t);
    OneDuration(res, Config(j), ms);
  }

  lemma OneDuration(res: TaskResult, c: Configuration, ms: int)
    requires |res.checks| == 1 && |c.commands| == 1 && res.checks[0].commandId == c.commands[0].id
    requires res.checks[0].status == Passed && res.checks[0].durationMs == Some(ms)
    ensures DurationsWithin(res, c) <==> ms <= c.commands[0].maxSeconds * 1000
  {
  }

  lemma OneLog(j: Job, check: Check, log: Artifact, ms: int)
    requires JobValid(j) && |Config(j).commands| == 1 && |Config(j).commands[0].id| <= 64 - |LOG_PREFIX| && 0 <= ms <= 1800000
    requires var id := Config(j).commands[0].id;
             && check == Check(id, Passed, j.revision.id, j.baseCommit, None, Some(0), Some(ms), Some(LogId(id)), None)
             && log == Artifact(LogId(id), ALog, LogId(id) + ".log", OfBytes([]), 0)
    ensures Evidence(j, None, None, [log], [check])
  {
    hide RelativePath, Identifier;
    LogArtifact(Config(j).commands[0].id, []);
    assert [log][..0] == [] && Sizes([log]) == Sizes([log][..0]) + 0;
    assert [check][0].logId == Some([log][0].id) && HasArtifact([log], [log][0].id, ALog);
  }

  // ---------------------------------------------------------------- the launcher

  class Launcher {
    const job: Job
    const work: DisposableWorkspace
    var patch: Option<Patch>
    var artifacts: seq<Artifact>
    var checks: seq<Check>
    var report: Option<Report>
    var stream: Option<Stream.State>
    var attempts: nat
    var status: Execution
    var reason: Option<string>
    var code: nat
    ghost var change: Option<Artifact>
    ghost var captured: Checkout   // the files the patch was taken from

    ghost predicate Valid() {
      && JobValid(job) && work.Valid() && work.writePaths == Config(job).writePaths
      && work.maxOutputBytes == Config(job).resources.maxOutputBytes
    }

    /** A patch was taken from files that inspection cannot tell from those there are now. */
    ghost predicate OnTree(p: Option<Patch>)
      reads this`captured, this`change, work`tree
    {
      && Describes(work.base, captured, work.writePaths, work.maxOutputBytes, p, change)
      && Listed(captured) == Listed(Contents(work.tree))
    }

    /** The launcher's evidence, and that it is about the tree as it is now. */
    ghost predicate Current()
      reads this, work
    {
      OnTree(patch) && Evidence(job, patch, change, artifacts, checks)
    }

    /** The checks are those of a plan; when its commands wrote nothing the patch was taken from the very
        files there are now. */
    ghost predicate MadeFrom(plan: Plan)
      reads this`checks, this`captured, work`tree
    {
      MadeBy(checks, plan.runs) && (LeaveAlone(plan.runs) ==> captured == Contents(work.tree))
    }

    /** The report is what was read from the answer, and the checks are those of the last validation. */
    ghost predicate FromScript(sc: Script)
      reads this`report, this`checks, this`captured, work`tree
    {
      MadeFrom(sc.last) && ReportRead(sc.reading, report)
    }

    /** The checks have the verdicts of the last validation's runs, on the tree the session left behind. */
    ghost predicate OfLast(sc: Script, tree: Tree)
      reads this`checks, this`artifacts
    {
      |checks| == |sc.last.runs| && Judged(checks, artifacts, sc.last.runs, LastRoom(sc, tree, work))
    }

    constructor (job: Job, work: DisposableWorkspace)
      requires JobValid(job) && work.Valid() && work.writePaths == Config(job).writePaths
      requires work.maxOutputBytes == Config(job).resources.maxOutputBytes
      ensures this.job == job && this.work == work && Valid()
      ensures Cleared(patch, artifacts, checks) && report.None? && stream.None? && attempts == 0
      ensures status == ExCompleted && reason.None? && code == 0
    {
      this.job, this.work := job, work;
      patch, artifacts, checks, change, captured := None, [], [], None, map[];
      report, stream, attempts := None, None, 0;
      status, reason, code := ExCompleted, None, 0;
    }

    /** One command, if the clock leaves time for it. */
    method RunOne(run: Run, cmd: Command, subject: Subject, limit: nat)
      returns (c: Option<Check>, log: Option<Artifact>, fault: Option<Fault>)
      requires Identifier(cmd.id) && subject.revisionId > 0 && limit <= 4194304
      modifies work
      ensures fault.None? ==>
                && c.Some? && Reports(c.value, cmd, subject) && Logs(c.value, log) && Witnessed(c.value, run)
                && (log.Some? ==> 0 <= log.value.size <= limit) && (run.outOfTime ==> c.value.status == Unavailable)
      ensures fault.None? <==> CanReport(run, cmd, limit)
      ensures fault.Some? ==> fault == Some(Boundary)
      ensures fault.None? ==>
                AsRun(c.value, if log.Some? then [log.value] else [], run, limit) && (if log.Some? then log.value.size else 0) == LogSize(run, limit)
      ensures work.tree == if !run.outOfTime && run.after.Some? then run.after.value else old(work.tree)
    {
      hide Identifier, Witnessed, Fails, Passes, Recordable, Check.Valid, RelativePath;
      if run.outOfTime {
        OutOfTime(cmd, subject, run);
        return Some(Unexecuted(cmd, subject, OUT_OF_TIME, None)), None, None;
      }
      c, log, fault := Execute(run, cmd, subject, limit);
      if log.Some? {
        assert [log.value][0] == log.value;
      }
      if run.after.Some? {
        work.Rewrite(run.after.value);
      }
      if fault.None? && !run.cleanedUp {
        work.preserve := true;
      }
    }

    /** The checks of one validation, in configuration order. */
    method RunChecks(runs: seq<Run>) returns (fault: Option<Fault>)
      requires Valid() && |runs| == |Config(job).commands|
      requires Manifest(artifacts, change, []) && 0 <= Sizes(artifacts) <= work.maxOutputBytes
      requires change.Some? ==> change.value.id == "changes"
      modifies this`artifacts, this`checks, work
      ensures Valid()
      ensures fault.None? ==>
                && Manifest(artifacts, change, checks) && Sizes(artifacts) <= work.maxOutputBytes
                && |checks| == |runs| && ChecksSoFar(checks, Config(job), SubjectOf(job, patch)) && MadeBy(checks, runs)
                && Judged(checks, artifacts, runs, work.maxOutputBytes - Sizes(old(artifacts)))
                && work.tree == TreeThrough(runs, |runs|, old(work.tree))
      ensures fault.None? <==> AllReport(runs, Config(job).commands, work.maxOutputBytes - Sizes(old(artifacts)))
      ensures fault.Some? ==> fault == Some(Boundary)
      ensures LeaveAlone(runs) ==> work.tree == old(work.tree)
    {
      hide Manifest, Summary, Identifier, RelativePath, Witnessed, Verdict, LogSize, CanReport, Reports, Logs, ChecksSoFar,
           Artifact.Valid, RoomAt, TreeThrough, Judged, AsRun, MadeBy, ReportSoFar, AllReport, Sizes;
      ghost var room := work.maxOutputBytes - Sizes(artifacts);
      ghost var tree := work.tree;
      checks, fault := [], None;
      var subject := SubjectOf(job, patch);
      NoChecks(subject, runs, room, tree);
      var i := 0;
      while i < |runs|
        invariant i == |checks| <= |runs| && Valid()
        invariant Manifest(artifacts, change, checks) && ChecksSoFar(checks, Config(job), subject)
        invariant 0 <= Sizes(artifacts) <= work.maxOutputBytes
        invariant work.maxOutputBytes - Sizes(artifacts) == RoomAt(runs, i, room) && Judged(checks, artifacts, runs, room)
        invariant ReportSoFar(runs, Config(job).commands, i, room)
        invariant work.tree == TreeThrough(runs, i, tree) && (LeaveAlone(runs) ==> work.tree == tree)
      {
        var c, log, refused := RunOne(runs[i], Config(job).commands[i], subject,
                                      Max(0, work.maxOutputBytes - Sizes(artifacts)));
        ReportMore(runs, Config(job).commands, i, room);
        if refused.Some? {
          return refused;
        }
        OneMoreRun(checks, artifacts, c.value, log, runs, room, tree);
        ManifestGrows(artifacts, change, checks, Config(job), subject, c.value, log);
        checks := checks + [c.value];
        if log.Some? {
          MoreSize(artifacts, log.value);
          artifacts := artifacts + [log.value];
        }
        i := i + 1;
      }
      AllReported(runs, room);
      JudgedMeans(checks, artifacts, runs, room);
    }

    lemma MoreSize(artifacts: seq<Artifact>, log: Artifact)
      ensures Sizes(artifacts + [log]) == Sizes(artifacts) + log.size
    {
      assert (artifacts + [log])[..|artifacts|] == artifacts;
    }

    lemma AllReported(runs: seq<Run>, room: nat)
      requires |runs| == |Config(job).commands| && ReportSoFar(runs, Config(job).commands, |runs|, room)
      ensures AllReport(runs, Config(job).commands, room)
    {
      hide CanReport, RoomAt;
    }

    lemma NoChecks(s: Subject, runs: seq<Run>, room: nat, tree: Tree)
      ensures |runs| == |Config(job).commands| ==> ReportSoFar(runs, Config(job).commands, 0, room)
      ensures ChecksSoFar([], Config(job), s) && Judged([], artifacts, runs, room)
      ensures RoomAt(runs, 0, room) == room && TreeThrough(runs, 0, tree) == tree
    {
    }

    lemma OneMoreRun(checks: seq<Check>, artifacts: seq<Artifact>, c: Check, log: Option<Artifact>, runs: seq<Run>, room: nat,
                     tree: Tree)
      requires |checks| < |runs| && Judged(checks, artifacts, runs, room)
      requires AsRun(c, if log.Some? then [log.value] else [], runs[|checks|], RoomAt(runs, |checks|, room))
      ensures Judged(checks + [c], if log.Some? then artifacts + [log.value] else artifacts, runs, room)
      ensures var i := |checks|;
              && RoomAt(runs, i + 1, room) == RoomAt(runs, i, room) - LogSize(runs[i], RoomAt(runs, i, room))
              && TreeThrough(runs, i + 1, tree) == (if !runs[i].outOfTime && runs[i].after.Some? then runs[i].after.value
                                                    else TreeThrough(runs, i, tree))
    {
      hide AsRun, LogSize;
      forall i | 0 <= i < |checks|
        ensures AsRun(checks[i], if log.Some? then artifacts + [log.value] else artifacts, runs[i], RoomAt(runs, i, room))
      {
        MoreArtifacts(checks[i], artifacts, log, runs[i], RoomAt(runs, i, room));
      }
      NewArtifact(c, artifacts, log, runs[|checks|], RoomAt(runs, |checks|, room));
    }

    /** A command the clock left no time for is reported as unavailable. */
    lemma OutOfTime(cmd: Command, s: Subject, r: Run)
      requires Identifier(cmd.id) && s.revisionId > 0 && r.outOfTime
      ensures var c := Unexecuted(cmd, s, OUT_OF_TIME, None);
              Reports(c, cmd, s) && Logs(c, None) && Witnessed(c, r)
    {
      hide Identifier;
    }

    /** One validation of the tree as it is: afterwards the evidence is about that tree, even if
        an execution rewrote files while it ran. */
    method Validate(plan: Plan) returns (fault: Option<Fault>)
      requires Valid() && PlanFits(plan, job)
      modifies this`patch, this`artifacts, this`checks, this`change, this`captured, work
      ensures Valid()
      ensures fault.None? ==> Current() && MadeFrom(plan)
      ensures fault.None? <==> CanValidate(plan, old(work.tree), job, work)
      ensures Capturable(work.base, old(work.tree), work.writePaths, work.maxOutputBytes, plan.git) ==>
                !AllReport(plan.runs, Config(job).commands, RoomFor(plan, old(work.tree), work)) ==> fault == Some(Boundary)
      ensures fault.None? ==>
                && |checks| == |plan.runs| && Judged(checks, artifacts, plan.runs, RoomFor(plan, old(work.tree), work))
                && work.tree == TreeThrough(plan.runs, |plan.runs|, old(work.tree))
      ensures LeaveAlone(plan.runs) ==> work.tree == old(work.tree)
    {
      hide Manifest, ChecksSoFar, Describes, Evidence, Inspectable, AllReport, Judged, MadeBy, LeaveAlone, Capturable, TreeThrough,
           Sizes, Listed, Contents, AllPermitted, ChangedNames, Configuration.Valid;
      var p, a, refused := work.Capture(plan.git);
      if refused.Some? {
        return refused;
      }
      patch, change, captured := p, a, Contents(work.tree);
      artifacts := if a.Some? then [a.value] else [];
      FirstArtifact(captured, p, a);
      var before := InspectTree(work.tree, work.maxOutputBytes, work.maxOutputBytes);
      fault := FaultOf(before);
      if fault.None? {
        fault := RunChecks(plan.runs);
      }
      if fault.None? {
        var after := InspectTree(work.tree, work.maxOutputBytes, work.maxOutputBytes);
        fault := Objection(before, after, Sizes(artifacts) > work.maxOutputBytes);
      }
      if fault.None? {
        EvidenceHolds(job, work.base, captured, patch, change, artifacts, checks);
      }
    }

    function FaultOf(r: Result<Listing, Fault>): Option<Fault> {
      if r.Err? then Some(r.error) else None
    }

    /** What the inspection after the checks finds wrong, if anything. */
    function Objection(before: Result<Listing, Fault>, after: Result<Listing, Fault>, tooBig: bool): Option<Fault> {
      if after.Err? then Some(after.error)
      else if after != before then Some(Misconfigured)
      else if tooBig then Some(Exceeded(false))
      else None
    }

    lemma FirstArtifact(now: Checkout, p: Option<Patch>, a: Option<Artifact>)
      requires Describes(work.base, now, work.writePaths, work.maxOutputBytes, p, a)
      ensures var artifacts := if a.Some? then [a.value] else [];
              && Manifest(artifacts, a, []) && 0 <= Sizes(artifacts) <= work.maxOutputBytes
              && Sizes(artifacts) == if a.Some? then a.value.size else 0
      ensures a.None? <==> Listed(now) == Listed(work.base)
      ensures a.Some? ==> a.value.id == "changes"
    {
      hide RelativePath, IsChangeList;
      ManifestStarts(a);
      if a.Some? {
        assert Sizes([a.value]) == Sizes([a.value][..0]) + a.value.size;
      }
    }

    /** The editing session: a validation that cannot be completed fails the stream. */
    method Edit(session: seq<Action>, ending: Ending) returns (fault: Option<Fault>)
      requires Valid() && (forall i :: 0 <= i < |session| && session[i].Ask? ==> PlanFits(session[i].plan, job))
      requires ending.Streamed? ==> FromReader(ending.s, job)
      modifies this`patch, this`artifacts, this`checks, this`change, this`captured, this`stream, work
      ensures Valid()
      ensures fault.Some? ==> stream.None?
      ensures fault.None? ==> ending.Streamed? && stream.Some? && FromReader(stream.value, job)
      ensures match ending
              case Streamed(_) => fault.None?
              case Threw(f) => fault == Some(f)
              case Uncleaned => fault == Some(Misconfigured)
      ensures ending.Streamed? ==> AfterSession(ending.s, stream.value)
      ensures ending.Streamed? ==>
                if SessionHolds(session, old(work.tree), job, work)
                then stream == Some(ending.s) && work.tree == TreeAfter(session, old(work.tree))
                else stream.value.code != 0
    {
      hide Current, MadeFrom, CanValidate, Judged, LeaveAlone, TreeThrough;
      ghost var holds := SessionHolds(session, work.tree, job, work);
      var broken: Option<Fault> := None;
      var i := 0;
      while i < |session| && broken.None?
        invariant i <= |session| && Valid()
        invariant broken.None? ==>
                    && (SessionHolds(session[i..], work.tree, job, work) <==> holds)
                    && TreeAfter(session[i..], work.tree) == TreeAfter(session, old(work.tree))
        invariant broken.Some? ==> !holds
        decreases |session| - i
      {
        assert session[i..][0] == session[i] && session[i..][1..] == session[i + 1..];
        match session[i] {
          case Write(tree) => work.Rewrite(tree);
          case Ask(plan) =>
            broken := Validate(plan);
        }
        i := i + 1;
      }
      if ending.Threw? {
        stream := None;
        return Some(ending.fault);
      }
      if ending.Uncleaned? {
        work.preserve, stream := true, None;
        return Some(Misconfigured);
      }
      var s := ending.s;
      if broken.Some? {
        FailedStaysPlausible(s, ExitCode(Fault(broken.value)), Stream.BoundaryFailed);
        s := Stream.Fail(s, ExitCode(Fault(broken.value)), Stream.BoundaryFailed);
      }
      stream, fault := Some(s), None;
    }

    lemma FailedStaysPlausible(s: Stream.State, code: Stream.ErrorCode, why: Stream.Reason)
      requires FromReader(s, job)
      ensures FromReader(Stream.Fail(s, code, why), job)
    {
      var lim: Stream.Limits :| lim.maxTokens == StreamTokens(job) && lim.maxSteps == lim.maxTools == StreamSteps(job)
                                && StreamTheorems.Plausible(s, lim);
      assert StreamTheorems.Plausible(Stream.Fail(s, code, why), lim);
    }

    ghost predicate Fresh()
      reads this
    {
      && Cleared(patch, artifacts, checks) && report.None? && stream.None? && attempts == 0
      && status == ExCompleted && reason.None? && code == 0
    }

    /** Nothing of a failed run is kept except why it failed. */
    ghost predicate FailedClean()
      reads this
    {
      Cleared(patch, artifacts, checks) && report.None? && reason.Some? && reason.value != "" && code != 0
    }

    /** A completed run holds a report and evidence about the final tree. */
    ghost predicate CompletedOn()
      reads this, work
    {
      && Current() && report.Some? && reason.None? && stream.Some? && stream.value.code == 0
      && (code == 0 <==> Summary(checks) != Failed && Summary(checks) != Unavailable)
    }

    /** The variables when the launcher assembles its result. */
    ghost predicate Settled()
      reads this, work
    {
      && Valid() && 0 <= attempts <= 1
      && (stream.Some? ==> FromReader(stream.value, job) && attempts == 1)
      && (report.Some? ==> report.value.evidence == [])
      && (if status == ExCompleted then CompletedOn() else FailedClean())
    }

    lemma LastFits(sc: Script)
      requires ScriptFits(sc, job)
      ensures PlanFits(sc.last, job)
    {
    }

    /** After a successful stream: read the report, and validate the tree the editor left behind. */
    method Conclude(sc: Script) returns (raised: Option<Raised>)
      requires Valid() && ScriptFits(sc, job) && stream.Some? && stream.value.code == 0 && code == 0 && reason.None?
      modifies this`report, this`code, this`patch, this`artifacts, this`checks, this`change, this`captured, work
      ensures Valid() && (raised.None? ==> CompletedOn() && report.value.evidence == [] && FromScript(sc) && !sc.tooLate && code <= 1)
      ensures match sc.reading
              case Refusal => raised == Some(RefusedTask)
              case Unparseable => raised == Some(BadReport)
              case Understood(_) => raised.None? || raised.value.Fault?
      ensures raised.None? <==> sc.reading.Understood? && !sc.tooLate && CanValidate(sc.last, old(work.tree), job, work)
      ensures raised.None? ==> |checks| == |sc.last.runs| && Judged(checks, artifacts, sc.last.runs, RoomFor(sc.last, old(work.tree), work))
    {
      hide FromReader, Evidence, Summary, Valid, ScriptFits, MadeBy, CanValidate, Judged, OnTree, LeaveAlone, TreeThrough;
      assert PlanFits(sc.last, job) by {
        LastFits(sc);
      }
      match sc.reading {
        case Refusal => return Some(RefusedTask);
        case Unparseable => return Some(BadReport);
        case Understood(r) => report := Some(r.(cause := None, noPatchReason := None, evidence := []));
      }
      var fault := Validate(sc.last);
      if fault.Some? {
        return Some(Fault(fault.value));
      }
      if Summary(checks) == Failed || Summary(checks) == Unavailable {
        code := 1;
      }
      raised := if sc.tooLate then Some(Fault(Exceeded(true))) else None;
    }

    /** What is done inside the disposable workspace; `raised` is what leaves it. */
    method Work(sc: Script) returns (raised: Option<Raised>)
      requires Valid() && ScriptFits(sc, job) && Fresh()
      modifies this, work
      ensures raised.None? ==> Settled() && (status == ExCompleted ==> FromScript(sc))
      ensures Valid() && 0 <= attempts <= 1
      ensures stream.Some? ==> FromReader(stream.value, job) && attempts == 1
      ensures RaisedBy(sc, stream, raised, status, code)
      ensures raised.None? && status == ExCompleted <==> CanComplete(sc, old(work.tree), job, work)
      ensures raised.None? && status == ExCompleted ==> OfLast(sc, old(work.tree))
    {
      hide FromReader, OnTree, Evidence, Summary, MadeBy, CanValidate, Judged, SessionHolds, TreeAfter, LeaveAlone;
      raised := None;
      if sc.setup.Some? {
        return Some(Fault(sc.setup.value));
      }
      attempts := 1;
      var fault := Edit(sc.session, sc.ending);
      if fault.Some? {
        return Some(Fault(fault.value));
      }
      if stream.value.code != 0 {
        code, reason := stream.value.code, Some(StreamMessage(stream.value.reason));
        patch, artifacts, checks := None, [], [];
        status := if stream.value.timedOut then ExTimedOut else ExFailed;
      } else {
        raised := Conclude(sc);
      }
    }

    /** The `try` block: on leaving the workspace its scratch directory is removed, and a removal that
        fails replaces whatever was raised before. */
    method Attempt(sc: Script) returns (raised: Option<Raised>)
      requires Valid() && ScriptFits(sc, job) && Fresh()
      modifies this, work
      ensures raised.None? ==> Settled() && (status == ExCompleted ==> FromScript(sc))
      ensures Valid() && 0 <= attempts <= 1
      ensures stream.Some? ==> FromReader(stream.value, job) && attempts == 1
      ensures if !work.preserve && !sc.scratchRemoved then raised == Some(Fault(Boundary))
              else RaisedBy(sc, stream, raised, status, code)
      ensures raised.None? && status == ExCompleted <==>
                (work.preserve || sc.scratchRemoved) && CanComplete(sc, old(work.tree), job, work)
      ensures raised.None? && status == ExCompleted ==> OfLast(sc, old(work.tree))
    {
      hide FromReader, FromScript, RaisedBy, CanComplete, OfLast, Valid, ScriptFits, Settled;
      raised := Work(sc);
      if !work.preserve && !sc.scratchRemoved {
        raised := Some(Fault(Boundary));
      }
    }

    /** The handlers: a failure clears every piece of evidence. */
    method Settle(sc: Script)
      requires Valid() && ScriptFits(sc, job) && Fresh()
      modifies this, work
      ensures Settled() && (status == ExCompleted ==> FromScript(sc))
      ensures EndsAs(sc, work.preserve, stream, status, code)
      ensures status == ExCompleted <==> (work.preserve || sc.scratchRemoved) && CanComplete(sc, old(work.tree), job, work)
      ensures status == ExCompleted ==> OfLast(sc, old(work.tree))
    {
      hide FromReader, CompletedOn, Valid, ScriptFits, FromScript, CanComplete, OfLast, RaisedBy, EndsAs, StatusOf, Message, ExitCode;
      var raised := Attempt(sc);
      RaisedEnds(sc, work.preserve, stream, raised, status, code);
      if raised.Some? {
        FailsWith(raised.value);
      }
      if raised.Some? {
        status, reason, code := StatusOf(raised.value), Some(Message(raised.value)), ExitCode(raised.value);
        patch, artifacts, checks, report := None, [], [], None;
      }
    }

    /** What a passing gate stands for. */
    ghost predicate PassesOnFinalTree(r: TaskResult)
      reads this, work
    {
      && r.execution == ExCompleted && r.report.Some? && OnTree(r.patch)
      && |r.checks| == |Config(job).commands|
      && forall i :: 0 <= i < |Config(job).commands| ==>
           && r.checks[i].commandId == Config(job).commands[i].id
           && r.checks[i].status == Passed && r.checks[i].patch == SubjectOf(job, r.patch).patch
           // a longer command id leaves no room for the log's identifier, so it can never pass
           && |Config(job).commands[i].id| <= 64 - |LOG_PREFIX|
    }

    lemma SettledEnvelope(u: RunnerUsage, t: TextPolicy)
      requires Settled() && u == UsageOf(job, stream, attempts) && u.Valid()
      requires status == ExCompleted ==> u.Complete()
      ensures var r := ResultOf(job, status, reason, patch, report, artifacts, checks, u);
              Accepted(EnvelopeOf(job, r, u, code), job.revision, t) <==> DurationsWithin(r, Config(job))
      ensures code == 0 ==> PassesOnFinalTree(ResultOf(job, status, reason, patch, report, artifacts, checks, u))
    {
      hide FromReader, Summary, Accepted, DurationsWithin, Describes, Evidence;
      if status == ExCompleted {
        SuccessfulUsage(job, stream.value);
      }
      AcceptedExactlyWithin(job, patch, change, artifacts, checks, status, reason, report, u, code, t);
      if code == 0 {
        PassMeans(job, patch, change, artifacts, checks);
      }
    }

    /** The final guard against incomplete usage: evidence is kept, but the run has failed. */
    lemma DowngradedEnvelope(u: RunnerUsage, why: string, t: TextPolicy)
      requires Settled() && u == UsageOf(job, stream, attempts) && u.Valid()
      requires status == ExCompleted && why != ""
      ensures var r := ResultOf(job, ExFailed, Some(why), patch, report, artifacts, checks, u);
              Accepted(EnvelopeOf(job, r, u, 4), job.revision, t) <==> DurationsWithin(r, Config(job))
    {
      hide FromReader, Summary, Accepted, DurationsWithin, Describes, Evidence;
      AcceptedExactlyWithin(job, patch, change, artifacts, checks, ExFailed, Some(why), report, u, 4, t);
    }

    lemma PassedRuns(res: TaskResult, runs: seq<Run>)
      requires Valid() && PassesOnFinalTree(res) && MadeBy(res.checks, runs)
      ensures DurationsWithin(res, Config(job)) <==> RunsWithin(runs, Config(job).commands)
    {
      hide Witnessed, DurationsWithin, RunsWithin;
      DurationsOfRuns(res, Config(job), runs);
    }

    /** A completed run had a successful stream and passes exactly when all its runs were judged passes; no
        other run passes. */
    lemma CompletedPasses(sc: Script, tree: Tree)
      requires Settled() && (status == ExCompleted ==> OfLast(sc, tree))
      ensures status == ExCompleted ==> stream.Some? && stream.value.code == 0
      ensures code == 0 <==> status == ExCompleted && AllPass(sc.last.runs, LastRoom(sc, tree, work))
    {
      if status != ExCompleted {
        return;
      }
      hide FromReader, OnTree, Manifest, Summary, Judged, AllPass, MadeBy, LastRoom, Valid;
      forall i | 0 <= i < |checks|
        ensures checks[i].status != NotRun
      {
        assert Reports(checks[i], Config(job).commands[i], SubjectOf(job, patch));
      }
      if code == 0 {
        PassingSummary(checks);
      }
      if AllPassed(checks) {
        PassedBlocksNothing(checks);
      }
      JudgedMeans(checks, artifacts, sc.last.runs, LastRoom(sc, tree, work));
    }

    /** `run_opencode` for a custom task: None when the usage record cannot be constructed. The
        tree at the end is the one the destroyed editor left behind. */
    method RunTask(sc: Script, ghost t: TextPolicy) returns (out: Option<Envelope>)
      requires Valid() && ScriptFits(sc, job) && Fresh()
      modifies this, work
      ensures out.None? <==> Oversized(stream)
      // every emitted envelope is accepted, unless a passed check overran its own limit
      ensures out.Some? ==> (Accepted(out.value, job.revision, t) <==> DurationsWithin(out.value.result, Config(job)))
      // evidence is about the final tree, and only about it: it was taken from files that inspection
      // cannot tell from those, and from those very files when the commands wrote nothing
      ensures out.Some? && !Cleared(out.value.result.patch, out.value.result.artifacts, out.value.result.checks) ==>
                && OnTree(out.value.result.patch)
                && (LeaveAlone(sc.last.runs) ==> work.Captures(out.value.result.patch, change))
      // ... and then it says exactly what would be recorded, if and only if no file there is stray
      ensures out.Some? && !Cleared(out.value.result.patch, out.value.result.artifacts, out.value.result.checks) ==>
                LeaveAlone(sc.last.runs) ==>
                  var now := Contents(work.tree);
                  Exactly(work.base, now, work.writePaths, out.value.result.patch) <==> Owned(work.base, now)
      // a pass means: completed, and every configured command passed on the final tree
      ensures out.Some? && out.value.gate == GatePass ==> PassesOnFinalTree(out.value.result)
      // the checks of a completed run are those of the last validation, with their own processes' figures
      ensures out.Some? && out.value.result.execution == ExCompleted ==> MadeBy(out.value.result.checks, sc.last.runs)
      // ... and it carries the report that was read
      ensures out.Some? && out.value.result.execution == ExCompleted ==> ReportRead(sc.reading, out.value.result.report)
      // it tells what was counted, on which commit, and how the run ended
      ensures out.Some? ==> Tells(out.value, stream, attempts) && out.value.result.baseCommit == Some(job.baseCommit)
      ensures out.Some? ==>
                EndsAs(sc, work.preserve, stream, out.value.result.execution, code) && (out.value.gate == GatePass <==> code == 0)
      // a run completes exactly when nothing stops it, every validation that is asked for can be completed,
      // and so can that of the tree which is left
      ensures out.Some? && out.value.result.execution == ExCompleted <==>
                (work.preserve || sc.scratchRemoved) && CanComplete(sc, old(work.tree), job, work)
      // ... its checks then have the verdicts of the last runs, and it passes exactly when these are passes
      ensures out.Some? && out.value.result.execution == ExCompleted ==>
                && |out.value.result.checks| == |sc.last.runs|
                && Judged(out.value.result.checks, out.value.result.artifacts, sc.last.runs, LastRoom(sc, old(work.tree), work))
      ensures out.Some? && out.value.gate == GatePass <==>
                && (work.preserve || sc.scratchRemoved) && CanComplete(sc, old(work.tree), job, work)
                && AllPass(sc.last.runs, LastRoom(sc, old(work.tree), work))
      // a pass is accepted exactly when the durations its processes report are within limits
      ensures out.Some? && out.value.gate == GatePass ==>
                (Accepted(out.value, job.revision, t) <==> RunsWithin(sc.last.runs, Config(job).commands))
    {
      hide RunsWithin, MadeBy, CanComplete, Judged, AllPass, LastRoom, ReportRead, EndsAs, Tells, Exactly, Owned, LeaveAlone,
           OnTree, Listed, FromReader, Accepted, DurationsWithin, PassesOnFinalTree, Describes, Evidence, Oversized, Summary,
           Settled, Valid, ScriptFits;
      ghost var tree := work.tree;
      Settle(sc);
      CompletedPasses(sc, tree);
      out := Emit(status == ExCompleted, t);
      if out.Some? && code == 0 {
        PassedRuns(out.value.result, sc.last.runs);
      }
      FinalTree(patch);
    }

    /** The envelope of settled variables; a completed run without complete usage has failed. `certain`:
        the stream is known to have succeeded. */
    method Emit(ghost certain: bool, ghost t: TextPolicy) returns (out: Option<Envelope>)
      requires Settled() && (certain ==> stream.Some? && stream.value.code == 0)
      modifies this`status, this`reason, this`code
      ensures out.None? <==> Oversized(stream)
      ensures (status == old(status) && code == old(code)) || (old(status) == ExCompleted && status == ExFailed && code == 4)
      ensures certain && old(status) == ExCompleted ==> out.Some? && status == ExCompleted
      ensures out.Some? ==>
                var r := out.value.result;
                && r.execution == status && r.patch == patch && r.report == report
                && r.artifacts == artifacts && r.checks == checks && r.baseCommit == Some(job.baseCommit)
                && (out.value.gate == GatePass <==> code == 0)
                && (Accepted(out.value, job.revision, t) <==> DurationsWithin(r, Config(job)))
                && Tells(out.value, stream, attempts) && (code == 0 ==> PassesOnFinalTree(r))
      ensures !Cleared(patch, artifacts, checks) ==> old(status) == ExCompleted && OnTree(patch)
    {
      hide FromReader, Accepted, DurationsWithin, PassesOnFinalTree, Describes, Evidence, Oversized, Summary, Tells, OnTree;
      var usage := UsageOf(job, stream, attempts);
      UsageConstructible(job, stream, attempts);
      if certain {
        SuccessfulUsage(job, stream.value);
      }
      if !usage.Valid() {
        return None;
      }
      if status == ExCompleted && !usage.Complete() {
        DowngradedEnvelope(usage, "Runner usage is incomplete", t);
        status, reason, code := ExFailed, Some("Runner usage is incomplete"), 4;
      } else {
        SettledEnvelope(usage, t);
      }
      var result := ResultOf(job, status, reason, patch, report, artifacts, checks, usage);
      out := Some(EnvelopeOf(job, result, usage, code));
      EnvelopeTells(job, stream, attempts, code, status, reason, patch, report, artifacts, checks);
    }

    /** Evidence taken from the very files there are says exactly what would be recorded, unless one of
        them is stray. */
    lemma FinalTree(p: Option<Patch>)
      requires Valid()
      ensures OnTree(p) && captured == Contents(work.tree) ==>
                && work.Captures(p, change)
                && (Exactly(work.base, Contents(work.tree), work.writePaths, p) <==> Owned(work.base, Contents(work.tree)))
    {
      hide Describes, Exactly, Owned;
      if OnTree(p) && captured == Contents(work.tree) {
        EvidenceReproduces(work.base, captured, work.writePaths, work.maxOutputBytes, p, change);
      }
    }
  }
}
