/** One configured check in its own container: how the outcome of a process becomes a
    validation check and its log artifact. */
module ValidationExecutor {
  import opened Prelude
  import opened TaskContracts
  import opened Workspace

  /** A process as the bounded runner reports it; `kept` is how much it had collected when it
      crossed its byte limit. */
  datatype Process = Process(code: int, reason: Option<string>, durationMs: int, output: seq<Byte>, kept: nat)

  datatype Launch = EngineMissing | Ended(process: Process)

  /** What happens when one command is checked. The tree is mounted read-only, so `after` is None; a
      tree there stands for whatever an executor without that mount might leave behind. */
  datatype Run = Run(outOfTime: bool, launch: Launch, cleanedUp: bool, logWritten: bool, after: Option<Tree>)

  /** The identity every check of one validation carries. */
  datatype Subject = Subject(revisionId: int, baseCommit: string, patch: Option<Digest>)

  function Bound(p: Process, limit: nat): Process {
    if |p.output| <= limit then p
    else p.(code := 4, reason := Some("output byte limit exceeded"), output := p.output[..Min(p.kept, limit)])
  }

  /** Output within the limit is kept whole; beyond it, what was collected up to the limit is kept and the
      process counts as stopped. */
  lemma BoundMeans(p: Process, limit: nat)
    ensures var q := Bound(p, limit);
            if |p.output| <= limit then q == p
            else q.code == 4 && q.reason.Some? && q.durationMs == p.durationMs
                 && q.output <= p.output && |q.output| == (if p.kept < limit then p.kept else limit)
  {
  }

  /** Why an executed process does not count as an execution, if it does not. */
  function Excuse(r: Run, p: Process): Option<string> {
    if !r.cleanedUp then Some("Validation cleanup could not be confirmed")
    else if p.reason.Some? then p.reason
    else if p.code == 125 || p.code == 126 || p.code == 127
      then Some("Validation image, dependency or executable unavailable")
    else None
  }

  const LOG_PREFIX := "validation-"

  function LogId(commandId: string): string {
    LOG_PREFIX + commandId
  }

  /** What a check says about its command and subject. */
  predicate Reports(c: Check, cmd: Command, s: Subject) {
    && c.Valid() && c.commandId == cmd.id && c.revisionId == s.revisionId
    && c.baseCommit == s.baseCommit && c.patch == s.patch && c.status != NotRun
    && (c.logId.Some? ==> c.logId.value == LogId(cmd.id))
  }

  /** The log of a check: present exactly when the check names it. */
  predicate Logs(c: Check, a: Option<Artifact>) {
    && (a.Some? <==> c.logId.Some?)
    && (a.Some? ==> a.value.Valid() && a.value.kind == ALog && a.value.id == c.logId.value)
  }

  predicate Passes(r: Run, limit: nat) {
    && r.launch.Ended? && r.cleanedUp && |r.launch.process.output| <= limit
    && r.launch.process.reason.None? && r.launch.process.code == 0
  }

  predicate Fails(r: Run, limit: nat) {
    && r.launch.Ended? && r.cleanedUp && |r.launch.process.output| <= limit
    && r.launch.process.reason.None? && r.launch.process.code !in {0, 125, 126, 127}
  }

  /** An executed check reports its own process: exit status and duration are the runner's. */
  predicate Witnessed(c: Check, r: Run) {
    c.status == Passed || c.status == Failed ==>
      && r.launch.Ended? && r.cleanedUp
      && c.exitCode == Some(r.launch.process.code) && c.durationMs == Some(r.launch.process.durationMs)
  }

  /** The log of an ended process holds its output, as far as it was kept. */
  predicate LogsOutput(a: Option<Artifact>, r: Run, limit: nat) {
    && (a.Some? <==> r.launch.Ended?)
    && (a.Some? ==> a.value.sha256 == OfBytes(Bound(r.launch.process, limit).output)
                    && a.value.size == |Bound(r.launch.process, limit).output|)
  }

  /** The reason given for a check that was not executed: the clean-up's failure before any other, then the
      engine's, the output's, the runner's own, and last an exit status that means there was nothing to run. */
  function WhyUnavailable(r: Run, limit: nat): string {
    if !r.cleanedUp then "Validation cleanup could not be confirmed"
    else if r.launch.EngineMissing? then "Validation executor unavailable"
    else if |r.launch.process.output| > limit then "output byte limit exceeded"
    else if r.launch.process.reason.Some? then r.launch.process.reason.value
    else "Validation image, dependency or executable unavailable"
  }

  lemma EngineTells(r: Run, limit: nat)
    requires r.launch.EngineMissing?
    ensures WhyUnavailable(r, limit)
         == if r.cleanedUp then "Validation executor unavailable" else "Validation cleanup could not be confirmed"
  {
  }

  lemma ExcuseTells(r: Run, limit: nat)
    requires r.launch.Ended?
    ensures var why := Excuse(r, Bound(r.launch.process, limit));
            why.Some? ==> why.value == WhyUnavailable(r, limit)
  {
  }

  function Unexecuted(cmd: Command, s: Subject, reason: string, logId: Option<string>): Check {
    Check(cmd.id, Unavailable, s.revisionId, s.baseCommit, s.patch, None, None, logId, Some(reason))
  }

  /** An outcome that can be recorded: the log is written under an identifier short enough for
      the prefix, and the check's fields are within their ranges. */
  predicate Recordable(r: Run, cmd: Command, limit: nat) {
    r.launch.Ended? ==>
      && r.logWritten && |cmd.id| <= 64 - |LOG_PREFIX|
      && var p := Bound(r.launch.process, limit);
         var why := Excuse(r, p);
         if why.Some? then 1 <= |why.value| <= 1000
         else -255 <= p.code <= 255 && 0 <= p.durationMs <= 1800000
  }

  lemma LogArtifact(id: string, output: seq<Byte>)
    requires Identifier(id) && |output| <= 4194304
    ensures Artifact(LogId(id), ALog, LogId(id) + ".log", OfBytes(output), |output|).Valid() <==> |id| <= 64 - |LOG_PREFIX|
    ensures Identifier(LogId(id)) <==> |id| <= 64 - |LOG_PREFIX|
  {
    hide RelativePath;
    var path := LogId(id) + ".log";
    assert forall i :: 0 <= i < |LOG_PREFIX| ==> IdentifierChar(LOG_PREFIX[i]);
    PlainName(path);
  }

  /** `DockerValidationExecutor.run`. A fault is a check or artifact that cannot be constructed,
      or a log that cannot be written. */
  method Execute(r: Run, cmd: Command, s: Subject, limit: nat)
    returns (check: Option<Check>, log: Option<Artifact>, fault: Option<Fault>)
    requires Identifier(cmd.id) && s.revisionId > 0 && limit <= 4194304
    ensures fault.Some? ==> fault == Some(Boundary)
    ensures fault.None? ==> check.Some? && Reports(check.value, cmd, s) && Logs(check.value, log)
    ensures fault.None? && log.Some? ==> log.value.size <= limit
    ensures fault.None? ==> (check.value.status == Passed <==> Passes(r, limit))
    ensures fault.None? ==> (check.value.status == Failed <==> Fails(r, limit))
    ensures fault.None? ==> Witnessed(check.value, r) && LogsOutput(log, r, limit)
    ensures fault.None? && check.value.status == Unavailable ==>
              check.value.reason == Some(WhyUnavailable(r, limit))
    ensures fault.None? && !r.cleanedUp ==> check.value.status == Unavailable
    ensures fault.None? <==> Recordable(r, cmd, limit)
  {
    hide RelativePath, Identifier, WhyUnavailable;
    check, log, fault := None, None, None;
    if r.launch.EngineMissing? {
      var reason := if r.cleanedUp then "Validation executor unavailable"
                    else "Validation cleanup could not be confirmed";
      EngineTells(r, limit);
      check := Some(Unexecuted(cmd, s, reason, None));
      return;
    }
    var p := Bound(r.launch.process, limit);
    var reason := Excuse(r, p);
    ExcuseTells(r, limit);
    var id := LogId(cmd.id);
    LogArtifact(cmd.id, p.output);
    var artifact := Artifact(id, ALog, id + ".log", OfBytes(p.output), |p.output|);
    if !r.logWritten || !artifact.Valid() {
      fault := Some(Boundary);
      return;
    }
    var c := if reason.Some? then Unexecuted(cmd, s, reason.value, Some(id))
             else Check(cmd.id, if p.code == 0 then Passed else Failed, s.revisionId, s.baseCommit, s.patch,
                        Some(p.code), Some(p.durationMs), Some(id), None);
    if !c.Valid() {
      fault := Some(Boundary);
      return;
    }
    check, log := Some(c), Some(artifact);
  }

  // ---------------------------------------------------------------- one of several runs

  /** A run can be reported: the clock left it no time, or its outcome can be recorded. */
  predicate CanReport(r: Run, cmd: Command, room: nat) {
    r.outOfTime || Recordable(r, cmd, room)
  }

  /** How a run is judged, with so much room left for its output. */
  function Verdict(r: Run, room: nat): CheckStatus {
    if r.outOfTime then Unavailable
    else if Passes(r, room) then Passed
    else if Fails(r, room) then Failed
    else Unavailable
  }

  /** A pass is a process that ended by itself with status 0, in time, cleaned up and with no more output than
      there was room for; a failure is one with a status of its own that is not 0. */
  lemma VerdictMeans(r: Run, room: nat)
    ensures var ran := !r.outOfTime && r.cleanedUp && r.launch.Ended? && r.launch.process.reason == None
                       && |r.launch.process.output| <= room;
            && (Verdict(r, room) == Passed <==> ran && r.launch.process.code == 0)
            && (Verdict(r, room) == Failed <==> ran && r.launch.process.code !in {0, 125, 126, 127})
            && (Verdict(r, room) in {Passed, Failed, Unavailable})
  {
  }

  /** A command that prints nothing and succeeds can be reported whatever room is left. */
  lemma QuietRunReports(r: Run, cmd: Command, room: nat)
    requires !r.outOfTime && r.cleanedUp && r.launch.Ended? && r.launch.process.reason == None && r.launch.process.output == []
    requires r.launch.process.code == 0 && 0 <= r.launch.process.durationMs <= 1800000
    ensures CanReport(r, cmd, room) <==> r.logWritten && |cmd.id| <= 53
    ensures LogSize(r, room) == 0
  {
  }

  /** How much of the room the log of a run takes. */
  function LogSize(r: Run, room: nat): (n: nat)
    ensures n <= room
  {
    if r.outOfTime || r.launch.EngineMissing? then 0 else |Bound(r.launch.process, room).output|
  }

  /** The room left before the i-th of several runs. */
  function RoomAt(runs: seq<Run>, i: nat, room: nat): nat
    requires i <= |runs|
  {
    if i == 0 then room else RoomAt(runs, i - 1, room) - LogSize(runs[i - 1], RoomAt(runs, i - 1, room))
  }

  /** The tree after the first i runs, should their executor leave one behind. */
  function TreeThrough(runs: seq<Run>, i: nat, tree: Tree): Tree
    requires i <= |runs|
  {
    if i == 0 then tree
    else if !runs[i - 1].outOfTime && runs[i - 1].after.Some? then runs[i - 1].after.value
    else TreeThrough(runs, i - 1, tree)
  }

  lemma {:induction false} LeftAlone(runs: seq<Run>, i: nat, tree: Tree)
    requires i <= |runs| && forall k :: 0 <= k < i ==> runs[k].after.None?
    ensures TreeThrough(runs, i, tree) == tree
  {
    if i > 0 {
      LeftAlone(runs, i - 1, tree);
    }
  }
}
