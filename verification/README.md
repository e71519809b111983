# Verification model of Driftplain

Driftplain runs AI-assisted tasks in a team's CI and keeps the evidence. An agent fetches an
immutable configuration revision, runs a model or an untrusted editor under ceilings, and posts a
result that the API checks against the revision. The API also ranks models, prices usage, meters
budgets and serves a paged catalog. This project models the parts of that behaviour which are
hardest to get right and proves what they promise, for every input, every interleaving or every
history.

`dafny verify dfyconfig.toml` checks the whole project. Code that changes state in place is a class
or a method with loops, proved against a function; the main results are lemmas about those
functions or about all runs of a state machine.

| module | models |
|---|---|
| EventStream, StreamReader, StreamTheorems, StreamAcceptance | the event reader: a pure state machine, the object that computes it, what it guarantees, and which outputs it accepts |
| Usage, TaskContracts, ContractTheorems | usage records, task results, configurations, the API's checks, and what these say field by field |
| SecurityExecution, ReportedLines | the audit that feeds the reader's counters into a usage record, and the lines of which it can |
| Workspace, ModeChanges, ValidationExecutor, OtherOpencode | the writable task: disposable tree, checks, launcher |
| Mailbox | the file mailbox between the editor's tool and the launcher |
| DiagnosisProtocol | at-most-once failure diagnosis over a lossy network |
| HourlyBudget, TokenBucket | the shared token tally and the authentication limit |
| Pricing, PricedFields | disjoint buckets, tiers and 28-digit decimal charges, and what they come to in the reported fields |
| Cursor, Pagination | base64url cursors and keyset pages |
| Ranking, Scoring | competition ranks, the deterministic scorer and its write-time rule |
| QualityGate | the cached quality gate and the savings it banks |
| BraceScanner, AttemptLoop | the legacy audit's JSON scanner and attempt loop |
| Prelude, Ordering | shared vocabulary |

## How the world is modelled

Processes, containers, Git, clocks, the network and the file system appear as parameters: a run of
the reader is a script of reads, clock verdicts and callback outcomes; an editing session is a list
of rewrites and validation requests; a protocol history is a list of steps of any number of agents.
JSON parsing of event lines is the parameter `Env.parse`. A SHA-256 digest is taken to be injective
and is modelled as what was hashed. Nonces, claim identifiers and revision ids are fresh. Whether an
integration profile is verified plays no role in any claim.

## Where the code does less than one might expect

Each of these is proved, with the exact condition under which the expected behaviour holds.

- Inspecting a tree and recording it look at different execute bits: inspection at all three, version
  control at the owner's. An editor that leaves a file executable for others but not for its owner can
  have a patch touch a path that is neither listed nor permitted, or change what is recorded without
  any patch (`ModeChanges`). The evidence says exactly what is recorded if and only if no file with
  unchanged bytes is left so (`Workspace.EvidenceReproduces`, `OtherOpencode.Launcher.RunTask`).
- A failed stream can make an audit end in a validation error instead of a result: a malformed step
  leaves its first counters added but not its total, so a total kept from earlier steps falls below
  the category sum (`SecurityExecution.UsageBuilds`, `UnreportableStreamExists`). It takes a malformed
  event: otherwise only a counter above ten million prevents the result (`OnlySizePrevents`). Which
  event lines do is `ReportedLines.ReportableOnLines`. The
  custom task drops the total of a failed stream and does not have this flaw.
- Both executions fail in the same way when one step of a failed stream pushes a category above ten
  million tokens (`OtherOpencode.UsageConstructible`, `OversizedStreamExists`).
- A validation command whose id is longer than 53 characters can never pass, since the id of its log
  exceeds 64 (`ValidationExecutor.LogArtifact`, `OtherOpencode.PassMeans`).
- The API rejects a passing result whose check reports a duration beyond its limit, and the duration
  includes cleanup time, so a check that passed in time may be rejected; nothing else the custom
  task emits is (`OtherOpencode.AcceptedExactlyWithin`, `OverrunIsRejected`, `Launcher.RunTask`).
- A diagnosis revision without a diagnosis section stores a completed diagnosis without any claim
  (`DiagnosisProtocol.UnconfiguredDiagnosisNeedsNoClaim`); with one, claims are always demanded.
- The one-pair-per-task guard and the upsert are separate statements, so two overlapping upserts can
  break the rule (`Scoring.OverlapBreaksRule`); exactly which ones is `OverlappingUpserts`.
- A cursor longer than 2048 characters is issued but not accepted, so a listing whose page ends on a
  long name outside ASCII cannot be read past it (`Pagination.CursorsReachEverything`,
  `LongNamesStopEarly`).
- The ceiling shared by the legacy audit's attempts is soft by one token and one step per attempt
  after the first (`AttemptLoop.RunSecurity`, `CeilingCanBePassed`); it holds exactly when no attempt
  that begins with it used up reports anything (`CeilingsHoldExactly`).

## Model

| member | source | states |
|---|---|---|
| StreamReader.Reader.ConsumeLine | agent/security_stream.py:72-158 | One event line changes the reader's variables exactly as `EventStream.Consume` says: classification, de-duplication by identity, counters, ceilings, last failing check wins |
| StreamReader.Reader.AddCounters | agent/security_stream.py:122-129 | The counter loop adds known values, records absent ones and stops at the first bad one, keeping what it had added |
| StreamReader.Reader.CheckCeilings | agent/security_stream.py:130-153 | Of the five checks made after a step the last failing one is what the stream reports |
| StreamReader.Reader.DrainBuffer | agent/security_stream.py:190-194 | Complete lines are cut and consumed until the first failure; what is left stays buffered |
| StreamReader.Reader.PollPipes | agent/security_stream.py:165-194 | The polling loop over any callbacks, clock readings and reads computes `EventStream.Poll` |
| StreamReader.Reader.Run | agent/security_stream.py:37-217 | A whole run of the reader object computes `EventStream.RunStream` |
| StreamTheorems.DrainThenMore | agent/security_stream.py:190-194 | Draining now and reading more later is reading everything at once |
| StreamTheorems.ChunkIndependence | agent/security_stream.py:179-196 | Within the byte limit the result of a run read to its end does not depend on how standard output is cut into reads, nor on the error pipe: it is the fold of `Consume` over the non-blank lines up to the first failure |
| StreamTheorems.FailureIsSticky | agent/security_stream.py:179-196 | No read after a recorded failure clears it |
| StreamTheorems.FailureSurvivesTheRun | agent/security_stream.py:165-209 | A failure recorded at any turn (callback, clock, byte ceiling or event) ends the loop whatever turns would follow, and it is what the run reports whatever is left in the buffer and however the process exits |
| StreamTheorems.ReplayChangesNothing | agent/security_stream.py:81-88 | An exact copy of an accepted identified event, inserted anywhere later, leaves the final state unchanged |
| StreamTheorems.ConflictFails | agent/security_stream.py:81-88 | A different event under an accepted identity fails the stream, whatever follows it |
| StreamTheorems.CountedExactlyOnce | agent/security_stream.py:81-129 | While nothing has failed, the step count and every counter equal those of an independent count over the distinct step reports: nothing is counted twice or dropped |
| StreamTheorems.SuccessCertificate | agent/security_stream.py:111-216 | Exit code 0 implies: starts equal finishes, at least one step, all six counters known, category sum ≤ total ≤ token ceiling, steps and tools within limits, last stop reason `stop` — for any bytes, timing and callbacks |
| StreamTheorems.StreamIsPlausible | agent/security_stream.py:111-216 | Even in a failed stream steps and tool calls pass their ceilings by at most one |
| StreamTheorems.KeptTotalCoversCategories | agent/security_stream.py:122-132 | A total that is kept is at least the category sum, in every run that did not end in a malformed event or at the byte ceiling |
| StreamAcceptance.SuccessMeans | agent/security_stream.py:72-217 | A run succeeds if and only if both pipes are read to their end in time, no callback fails, the bytes stay within the limit, the process exits with 0, and the lines are fine: every one an event, identities not reused, tools allowed and completed, reports complete and consistent, ceilings kept, every step finished and the last one stopped normally. The condition does not mention how an event is handled |
| StreamAcceptance.SuccessExactly | agent/security_stream.py:72-217 | ... and then steps, tool calls and counters are those of the distinct events, and the text is what was written since the last step began |
| StreamAcceptance.OnlyAllowedTools | agent/security_stream.py:104-110 | In a run that succeeds every line that reports a tool names an allowed one and reports it completed |
| StreamAcceptance.ReportsFail | agent/security_stream.py:111-154 | What a finished step is blamed for, and with which code, read off its fields: malformed first, then steps, output, context, tokens, and a total below its categories, of which one alone is reported |
| StreamAcceptance.ToolsFail | agent/security_stream.py:104-110 | A tool that is not allowed, or not completed, fails with 4; an allowed one only past the ceiling, with 124 |
| StreamAcceptance.TurnsFail | agent/security_stream.py:165-178 | A turn's own failure decides the code: the callback's, 4 when it breaks, 124 and a time-out when the clock has run out |
| StreamAcceptance.PayloadIsLines | agent/security_stream.py:190-205 | What is consumed of an output are its lines up to newlines, without the blank ones; a last one need not be ended |
| StreamAcceptance.KeysTell | agent/security_stream.py:78-88 | Two identified events share an identity exactly when they are of one kind and carry one id |
| SecurityExecution.UsageBuilds | agent/security_execution.py:181-195 | The usage record of an audit can be built if and only if no counter is above ten million and a kept total is not below the category sum; a successful stream always meets this |
| SecurityExecution.CertifiedUsage | agent/security_execution.py:181-195 | The usage built from a successful stream is valid, complete and within all four ceilings the API checks, and within those of the machine the audit runs on |
| ReportedLines.ReportableOnLines | agent/security_stream.py:111-132 | A usage record can be built from an output iff the distinct step reports among the lines consumed can be reported: no category adds up to more than ten million, and where some report gave its total and none left a counter unknown the totals are within that bound and not overtaken by the categories; however the output is read and the process ends |
| SecurityExecution.OnlySizePrevents | agent/security_execution.py:181-195 | Unless an event was malformed or the byte ceiling was crossed, a usage record can be built from a stream iff no counter is above ten million |
| SecurityExecution.UnreportableStreamExists | agent/security_stream.py:122-129 | A sound step followed by a malformed one, however read, is a stream whose partial sum overtakes its total, so that no usage record can be built from it |
| SecurityExecution.ByteCeilingHidesMalformed | agent/security_stream.py:179-194 | Such a stream reports the byte ceiling instead when the error pipe crosses it in the same turn, with the same counters |
| SecurityExecution.AuditIsAccepted | app/task_contracts.py:460-677 | Whatever the audit emits with a valid usage record passes the result contract, the envelope and the revision checks |
| SecurityExecution.RunSecurityExecution | agent/security_execution.py:97-226 | For any bytes, timing and answer: something is emitted iff the counters are reportable, it is always accepted, and code 0 means exactly that the stream succeeds (`StreamAcceptance.SuccessMeans`), its answer was parsed, and no finding is critical or of a blocking severity. The record tells every counter under its own name, and status and code say how it ended |
| SecurityExecution.LimitsAreTheStricter | agent/security_execution.py:114-117 | The stream is held to the stricter of each of the machine's and the revision's limits, and to at most 16384 tokens of output a step |
| TaskContracts.ConfigureIsStable | app/task_contracts.py:727-730 | Configuring a stored configuration again yields the stored authority, so the agent's check of that part of a served revision always passes; authority never exceeds the profile |
| ContractTheorems.MatchMeans | app/task_contracts.py:460-677 | What a result is refused for, field by field: another task, mode, language or fix; a path outside the permitted ones; usage of another provider or profile, incomplete, or past a ceiling; a check of another revision, of no configured command, or beyond its limit; and a pass without completion and every required command |
| ContractTheorems.ConsistentMeans | app/task_contracts.py:370-457 | What any constructible result is bound to, field by field: its patch is the one in its manifest, over a known base; artifact ids are distinct; checks are about this base and patch, say what they measured and name logs that are there |
| ContractTheorems.ConfigureExactly | app/task_contracts.py:211-277 | A configuration is accepted exactly under the stated conditions, and the authority stored is that of the profile, over the configuration unchanged but for one generation in a single call |
| ContractTheorems.ProfilesMean | app/task_contracts.py:29-65 | Which combinations of task, mode, language and fix have a profile, which result kinds each has, and which may write |
| ContractTheorems.SummaryMeans | agent/other_opencode.py:34-44 | The status of several checks: failed over unavailable over not run; passed only when there are some and all passed |
| ContractTheorems.PermittedMeans | agent/other_workspace.py:186-189 | A path is permitted exactly when it is one of the roots or lies below one, by whole segments |
| ContractTheorems.RunnerUsageMeans | app/security_contracts.py:58-128 | A runner's usage record is valid exactly when its counts are in range or unknown, a reported total covers the categories, and no attempt means no activity |
| ContractTheorems.ProviderUsageMeans | app/review_contracts.py:79-125 | What valid native usage says of its own counters, for each provider: subsets stay within their wholes, lifetimes add up, nothing is counted without a request, and a reported total agrees with the categories |
| Workspace.InspectTree | agent/other_workspace.py:41-76 | Inspection succeeds exactly on the trees that are allowed, readable and fit, whatever order they are walked in, and lists exactly their files; which error is raised is tied to what is wrong: a name, link, special file or unlistable directory, an operating system error, or a ceiling |
| Workspace.AllowedMeans | agent/other_workspace.py:50-64 | Which names and entries inspection allows: no unsupported path, nothing special, no second link, no version-control directory in any spelling |
| Workspace.ListingsTell | agent/other_workspace.py:70-73 | Two listings are equal iff the names, the bytes, and for each file whether anyone may execute it are equal; who may is not recorded |
| Workspace.ListedIffPatched | agent/other_workspace.py:160-189 | Inspection looks at any of three execute bits and version control at the owner's: a path is listed as changed exactly when the patch touches it, iff it is not an unchanged file that others may execute but not its owner; which of the two sees such a file depends on whether it was executable |
| Workspace.DisposableWorkspace.ListChanges | agent/other_workspace.py:182-199 | The change list is sorted and holds exactly the paths whose listing differs, with the right operations; it fails iff one of them is not permitted or too long, and the error says which of the two there is |
| Workspace.OperationsTell | agent/other_workspace.py:190-199 | Added, deleted and modified stand for what is in the one listing, in the other, or in both with other contents |
| Workspace.DisposableWorkspace.Capture | agent/other_workspace.py:176-235 | Succeeds exactly on a capturable tree; the patch is then the difference of what is recorded, the list that of what is inspected, and there is no patch iff the listing is the base's. When every change is permitted the error is that of the number of files, or of version control |
| Workspace.ChangeListMatchesPatch | agent/other_workspace.py:182-223 | The changed-file list names exactly the paths the patch touches iff no file is stray; in general they differ by the stray files. `deleted` stands exactly where the patch deletes |
| Workspace.EvidenceReproduces | agent/other_workspace.py:176-235 | The patch always turns the base into what the tree records. It touches exactly the listed files, all permitted, and no patch means nothing to record changed, if and only if no file is stray; a path that is not permitted is touched only where it is hidden |
| ModeChanges.ModeChangeEscapes | agent/other_workspace.py:70-73 | With a program outside the permitted paths changed from 0755 to 0655 and a permitted text edited, the capture succeeds and its patch touches the program, which is neither listed nor permitted |
| ModeChanges.ModeChangeIsMissed | agent/other_workspace.py:200-201 | The same change of mode alone yields no patch, although what would be recorded differs from the base |
| ModeChanges.ModeChangeIsEmpty | agent/other_workspace.py:205-222 | A permitted text changed from 0644 to 0645 is listed as modified by an empty patch |
| ValidationExecutor.Execute | agent/validation_executor.py:50-124 | A check is `passed` (`failed`) exactly when its process ended by itself with status 0 (another status that means execution), within the output limit and with confirmed cleanup; it then carries the exit status and duration of that process, and the log its output; otherwise it gives the first reason there is; and it can be recorded at all iff the stated conditions on identifier length, ranges and log hold |
| ValidationExecutor.VerdictMeans | agent/validation_executor.py:50-124 | A run in a sequence is judged a pass or a failure exactly by its own status, clock, cleanup, and the room left for its output |
| ValidationExecutor.LogArtifact | agent/validation_executor.py:102-110 | The log artifact is legal iff the command id has at most 53 characters |
| OtherOpencode.ReaderFits | agent/other_opencode.py:172-190 | What the event reader returns under the limits of the job is what the launcher assumes of it |
| OtherOpencode.SuccessfulUsage | agent/other_opencode.py:492-508 | The usage built from a successful stream is valid, complete and within every ceiling of the revision and of the machine |
| OtherOpencode.UsageConstructible | agent/other_opencode.py:491-506 | The usage record can be built iff no captured category passed ten million |
| OtherOpencode.OversizedStreamExists | agent/security_stream.py:122-139 | Two steps of 100,000 and 10,000,000 input tokens, however read and under any limits that admit the first, are a failed stream whose usage record cannot be built |
| OtherOpencode.ManifestGrows | agent/other_opencode.py:345-390 | Adding a check and its log keeps artifact ids distinct and every log named by exactly the check it belongs to |
| OtherOpencode.EvidenceIsConsistent | app/task_contracts.py:370-457 | The evidence of one validation, or none at all, makes a result the contract accepts |
| OtherOpencode.AcceptedExactlyWithin | agent/other_execution.py:143-162 | Producer and consumer agree: for every exit code the API accepts the envelope iff no passed check reports a duration beyond its command's limit |
| OtherOpencode.PassMeans | agent/other_opencode.py:34-44 | Evidence whose summary blocks nothing has one passed check for every configured command, in order, on that patch |
| OtherOpencode.OverrunIsRejected | app/task_contracts.py:611-616 | Sound evidence whose one check passed and reports any duration a check can hold: the passing envelope is accepted iff that duration is within the command's limit |
| OtherOpencode.DurationsOfRuns | app/task_contracts.py:611-616 | When every check passed, the API's duration rule holds iff no process reports more than its command's limit |
| OtherOpencode.Launcher.RunOne | agent/other_opencode.py:345-387 | One command is reported as its own process ended, with its output as the log, or as unavailable when the clock leaves it no time; exactly when it can be |
| OtherOpencode.Launcher.RunChecks | agent/other_opencode.py:345-390 | The checks of one validation, in configuration order, one per command, all about one subject: each has the verdict of its own run in the room left by the logs before it, its log holds that run's output, and they can be made exactly when every run can be reported so |
| OtherOpencode.Launcher.Validate | agent/other_opencode.py:333-429 | A validation completes exactly when the tree can be captured, every run reported, and the files are afterwards the ones inspected before; the launcher's patch, artifacts and checks are then about those files, and the verdicts and logs are those of the runs |
| OtherOpencode.Launcher.Edit | agent/other_opencode.py:135-201 | Whatever the editor does and whenever it asks for validation: the stream is the reader's own iff every validation asked for can be completed, and otherwise has failed |
| OtherOpencode.ValidatesWhere | agent/other_opencode.py:333-429 | Where no command writes, a validation can be completed exactly when the tree can be captured and every run reported |
| OtherOpencode.LimitsAreTheStricter | agent/other_opencode.py:172-190 | The editor's stream is held to the stricter of the machine's and the revision's tokens and steps |
| OtherOpencode.Launcher.Work | agent/other_opencode.py:282-474 | It completes exactly when nothing stops it before the editor, the stream succeeds, every validation asked for and the last one can be completed and the report is understood in time; otherwise what is raised, or the status, is the script's own |
| OtherOpencode.Launcher.Attempt | agent/other_workspace.py:237-239 | Leaving the workspace removes its scratch directory, unless it is preserved; a removal that fails replaces whatever was raised before |
| OtherOpencode.Launcher.Conclude | agent/other_opencode.py:437-474 | After a successful stream it completes exactly when the report is understood, the final tree can be validated, and there is time left; what is kept is then about that tree, the report is the one read, and the exit code is 0 iff its checks block nothing |
| OtherOpencode.Launcher.Settle | agent/other_opencode.py:282-487 | Every exception leaves no evidence behind and ends the run with the status and code of its kind; one from the removal of the scratch directory is reported with code 4 |
| OtherOpencode.Launcher.RunTask | agent/other_opencode.py:203-527 | For every editor behaviour and all outcomes: an envelope is emitted iff the usage record can be built; it is accepted iff passed checks are within their limits; it completes, and it passes, exactly under the stated conditions on the script (`CanComplete`, `AllPass`); a completed one carries the report that was read, and checks and logs that are those of the last runs; evidence was taken from the tree left after the editor was destroyed, and says exactly what that tree records iff no file there is stray; every counter stands under its own name; and status and code say how the run ended |
| OtherOpencode.Launcher.Emit | agent/other_opencode.py:488-527 | The envelope holds the settled patch, report, artifacts, checks and counters; a completed run with incomplete usage is reported as failed |
| Mailbox.MailboxIsSafe | agent/validation_bridge.py:28-53 | In every interleaving, with tool timeouts and stale replies: an answer carries its own request's nonce and is a validation that was run for it, no nonce is validated or answered twice, validations stay within the step limit, and a taken request is never lost |
| Mailbox.AnswerIsNotOverwritten | agent/other_opencode.py:135-170 | A response the tool is waiting for stays until it is collected or the tool gives up |
| Mailbox.RequestIsAnswered | agent/validation_bridge.py:28-53 | In every reachable state with an idle tool and a watching launcher a new request below the limit can be taken, validated and answered with its own verdict; at the limit the launcher ends instead |
| Mailbox.LauncherEnds | agent/other_opencode.py:143-156 | The launcher ends only when a validation fails or a new request comes at the limit; one that is already answered may be read any number of times |
| Mailbox.Bridge.RequestValidation | agent/validation_bridge.py:28-38 | Opens a request with a fresh nonce unless one is pending; the whole new state |
| Mailbox.Bridge.PollOnce | agent/validation_bridge.py:41-53 | Returns exactly the response to its own nonce, leaves any other, and withdraws the request on time-out |
| Mailbox.Bridge.TakeRequest | agent/other_opencode.py:143-156 | A new nonce is taken below the step ceiling and ends the launcher at it; one seen before changes nothing |
| Mailbox.Bridge.Reply | agent/other_opencode.py:157-170 | The reply replaces the response file, or the launcher ends |
| DiagnosisProtocol.AtMostOnce | agent/diagnosis.py:263-296 | In every history of any number of agents, with lost and repeated messages, crashes, repeated claims and re-picks, the model is called at most once per (project, build, stage) |
| DiagnosisProtocol.FailureIsDiagnosed | agent/diagnosis.py:219-296 | In any world a new agent that sees a failure the current revision configures, which nobody claimed, can start, be served, get its grant and call the model: exactly that call is added, and exactly that claim stored |
| DiagnosisProtocol.AsksExactly | agent/diagnosis.py:219-247 | An agent asks for a claim exactly when its build failed in the configured stage, outside the agent's own, with an exit status and a log, and then for that failure |
| DiagnosisProtocol.CallsAreForFailures | agent/diagnosis.py:263-296 | In every history each call of the model was made for a claimed failure of a configured stage |
| DiagnosisProtocol.NeverAfterUncertainty | agent/diagnosis.py:263-292 | An agent whose reply was lost, denied or malformed, or which crashed, never calls the model afterwards |
| DiagnosisProtocol.ClaimBackedHistory | app/selections/diagnosis.py:53-78 | In every history a stored diagnosis run has a failing gate; it carries failure evidence iff its revision configures diagnosis; and unless skipped it is backed by a claim of the same project, revision, build and context that backs no other run |
| DiagnosisProtocol.OneRunPerClaim | app/models/orm.py:799-801 | A claim backs at most one stored run |
| DiagnosisProtocol.PickDoesNotInvalidate | app/ci/service.py:416-419 | Re-picking never changes whether an explicit result is accepted |
| DiagnosisProtocol.UnfinishedIsStored | agent/diagnosis.py:183-203 | What an agent posts without a diagnosis is stored iff it was skipped without a claim or stands on the claim of this very failure |
| DiagnosisProtocol.UnconfiguredDiagnosisNeedsNoClaim | app/task_contracts.py:542-543 | A completed, unclaimed diagnosis is stored when the revision has no diagnosis section: the claim protocol's promise holds exactly for configured ones |
| DiagnosisProtocol.ClaimKeepsInv | app/selections/diagnosis.py:35-50 | Claiming keeps one claim per failure and never alters an earlier claim, revision or run |
| DiagnosisProtocol.ClaimableMeans | app/selections/diagnosis.py:17-34 | What a claimable request says: current revision of the project, diagnosis of that stage configured, a failing exit status and a log |
| DiagnosisProtocol.IngestKeepsInv | app/ci/service.py:416-468 | Storing a report keeps every stored run backed and every build reported once |
| DiagnosisProtocol.DiagnosisApi.HandleClaim | app/selections/diagnosis.py:17-50 | Granted if and only if the request is claimable and no stored claim has its project, build and stage, whatever else the project has claimed; the stored claim then has the request's project, revision and context, and nothing else changes |
| DiagnosisProtocol.DiagnosisApi.Ingest | app/ci/service.py:416-468 | A report is stored exactly when it is ingestible, as a run with its own project, build, revision, gate and result, and nothing else changes |
| DiagnosisProtocol.ExplicitIsStored | app/ci/service.py:416-468 | With an envelope, exactly for a new build, a consistent result that matches a revision of the project and names its model, and a failure that is either skipped and unclaimed or the very one its claim was made for |
| DiagnosisProtocol.BareIsStored | app/ci/service.py:416-468 | Without one, exactly for a new build of a project without revisions, or of a review or audit revision whose model is named |
| DiagnosisProtocol.DiagnosisIsStored | app/ci/service.py:416-468 | A complete diagnosis of a configured failure is stored exactly on the claim of that failure |
| DiagnosisProtocol.DiagnosisApi.Pick | app/selections/service.py:440 | A pick appends an immutable revision and makes it current; the invariant stands |
| HourlyBudget.TallyIsExact | app/llm_budget.py:59-103 | In every interleaving, crashed holders included, an hour's tally is exactly the outstanding reservations plus the settled actuals |
| HourlyBudget.CapHolds | app/llm_budget.py:80-103 | Admitted holds plus settled actuals never exceed the cap by more than what settled calls used beyond their estimates |
| HourlyBudget.FloorNeverDecides | app/llm_budget.py:65-71 | The floor at 0 and the ignored negative first row never take effect |
| HourlyBudget.TallyTable.AddTo | app/llm_budget.py:59-77 | The hour's row moves by the delta, to no less than 0, no other row moves, and the new total is returned |
| HourlyBudget.TallyTable.ReserveTokens | app/llm_budget.py:80-93 | Admitted iff the estimate fits under the cap entirely; a refusal leaves every tally as it was |
| HourlyBudget.TallyTable.Complete | app/chat/pipeline.py:73-85 | A capped call changes the tally of its hour by exactly what the provider reported, and by nothing when refused or failed |
| TokenBucket.WindowBound | app/auth/admission.py:47-53 | With a clock that does not go back, any window of a history admits at most burst + rate × length, although one statement reads the clock three times |
| TokenBucket.BurstIsAdmitted | app/auth/admission.py:47-53 | The first attempts up to a burst are all let in |
| TokenBucket.IdleTimeRefills | app/auth/admission.py:47-53 | After any history an idle time in which the rate gives n tokens lets the next n attempts in, up to a burst |
| TokenBucket.LazyBucketAgrees | app/auth/admission.py:47-53 | The lazily stored bucket decides every attempt as one refilled at every attempt |
| TokenBucket.RetrySucceeds | app/auth/admission.py:60-63 | Waiting the returned Retry-After with no other admission guarantees admission |
| TokenBucket.RetryIsLeast | app/auth/admission.py:60-63 | The returned wait is the least whole number of seconds, from 1 on, in which the rate gives a token |
| TokenBucket.AuthLimiter.Limit | app/auth/admission.py:47-63 | The upsert's answer, new row and Retry-After; a refusal leaves the row alone |
| Pricing.EstimateUsage | app/billing/pricing.py:8-140 | The loop over buckets computes `Estimated`: charges, lines, reasons, status and known cost; what these come to in the reported fields is `PricedFields` |
| PricedFields.CostOfFields | app/billing/pricing.py:73-139 | The known cost is, for each provider and for runner usage, the sum of named usage fields times named rates: cached tokens taken out of the input of OpenAI and Google, reasoning priced for Google, cache writes by their lifetime for Anthropic |
| PricedFields.TierOfContext | app/billing/pricing.py:48-70 | The tier is the only one, or the one in whose band the input of a native request lies, Anthropic's cached and written tokens added |
| PricedFields.CompleteExactly | app/billing/pricing.py:25-139 | An estimate is complete iff native usage matches the schedule's service tier and model, its context selects a tier, every priced field is known and has a rate unless zero, and the reported total leaves nothing unpriced |
| PricedFields.ShownExactly | app/billing/pricing.py:20-139 | Nothing but a reason is given without a tier; otherwise a cost is shown exactly when nothing speaks against it or some line was charged for at least one token |
| PricedFields.LinesTell | app/billing/pricing.py:112-134 | Each line shows its counter, its rate, and where both are known its exact cost |
| PricedFields.ReasonsTell | app/billing/pricing.py:113-121 | The reasons of the lines are exactly the unknown counters and the rates missing for counters that are not zero |
| Pricing.BucketsPartitionTotal | app/billing/pricing.py:73-104 | With a known total and all buckets known, the disjoint buckets are non-negative, bounded and add up to the total and to the reported one |
| Pricing.FindTier | app/billing/pricing.py:60-67 | The search returns the first covering tier |
| Pricing.ExactlyOneTier | app/billing/rates.py:51-60 | An ordered schedule puts every context in exactly one tier's band, and that tier is the one chosen |
| Pricing.ChargeIsExact | app/billing/pricing.py:122-125 | A charge's product and quotient fit 28 digits, so it is the exact number |
| Pricing.KnownCostIsExact | app/billing/pricing.py:112-139 | The known cost is the exact sum of count × rate: nothing is rounded, for any valid usage and schedule |
| Pricing.WithdrawingNeverRaises | app/billing/pricing.py:113-139 | Withdrawing rates never raises the known cost and never makes one known |
| Pricing.CompleteMeansNative | app/billing/pricing.py:25-32 | A complete estimate is native, prices every bucket, and agrees with the reported total; runner usage never yields one |
| Cursor.PaddedRoundTrip | app/catalog/pagination.py:20-50 | Restoring the padding of an encoded payload and decoding it gives back every byte (sections 3.2 and 5 of RFC 4648) |
| Cursor.EncodedLength | app/catalog/pagination.py:20-31 | The encoded length, padding removed, is ⌈4n/3⌉ |
| Cursor.CursorRoundTrip | app/catalog/pagination.py:20-66 | A cursor decodes to its position iff it has 1 to 2048 characters, that is, iff its payload has 1 to 1536 bytes |
| Cursor.CursorDecodes | app/catalog/pagination.py:20-66 | With the size of compact JSON written out, a cursor is never empty and decodes iff its position's payload has at most 1536 bytes |
| Cursor.ForeignCursorRejected | app/catalog/pagination.py:34-66 | A cursor is rejected by every query with another resource, parameters, order or position size |
| Pagination.ListingIsSortedAndComplete | app/catalog/queries.py:92-106 | One sorted query lists exactly the rows after a position, in strictly rising order, for all three orders |
| Pagination.ConditionAgreesWithOrder | app/catalog/queries.py:92-106 | The condition that continues after a position selects exactly the rows that the order puts after it |
| Pagination.CursorsReachEverything | app/catalog/queries.py:77-121 | Sending each issued cursor back over an unchanged table always ends, with a beginning of what one sorted query returns; with all of it, iff the position of every row that ends a page before the last has a payload of at most 1536 bytes; otherwise it stops at a row where it has more |
| Pagination.ReachIsFirstRefusal | app/catalog/queries.py:106-117 | Reading stops at the first page end whose cursor is refused, and nowhere else |
| Pagination.LongNamesStopEarly | app/catalog/queries.py:93-117 | Two rows sharing a name of 1412 escaped bytes or more, one to a page: the second row is never reached |
| Pagination.ForeignNameIsLong | app/catalog/pagination.py:30 | A name of 240 to 255 characters outside ASCII is that long |
| Pagination.SmallPositionsFit | app/catalog/queries.py:500-507 | Listings by 64-bit identity never stop early, nor do those by name where no name needs more than 1300 bytes |
| Pagination.StableRowsVisitedOnce | app/catalog/queries.py:725-757 | While other rows come, go or move between the requests, no position is visited twice; the visit is refused exactly at a cursor whose position is too large; and if it finishes, a row that keeps its position has been visited exactly once |
| Pagination.CursorResumes | app/catalog/queries.py:486-507 | The cursor of a page starts the next one after its last row iff that row's position is small enough, and is refused otherwise |
| Ranking.OrderScores | app/selections/policy.py:47-61 | The loop returns the sorted keys, each with one more than the number of strictly better scores; it refuses exactly the metric that does not rank |
| Ranking.AssignRanks | app/selections/policy.py:55-60 | The position at which the score last changed is one more than the number of strictly better scores |
| Ranking.RanksAreCompetitionRanks | app/selections/policy.py:47-61 | Every scored key is ranked, and the whole result is independent of input order |
| Ranking.RanksOfRows | app/selections/policy.py:47-61 | Each row with a score has a rank one more than the number of rows with a better one, higher or lower as the metric has it, counted as a set |
| Ranking.RankingIsInOrder | app/selections/policy.py:47-61 | The ranking runs from the best rank to the worst, and tied ones by key |
| Ranking.CollectScores | app/selections/service.py:228-244 | An observation keeps a score iff it has exactly one comparable metric; the score and its group are those of a row of that observation, and it stands in that group alone |
| Ranking.EligibleOrderIsSourceOrder | app/selections/service.py:294-310 | Two eligible items compare in the shown ranking exactly as their observations do in the source's group, ties included |
| Ranking.RankItems | app/selections/service.py:305-310 | The candidate loop gives each item one more than the number of strictly better eligible scores |
| Ranking.EligibleRankCounts | app/selections/service.py:305-310 | The rank shown is one more than the number of eligible items with a better score, counted as a set |
| Scoring.ScoreAndRank | app/recommend/scoring.py:92-153 | Empty, more than one pair, or a permutation of the scored rows in ranking order |
| Scoring.ScoreSpelledOut | app/recommend/scoring.py:111-137 | The score is weight × score over the group's largest, plus the rest of the weight × one minus cost over the group's largest, rounded as the source rounds |
| Scoring.RankingIsInOrder | app/recommend/scoring.py:135-137 | In order stands: the best rank score first, then the lower cost, the model's name, and the key |
| Scoring.RankingIgnoresOrder | app/recommend/scoring.py:135-153 | Two rankings of the same rows are equal whatever order they were given in |
| Scoring.DominantRanksAhead | app/recommend/scoring.py:116-137 | A row with no lower score and strictly lower cost ranks strictly ahead, for every weight and any order-preserving rounding |
| Scoring.DominantPrecedes | app/recommend/scoring.py:137-152 | ... so it stands before the dominated row in every ranking |
| Scoring.RuleHoldsThroughout | app/catalog/service.py:133-153 | Checking one existing row keeps one (benchmark, metric) pair per non-empty task over every sequence of upserts, moves to other tasks included |
| Scoring.SingleTaskNeverMixes | app/recommend/scoring.py:106-108 | Under that rule a request about one task never meets two groups |
| Scoring.OverlappingUpserts | app/catalog/service.py:166-219 | Two upserts that both passed the check on the same catalog keep the rule iff they do not give one task two different pairs |
| Scoring.OverlapBreaksRule | app/catalog/service.py:142-153 | On an empty catalog two upserts of one task with different metrics both pass and together break the rule; one after the other the second is refused |
| Scoring.CatalogTable.UpsertRow | app/catalog/service.py:133-219 | An upsert is accepted iff every row of its task has its pair, although only one row is looked at |
| QualityGate.CachedGateIsRecomputed | app/quality/service.py:105-139 | In every interleaving of feedback transactions under the row lock, rollbacks included, each run's committed gate equals recomputation from all committed verdicts |
| QualityGate.GateMeans | app/quality/service.py:49-72 | A run has no gate without verdicts, and passes exactly when the accepted ones are at least the threshold's share of all of them |
| QualityGate.VerdictIsStored | app/quality/service.py:88-147 | On a run nobody holds, the steps of a verdict's transaction are possible in turn and leave it stored and the gate recomputed |
| QualityGate.ComputedStands | app/quality/service.py:112-138 | A gate computed under the lock is still right at commit, whatever commits on other runs |
| QualityGate.FeedbackTables.SubmitFeedback | app/quality/service.py:88-147 | A verdict replaces the caller's earlier one, the stored gate is the recomputed one, other runs are untouched; refusals change nothing and say whether the finding is unknown or the run another's |
| QualityGate.HonestCumulative | app/savings/service.py:103-137 | One pass computes the banked, at-risk and unrated buckets |
| QualityGate.BucketsPartition | app/savings/service.py:103-137 | The three buckets partition the runs and their savings |
| QualityGate.BankedFromScratch | app/savings/service.py:103-137 | After any history of feedback the banked, at-risk and unrated figures over the stored gates equal sums and counts computed directly from the committed verdicts |
| QualityGate.SavingsKeepTheirSign | app/savings/service.py:50-83 | Rounding never turns an overspend into a saving or the reverse, and the figure is within a millionth of a dollar of the exact difference |
| BraceScanner.BalancedBlocks | agent/security.py:282-314 | The scanning loop returns exactly the blocks of the text |
| BraceScanner.BlocksAreInOrder | agent/security.py:282-314 | Returned blocks are slices of the text, disjoint and in order, each from an opening to a closing brace |
| BraceScanner.ObjectIsReturnedVerbatim | agent/security.py:282-314 | Any JSON object (sections 2 to 7 of RFC 8259) after text whose quotes all belong to string literals, and in which no brace opens outside them, is the first block, verbatim, whatever follows it |
| BraceScanner.ObjectsAreReturned | agent/security.py:282-314 | So is every one of several such objects, in order, whatever such text stands between them; when the rest is such text too, nothing else is returned |
| BraceScanner.ValueIsInvisible | agent/security.py:282-314 | Any JSON value nested in an object leaves the scanner exactly as it was |
| AttemptLoop.StreamOpencode | agent/security.py:190-250 | The event loop computes the usage up to the event that trips a ceiling |
| AttemptLoop.AttemptStaysWithin | agent/security.py:241-250 | An attempt that is not stopped is within its budget; a stopped one has passed it by one step and that step's report at most |
| AttemptLoop.StoppedExactly | agent/security.py:190-250 | An attempt goes unstopped exactly when it does not hang and every event is in time and leaves tokens and steps within the budget; a stopped one used what was reported up to the first event that did not |
| AttemptLoop.AttemptsShare | agent/security.py:472-478 | Each attempt is given what the earlier ones left of each ceiling, but at least one, and what it used is added |
| AttemptLoop.RunSecurity | agent/security.py:442-520 | All attempts made are counted; which outcome is reported is decided by the last one; every earlier one answered with a refusal or with what did not parse, and only such attempts are followed by another; and unless one was stopped the shared ceilings are passed by at most one token and one step per attempt after the first |
| AttemptLoop.CeilingsHoldExactly | agent/security.py:472-478 | Unless an attempt was stopped, the token ceiling holds after every attempt iff each attempt that begins with it used up reports no tokens, and the step ceiling iff each that begins with it used up makes no step; reports may be negative |
| AttemptLoop.TotalIsWithinExactly | agent/security.py:472-478 | With reports that are not negative the final total is within the token ceiling under exactly that condition |
| AttemptLoop.RoomLeftIsEnough | agent/security.py:472-478 | Attempts that each begin with room left under both ceilings stay within both |
| AttemptLoop.CeilingCanBePassed | agent/security.py:472-478 | That bound is reached: each attempt after the ceiling is used up still gets one token |

Where a row's member is a method of a class, the class's fields are the source's variables and the
`ensures` gives the whole new state; the lemmas named beside it say what that state is good for.

## Left out

- Served revision body: saving a selection adds `billingContractVersion`, a key the agent's configuration check rejects (app/selections/service.py:440, app/task_contracts.py:682-704), so no round trip of the full body is claimed, only of the `configure` part.
- Named tests: `agent/test_generation.py`, test evidence and generated-test counts; the `test_generation` task appears only in `ProfileFor` and `Configure`.
- Diagnosis variant of `run_opencode`: the patch policy check, the redacted report and the retained log artifact; the API's checks of its result are modelled, its launcher only up to the model call.
- Single-call execution and code review: thin sequences around provider adapters.
- Redaction, refusal wording and the production-file policy: uninterpreted text (`TextPolicy`, `Text`); redaction of reports inside the result contract is not modelled.
- String fields whose only rule is a length (report text, stages, commits, reasons of results) carry no bound in the model; identifiers, paths and check reasons do.
- Docker, Git, subprocess handling and signals: their outcomes are parameters; that deleting the container ends every process in it is assumed.
- JSON in general: only the brace scanner works on characters; the cursor's JSON is assumed to round-trip and to have the size of its compact form, which is written out.
- Workspace.EvidenceReproduces: the patch is the difference of the two recorded trees, bytes and owner's execute bit; that the text `git diff-tree` writes stands for that difference, and applies, is assumed.
- `extract_results`, `_repair_json` and `to_findings` of the legacy audit: regular expressions and field mapping; whether an answer parses is a parameter.
- `usage_status`, price look-up, rate registration and snapshots: single branches or database reads.
- Decimal text: a zero or tiny amount may print with an exponent; the model compares values, not their spelling. The stored ranking scores are compared as numbers, which agrees with comparing their text at one stored scale.
- Acceptance rates, bucket levels and clock readings are exact reals, not binary floating point or microseconds.
- Migrations, ORM projection, snippets, prompts, logging, metrics, seeding, registration capacity, secret and blob stores.
- Workspace.InspectTree: when several things are wrong, which one is reported depends on the order of the walk; the contract ties each error to a cause but does not fix the order.
- StreamTheorems.ChunkIndependence: is about runs inside the byte limit that read both pipes to their end; a run that crosses the limit fails at a point that does depend on the reads.
- Scoring.DominantRanksAhead: the decimal context and the six-place rounding are any order-preserving functions; their digits are not modelled.
- Scoring.ScoreAndRank: scored rows are put in their place one by one where the source sorts the finished list; the order is total, so the result is the same.
- HourlyBudget.TallyIsExact: estimates and actuals are non-negative, as `approx_tokens` and the providers report them.
- DiagnosisProtocol.AtMostOnce: a granted agent's launcher is one step; a crash inside it still counts as the one call.
- Mailbox.MailboxIsSafe: a validation with its reply is one step, because the container is paused for it; between reading the request and that step the tool may still run. Malformed request files, which end the launcher, are `Abort`.
