/** At-most-once failure diagnosis. Agents ask the API for a durable claim on a (project, build,
    stage), call the model only when it is granted, and post a result that the API checks against
    the claim and the revision that was executed. The network loses and repeats messages, agents
    crash at any point, and the owner may pick another configuration at any time. */
module DiagnosisProtocol {
  import opened Prelude
  import opened Usage
  import opened TaskContracts

  // ---------------------------------------------------------------- the API's database

  datatype Claim = Claim(projectId: int, revisionId: int, context: FailureContext)
  datatype ClaimKey = ClaimKey(projectId: int, buildId: string, stage: string)

  datatype StoredRun = StoredRun(projectId: int, buildId: string, revisionId: Option<int>, task: Option<Task>,
                                 gate: Gate, result: Option<TaskResult>)

  datatype Db = Db(revisions: map<int, Revision>, current: map<int, int>,
                   claims: map<string, Claim>, runs: seq<StoredRun>)

  datatype ClaimRequest = ClaimRequest(projectId: int, revisionId: int, failure: FailureContext)
  datatype ClaimAnswer = Unprocessable | Granted(id: string) | Denied

  /** A reported run: a bare one, or one with an envelope. Both are as parsed and validated. */
  datatype Post = Bare(buildId: string, revisionId: Option<int>, model: string, gate: Gate) | Explicit(buildId: string, envelope: Envelope)

  /** Text the contracts do not interpret: `blank` is an excerpt with nothing but white space. */
  datatype Text = Text(policy: TextPolicy, blank: string -> bool)

  function KeyOf(c: Claim): ClaimKey {
    ClaimKey(c.projectId, c.context.buildId, c.context.stage)
  }

  function RequestKey(q: ClaimRequest): ClaimKey {
    ClaimKey(q.projectId, q.failure.buildId, q.failure.stage)
  }

  predicate Taken(db: Db, key: ClaimKey) {
    exists id :: id in db.claims && KeyOf(db.claims[id]) == key
  }

  /** A request for the project's current configured failure, with evidence of it. */
  predicate Claimable(db: Db, q: ClaimRequest, t: Text) {
    && q.projectId in db.current && db.current[q.projectId] in db.revisions
    && var v := db.revisions[db.current[q.projectId]];
       var f := q.failure;
       && v.task == FailureDiagnosis && v.configuration.diagnosis.Some? && v.id == q.revisionId
       && f.stage == v.configuration.diagnosis.value.stage && f.original == Failure
       && f.exitStatus.Some? && f.exitStatus.value != 0 && !t.blank(f.log)
       && (f.claimId.None? || f.claimId.value == "")
  }

  /** `claim`: insert unless the failure is already claimed, and commit before answering. */
  function Decide(db: Db, q: ClaimRequest, t: Text): bool {
    Claimable(db, q, t) && !Taken(db, RequestKey(q))
  }

  function AfterClaim(db: Db, q: ClaimRequest, id: string, t: Text): Db {
    if Decide(db, q, t)
    then db.(claims := db.claims[id := Claim(q.projectId, q.revisionId, q.failure.(claimId := None))])
    else db
  }

  function AnswerTo(db: Db, q: ClaimRequest, id: string, t: Text): ClaimAnswer {
    if !Claimable(db, q, t) then Unprocessable else if Decide(db, q, t) then Granted(id) else Denied
  }

  /** `validate_claim`. */
  predicate ClaimHolds(db: Db, projectId: int, revisionId: int, buildId: string, r: TaskResult) {
    r.failure.Some? ==>
      var f := r.failure.value;
      && f.buildId == buildId
      && (if f.claimId.None? || f.claimId.value == ""
          then r.execution == ExSkipped && (r.runnerUsage.Some? ==> r.runnerUsage.value.attempts == 0)
          else
            && f.claimId.value in db.claims
            && db.claims[f.claimId.value] == Claim(projectId, revisionId, f.(claimId := None)))
  }

  predicate BuildFree(db: Db, projectId: int, buildId: string) {
    forall i :: 0 <= i < |db.runs| ==> !(db.runs[i].projectId == projectId && db.runs[i].buildId == buildId)
  }

  predicate RevisionOf(db: Db, projectId: int, revisionId: int) {
    revisionId in db.revisions && db.revisions[revisionId].projectId == projectId
  }

  /** Whether a report is stored. */
  predicate Ingestible(db: Db, projectId: int, p: Post, t: Text) {
    && BuildFree(db, projectId, p.buildId)
    && match p
       case Bare(_, revisionId, model, _) =>
         if revisionId.None? then projectId !in db.current
         else RevisionOf(db, projectId, revisionId.value) && model == db.revisions[revisionId.value].modelId
              && (db.revisions[revisionId.value].task == CiReview || db.revisions[revisionId.value].task == SecurityAnalysis)
       case Explicit(buildId, e) =>
         && Consistent(e.result) && EnvelopeConsistent(e)
         && RevisionOf(db, projectId, e.revisionId.value)
         && var v := db.revisions[e.revisionId.value];
            && e.model == v.modelId && MatchesRevision(e.result, v, e.gate, t.policy)
            && ClaimHolds(db, projectId, v.id, buildId, e.result)
  }

  function Stored(db: Db, projectId: int, p: Post): StoredRun {
    var revisionId := if p.Bare? then p.revisionId else p.envelope.revisionId;
    StoredRun(projectId, p.buildId, revisionId,
              if revisionId.Some? && revisionId.value in db.revisions then Some(db.revisions[revisionId.value].task) else None,
              if p.Bare? then p.gate else p.envelope.gate,
              if p.Bare? then None else Some(p.envelope.result))
  }

  function AfterIngest(db: Db, projectId: int, p: Post, t: Text): Db {
    if Ingestible(db, projectId, p, t) then db.(runs := db.runs + [Stored(db, projectId, p)]) else db
  }

  /** A pick or an edit appends an immutable revision and makes it the current one. */
  function AfterPick(db: Db, v: Revision): Db {
    if v.id in db.revisions then db
    else db.(revisions := db.revisions[v.id := v], current := db.current[v.projectId := v.id])
  }

  // ---------------------------------------------------------------- what the database keeps

  /** A stored run is backed by a claim of its project, revision, build and context. */
  ghost predicate Backed(db: Db, run: StoredRun) {
    run.result.Some? && run.result.value.failure.Some? &&
      var f := run.result.value.failure.value;
      && f.claimId.Some? && f.claimId.value in db.claims && f.buildId == run.buildId
      && run.revisionId.Some?
      && db.claims[f.claimId.value] == Claim(run.projectId, run.revisionId.value, f.(claimId := None))
  }

  ghost predicate RunKept(db: Db, run: StoredRun) {
    run.task == Some(FailureDiagnosis) ==>
      && run.gate == GateFail && run.result.Some? && run.revisionId.Some?
      && RevisionOf(db, run.projectId, run.revisionId.value)
      && (run.result.value.failure.Some? <==> db.revisions[run.revisionId.value].configuration.diagnosis.Some?)
      && (run.result.value.failure.Some? && run.result.value.execution != ExSkipped ==> Backed(db, run))
  }

  /** A run that names a claim is about that claim, whatever its task. */
  ghost predicate ClaimUse(db: Db, run: StoredRun) {
    (&& run.result.Some? && run.result.value.failure.Some? && run.result.value.failure.value.claimId.Some?
     && run.result.value.failure.value.claimId.value != "") ==> Backed(db, run)
  }

  ghost predicate DbInv(db: Db) {
    && (forall id :: id in db.revisions ==> db.revisions[id].id == id)
    && (forall i, j :: i in db.claims && j in db.claims && KeyOf(db.claims[i]) == KeyOf(db.claims[j]) ==> i == j)
    && (forall i, j :: 0 <= i < j < |db.runs| ==>
          !(db.runs[i].projectId == db.runs[j].projectId && db.runs[i].buildId == db.runs[j].buildId))
    && (forall i :: 0 <= i < |db.runs| ==> RunKept(db, db.runs[i]) && ClaimUse(db, db.runs[i]))
  }

  /** Claims and revisions are never changed or withdrawn, and runs are only appended. */
  ghost predicate Extends(after: Db, before: Db) {
    && (forall id :: id in before.claims ==> id in after.claims && after.claims[id] == before.claims[id])
    && (forall id :: id in before.revisions ==> id in after.revisions && after.revisions[id] == before.revisions[id])
    && before.runs <= after.runs
  }

  lemma ExtensionKeepsRun(after: Db, before: Db, run: StoredRun)
    requires Extends(after, before) && RunKept(before, run) && ClaimUse(before, run)
    ensures RunKept(after, run) && ClaimUse(after, run)
  {
  }

  lemma ClaimKeepsInv(db: Db, q: ClaimRequest, id: string, t: Text)
    requires DbInv(db) && id !in db.claims
    ensures DbInv(AfterClaim(db, q, id, t)) && Extends(AfterClaim(db, q, id, t), db)
  {
    hide RunKept, ClaimUse, Claimable;
    var db' := AfterClaim(db, q, id, t);
    forall i | 0 <= i < |db.runs|
      ensures RunKept(db', db.runs[i]) && ClaimUse(db', db.runs[i])
    {
      ExtensionKeepsRun(db', db, db.runs[i]);
    }
    assert forall k :: k in db.claims && Decide(db, q, t) ==> KeyOf(db.claims[k]) != RequestKey(q);
  }

  lemma PickKeepsInv(db: Db, v: Revision)
    requires DbInv(db)
    ensures DbInv(AfterPick(db, v)) && Extends(AfterPick(db, v), db)
  {
    hide RunKept, ClaimUse;
    var db' := AfterPick(db, v);
    forall i | 0 <= i < |db.runs|
      ensures RunKept(db', db.runs[i]) && ClaimUse(db', db.runs[i])
    {
      ExtensionKeepsRun(db', db, db.runs[i]);
    }
  }

  /** What acceptance of a diagnosis result implies. */
  lemma AcceptedDiagnosis(r: TaskResult, v: Revision, gate: Gate, t: TextPolicy)
    requires MatchesRevision(r, v, gate, t) && v.task == FailureDiagnosis
    ensures gate == GateFail && (r.failure.Some? <==> v.configuration.diagnosis.Some?)
  {
    hide CompletedDiagnosis, PatchPermitted, ChecksBelong, DurationsWithin, NativeUsageFits, RunnerUsageFits;
  }

  lemma StoredRunKept(db: Db, projectId: int, p: Post, t: Text)
    requires DbInv(db) && Ingestible(db, projectId, p, t)
    ensures RunKept(db, Stored(db, projectId, p)) && ClaimUse(db, Stored(db, projectId, p))
  {
    hide Consistent, MatchesRevision;
    if p.Explicit? {
      var v := db.revisions[p.envelope.revisionId.value];
      if v.task == FailureDiagnosis {
        AcceptedDiagnosis(p.envelope.result, v, p.envelope.gate, t.policy);
      }
    }
  }

  lemma IngestKeepsInv(db: Db, projectId: int, p: Post, t: Text)
    requires DbInv(db)
    ensures DbInv(AfterIngest(db, projectId, p, t)) && Extends(AfterIngest(db, projectId, p, t), db)
  {
    hide RunKept, ClaimUse;
    var db' := AfterIngest(db, projectId, p, t);
    if Ingestible(db, projectId, p, t) {
      StoredRunKept(db, projectId, p, t);
      hide Ingestible;
      assert BuildFree(db, projectId, p.buildId);
      forall i | 0 <= i < |db'.runs|
        ensures RunKept(db', db'.runs[i]) && ClaimUse(db', db'.runs[i])
      {
        ExtensionKeepsRun(db', db, db'.runs[i]);
      }
    }
  }

  /** A claim backs at most one stored run. */
  lemma OneRunPerClaim(db: Db, i: nat, j: nat)
    requires DbInv(db) && i < |db.runs| && j < |db.runs| && Backed(db, db.runs[i]) && Backed(db, db.runs[j])
    requires db.runs[i].result.value.failure.value.claimId == db.runs[j].result.value.failure.value.claimId
    ensures i == j
  {
  }

  /** Picking another configuration never makes an explicit result unacceptable or acceptable. */
  lemma PickDoesNotInvalidate(db: Db, v: Revision, projectId: int, p: Post, t: Text)
    requires DbInv(db) && p.Explicit? && p.envelope.revisionId.Some? && p.envelope.revisionId.value in db.revisions
    ensures Ingestible(AfterPick(db, v), projectId, p, t) <==> Ingestible(db, projectId, p, t)
  {
    hide Consistent, MatchesRevision, EnvelopeConsistent;
  }

  /** What an agent posts when it did not complete a diagnosis: no model was called. */
  function Unfinished(v: Revision, f: FailureContext, execution: Execution, reason: string): Post {
    var u := RunnerUsage(v.provider, v.runtimeVersion, None, None, None, None, None, None, 0, 0, 0);
    var r := TaskResult(ReportOnly, FailureDiagnosis, OpenCode, None, v.proposeFix, execution, Some(reason), NotRun,
                        Some(f.commit), None, None, [], [], Some(f), None, Some(u));
    Explicit(f.buildId, Envelope(0, 0, 0, None, v.modelId, GateFail, Some(v.id), r))
  }

  /** The API stores what an agent posts without having diagnosed anything exactly when it was
      skipped without a claim, or stands on the claim of this very failure. */
  lemma UnfinishedIsStored(db: Db, v: Revision, f: FailureContext, execution: Execution, reason: string, t: Text)
    requires v.id in db.revisions && db.revisions[v.id] == v && v.id > 0 && BuildFree(db, v.projectId, f.buildId)
    requires v.task == FailureDiagnosis && v.mode == OpenCode && v.language == None && v.contractVersion == 1
    requires v.configuration.Valid() && v.configuration.diagnosis.Some? && 1 <= |v.runtimeVersion| <= 128
    requires execution != ExCompleted && reason != ""
    ensures Ingestible(db, v.projectId, Unfinished(v, f, execution, reason), t) <==>
              if f.claimId.None? || f.claimId.value == "" then execution == ExSkipped
              else f.claimId.value in db.claims
                   && db.claims[f.claimId.value] == Claim(v.projectId, v.id, f.(claimId := None))
  {
    hide CompletedDiagnosis, RelativePath, BuildFree;
    var r := Unfinished(v, f, execution, reason).envelope.result;
    assert Sizes([]) == 0 && Summary([]) == NotRun;
    assert ProfileFor(r.task, r.mode, r.language, r.proposeFix).Some?;
    assert Consistent(r) && MatchesRevision(r, v, GateFail, t.policy);
  }

  /** Without a diagnosis section in the revision no failure evidence is asked for: a completed,
      unclaimed diagnosis is then stored, which the claim protocol is meant to exclude. */
  lemma UnconfiguredDiagnosisNeedsNoClaim(db: Db, v: Revision, t: Text)
    requires db == Db(map[v.id := v], map[v.projectId := v.id], map[], [])
    requires v.task == FailureDiagnosis && v.mode == OpenCode && v.language == None && !v.proposeFix
    requires v.contractVersion == 1 && v.id > 0 && v.configuration.Valid() && v.configuration.commands == []
    requires v.configuration.diagnosis.None?
    ensures var r := TaskResult(ReportOnly, FailureDiagnosis, OpenCode, None, false, ExCompleted, None, NotRun, None, None,
                                Some(Report("Cause unknown", None, [], None, None, [])), [], [], None, None, None);
            var p := Explicit("build-1", Envelope(0, 0, 0, None, v.modelId, GateFail, Some(v.id), r));
            && Ingestible(db, v.projectId, p, t)
            && Stored(db, v.projectId, p).task == Some(FailureDiagnosis)
            && !Backed(AfterIngest(db, v.projectId, p, t), Stored(db, v.projectId, p))
  {
    hide CompletedDiagnosis, RelativePath;
    assert Sizes([]) == 0;
  }

  /** What a claimable request says: it is about the project's current revision, which configures diagnosis
      of that stage, and about a failure. */
  lemma ClaimableMeans(db: Db, q: ClaimRequest, t: Text)
    ensures Claimable(db, q, t) <==>
              && q.projectId in db.current && db.current[q.projectId] in db.revisions
              && (var v := db.revisions[db.current[q.projectId]];
                  v.id == q.revisionId && v.task == FailureDiagnosis
                  && v.configuration.diagnosis.Some? && v.configuration.diagnosis.value.stage == q.failure.stage)
              && IsFailure(q.failure, t) && (q.failure.claimId == None || q.failure.claimId == Some(""))
  {
  }

  // ---------------------------------------------------------------- the API as an object

  class DiagnosisApi {
    const text: Text
    var revisions: map<int, Revision>
    var current: map<int, int>
    var claims: map<string, Claim>
    var runs: seq<StoredRun>

    ghost function Now(): Db
      reads this
    {
      Db(revisions, current, claims, runs)
    }

    constructor (text: Text)
      ensures this.text == text && Now() == Db(map[], map[], map[], []) && DbInv(Now())
    {
      this.text := text;
      revisions, current, claims, runs := map[], map[], map[], [];
    }

    /** Insert a claim with a fresh identifier; commit; then answer. */
    method HandleClaim(q: ClaimRequest, id: string) returns (a: ClaimAnswer)
      requires id !in claims
      modifies this`claims
      ensures Now() == AfterClaim(old(Now()), q, id, text) && a == AnswerTo(old(Now()), q, id, text)
      // granted to the first claimable request of a failure, whatever else the project has claimed
      ensures a.Granted? <==>
                && Claimable(old(Now()), q, text)
                && forall k :: k in old(claims) ==>
                     !(&& old(claims)[k].projectId == q.projectId
                       && old(claims)[k].context.buildId == q.failure.buildId
                       && old(claims)[k].context.stage == q.failure.stage)
      ensures a.Granted? ==>
                && a.id == id && claims.Keys == old(claims).Keys + {id}
                && claims[id].projectId == q.projectId && claims[id].revisionId == q.revisionId
                && claims[id].context == q.failure.(claimId := None)
      ensures !a.Granted? ==> claims == old(claims) && (a.Unprocessable? <==> !Claimable(old(Now()), q, text))
      ensures old(DbInv(Now())) ==> DbInv(Now()) && Extends(Now(), old(Now()))
    {
      hide DbInv, Extends;
      if old(DbInv(Now())) {
        ClaimKeepsInv(Now(), q, id, text);
      }
      if !Claimable(Db(revisions, current, claims, runs), q, text) {
        return Unprocessable;
      }
      if exists k | k in claims :: KeyOf(claims[k]) == RequestKey(q) {
        return Denied;
      }
      claims := claims[id := Claim(q.projectId, q.revisionId, q.failure.(claimId := None))];
      a := Granted(id);
    }

    /** Store a report, or refuse it and change nothing. */
    method Ingest(projectId: int, p: Post) returns (stored: bool)
      modifies this`runs
      ensures Now() == AfterIngest(old(Now()), projectId, p, text) && (stored <==> Ingestible(old(Now()), projectId, p, text))
      ensures if !stored then runs == old(runs)
              else
                && |runs| == |old(runs)| + 1 && old(runs) <= runs
                && var run := runs[|old(runs)|];
                   && run.projectId == projectId && run.buildId == p.buildId
                   && (p.Bare? ==> run.revisionId == p.revisionId && run.gate == p.gate && run.result == None)
                   && (p.Explicit? ==> run.revisionId == p.envelope.revisionId && run.gate == p.envelope.gate
                                       && run.result == Some(p.envelope.result))
      ensures old(DbInv(Now())) ==> DbInv(Now()) && Extends(Now(), old(Now()))
    {
      hide DbInv, Extends, Ingestible;
      if old(DbInv(Now())) {
        IngestKeepsInv(Now(), projectId, p, text);
      }
      var db := Db(revisions, current, claims, runs);
      stored := Ingestible(db, projectId, p, text);
      if stored {
        runs := runs + [Stored(db, projectId, p)];
      }
    }

    method Pick(v: Revision)
      requires v.id !in revisions
      modifies this`revisions, this`current
      ensures Now() == AfterPick(old(Now()), v)
      ensures revisions == old(revisions)[v.id := v] && current == old(current)[v.projectId := v.id]
      ensures old(DbInv(Now())) ==> DbInv(Now()) && Extends(Now(), old(Now()))
    {
      hide DbInv, Extends;
      if old(DbInv(Now())) {
        PickKeepsInv(Now(), v);
      }
      revisions := revisions[v.id := v];
      current := current[v.projectId := v.id];
    }
  }

  // ---------------------------------------------------------------- agents and the network

  /** What an agent knows before it asks: its local view of the failed build. */
  datatype Local = Local(projectId: int, revisionId: int, configured: Diagnosis, context: FailureContext,
                         agentStage: bool, logReadable: bool)

  /** `run_diagnosis` up to the claim: skip, or ask with this request. */
  function Precheck(l: Local, t: Text): Option<ClaimRequest> {
    var f := l.context;
    if f.original != Failure then None
    else if f.stage != l.configured.stage || l.agentStage then None
    else if f.exitStatus.None? || f.exitStatus.value == 0 then None
    else if !l.logReadable || t.blank(f.log) then None
    else Some(ClaimRequest(l.projectId, l.revisionId, f.(claimId := None)))
  }

  datatype Phase =
    | Asking(request: ClaimRequest)
    | Skipped                                   // denied, lost or unusable: no model call
    | Holding(request: ClaimRequest, id: string)
    | Invoked(request: ClaimRequest, id: string)
    | Crashed

  datatype Call = Call(agent: nat, key: ClaimKey)

  /** Agents are single executions; `inbox` holds every answer the API ever sent to one. */
  datatype World = World(db: Db, agents: map<nat, Phase>, asked: map<nat, ClaimRequest>,
                         inbox: map<nat, set<ClaimAnswer>>, calls: seq<Call>)

  datatype Step =
    | Start(agent: nat, local: Local)
    | Serve(agent: nat, id: string)             // the API handles the request, possibly again
    | Deliver(agent: nat, answer: ClaimAnswer)
    | Lose(agent: nat)                          // time-out, error status or unreadable answer
    | Crash(agent: nat)
    | Invoke(agent: nat)
    | PostRun(projectId: int, post: Post)       // anyone holding the token, as often as they like
    | Pick(revision: Revision)

  predicate Enabled(w: World, st: Step, t: Text) {
    match st
    case Start(a, l) => a !in w.agents && a !in w.asked
    case Serve(a, id) => a in w.asked && id !in w.db.claims
    case Deliver(a, answer) => a in w.agents && w.agents[a].Asking? && a in w.inbox && answer in w.inbox[a]
    case Lose(a) => a in w.agents && w.agents[a].Asking?
    case Crash(a) => a in w.agents
    case Invoke(a) => a in w.agents && w.agents[a].Holding?
    case PostRun(_, _) => true
    case Pick(v) => v.id !in w.db.revisions
  }

  function Next(w: World, st: Step, t: Text): World
    requires Enabled(w, st, t)
  {
    match st
    case Start(a, l) =>
      var q := Precheck(l, t);
      if q.None? then w.(agents := w.agents[a := Skipped])
      else w.(agents := w.agents[a := Asking(q.value)], asked := w.asked[a := q.value], inbox := w.inbox[a := {}])
    case Serve(a, id) =>
      var had := if a in w.inbox then w.inbox[a] else {};
      w.(db := AfterClaim(w.db, w.asked[a], id, t), inbox := w.inbox[a := had + {AnswerTo(w.db, w.asked[a], id, t)}])
    case Deliver(a, answer) =>
      w.(agents := w.agents[a := if answer.Granted? then Holding(w.agents[a].request, answer.id) else Skipped])
    case Lose(a) => w.(agents := w.agents[a := Skipped])
    case Crash(a) => w.(agents := w.agents[a := Crashed])
    case Invoke(a) =>
      w.(agents := w.agents[a := Invoked(w.agents[a].request, w.agents[a].id)],
         calls := w.calls + [Call(a, RequestKey(w.agents[a].request))])
    case PostRun(projectId, p) => w.(db := AfterIngest(w.db, projectId, p, t))
    case Pick(v) => w.(db := AfterPick(w.db, v))
  }

  ghost predicate Possible(w: World, steps: seq<Step>, t: Text)
    decreases |steps|
  {
    steps == [] || (Enabled(w, steps[0], t) && Possible(Next(w, steps[0], t), steps[1..], t))
  }

  function After(w: World, steps: seq<Step>, t: Text): World
    requires Possible(w, steps, t)
    decreases |steps|
  {
    if steps == [] then w else After(Next(w, steps[0], t), steps[1..], t)
  }

  const EMPTY := World(Db(map[], map[], map[], []), map[], map[], map[], [])

  /** The identifier was granted to this agent for its own request. */
  ghost predicate GrantedTo(w: World, a: nat, id: string) {
    && a in w.inbox && Granted(id) in w.inbox[a]
    && a in w.asked && id in w.db.claims && KeyOf(w.db.claims[id]) == RequestKey(w.asked[a])
  }

  ghost predicate HasGrant(w: World, a: nat) {
    exists id :: GrantedTo(w, a, id)
  }

  /** Grants outlive every step that keeps the claims, the requests and the answers sent. */
  lemma GrantsRemain(w: World, w': World)
    requires forall id :: id in w.db.claims ==> id in w'.db.claims && w'.db.claims[id] == w.db.claims[id]
    requires forall a :: a in w.asked ==> a in w'.asked && w'.asked[a] == w.asked[a]
    requires forall a :: a in w.inbox ==> a in w'.inbox && w.inbox[a] <= w'.inbox[a]
    ensures forall a, id :: GrantedTo(w, a, id) ==> GrantedTo(w', a, id)
    ensures forall a :: HasGrant(w, a) ==> HasGrant(w', a)
  {
    forall a | HasGrant(w, a)
      ensures HasGrant(w', a)
    {
      var id :| GrantedTo(w, a, id);
      assert GrantedTo(w', a, id);
    }
  }

  /** Every grant was made once, to one agent, for what it asked. */
  ghost predicate GrantsSound(w: World) {
    && (forall a :: a in w.inbox ==> a in w.asked)
    && (forall a, id :: a in w.inbox && Granted(id) in w.inbox[a] ==> GrantedTo(w, a, id))
    && (forall a, b, id :: a in w.inbox && b in w.inbox && Granted(id) in w.inbox[a] && Granted(id) in w.inbox[b] ==> a == b)
  }

  /** An agent that may still call the model has not called it; one that is about to holds a grant. */
  ghost predicate PhasesSound(w: World) {
    && (forall a :: a in w.agents && (w.agents[a].Asking? || w.agents[a].Holding?) ==>
          a in w.asked && w.agents[a].request == w.asked[a] && forall i :: 0 <= i < |w.calls| ==> w.calls[i].agent != a)
    && (forall a :: a in w.agents && w.agents[a].Holding? ==> GrantedTo(w, a, w.agents[a].id))
  }

  /** A call was made under a grant, once per agent. */
  ghost predicate CallsSound(w: World) {
    && (forall i :: 0 <= i < |w.calls| ==>
          && w.calls[i].agent in w.agents && w.calls[i].agent in w.asked
          && w.calls[i].key == RequestKey(w.asked[w.calls[i].agent])
          && HasGrant(w, w.calls[i].agent))
    && (forall i, j :: 0 <= i < j < |w.calls| ==> w.calls[i].agent != w.calls[j].agent)
  }

  ghost predicate WorldInv(w: World) {
    DbInv(w.db) && GrantsSound(w) && PhasesSound(w) && CallsSound(w)
  }

  /** A step of the API leaves agents and calls alone, and their grants stand. */
  lemma AgentsUntouched(w: World, w': World)
    requires PhasesSound(w) && CallsSound(w)
    requires w'.agents == w.agents && w'.asked == w.asked && w'.calls == w.calls
    requires forall id :: id in w.db.claims ==> id in w'.db.claims && w'.db.claims[id] == w.db.claims[id]
    requires forall a :: a in w.inbox ==> a in w'.inbox && w.inbox[a] <= w'.inbox[a]
    ensures PhasesSound(w') && CallsSound(w')
  {
    hide HasGrant, GrantedTo;
    GrantsRemain(w, w');
  }

  /** A database step that only extends the claims keeps what the agents rely on. */
  lemma DbStepKeepsInv(w: World, db: Db)
    requires WorldInv(w) && DbInv(db) && Extends(db, w.db)
    ensures WorldInv(w.(db := db))
  {
    hide DbInv, HasGrant, PhasesSound, CallsSound;
    GrantsRemain(w, w.(db := db));
    AgentsUntouched(w, w.(db := db));
  }

  lemma ServeKeepsInv(w: World, a: nat, id: string, t: Text)
    requires WorldInv(w) && Enabled(w, Serve(a, id), t)
    ensures WorldInv(Next(w, Serve(a, id), t))
  {
    hide DbInv, Claimable, HasGrant, Taken, PhasesSound, CallsSound;
    ClaimKeepsInv(w.db, w.asked[a], id, t);
    var w' := Next(w, Serve(a, id), t);
    GrantsRemain(w, w');
    AgentsUntouched(w, w');
    var answer := AnswerTo(w.db, w.asked[a], id, t);
    forall b, i | b in w'.inbox && Granted(i) in w'.inbox[b]
      ensures GrantedTo(w', b, i) && (i == id ==> b == a)
    {
      if b in w.inbox && Granted(i) in w.inbox[b] {
        assert GrantedTo(w, b, i);
      } else {
        assert b == a && answer == Granted(i);
      }
    }
  }

  lemma HasOne(w: World, a: nat, id: string)
    requires GrantedTo(w, a, id)
    ensures HasGrant(w, a)
  {
  }

  lemma InvokeKeepsInv(w: World, a: nat, t: Text)
    requires WorldInv(w) && Enabled(w, Invoke(a), t)
    ensures WorldInv(Next(w, Invoke(a), t))
  {
    hide DbInv, HasGrant, GrantedTo;
    var w' := Next(w, Invoke(a), t);
    GrantsRemain(w, w');
    assert HasGrant(w, a) by {
      HasOne(w, a, w.agents[a].id);
    }
  }

  lemma AskKeepsInv(w: World, a: nat, q: ClaimRequest)
    requires WorldInv(w) && a !in w.agents && a !in w.asked
    ensures WorldInv(w.(agents := w.agents[a := Asking(q)], asked := w.asked[a := q], inbox := w.inbox[a := {}]))
  {
    hide DbInv, HasGrant, GrantedTo, CallsSound;
    AskKeepsCalls(w, a, q);
    GrantsRemain(w, w.(agents := w.agents[a := Asking(q)], asked := w.asked[a := q], inbox := w.inbox[a := {}]));
  }

  lemma AskKeepsCalls(w: World, a: nat, q: ClaimRequest)
    requires CallsSound(w) && GrantsSound(w) && a !in w.agents && a !in w.asked
    ensures CallsSound(w.(agents := w.agents[a := Asking(q)], asked := w.asked[a := q], inbox := w.inbox[a := {}]))
    ensures forall i :: 0 <= i < |w.calls| ==> w.calls[i].agent != a
  {
    hide HasGrant, GrantedTo, RequestKey;
    GrantsRemain(w, w.(agents := w.agents[a := Asking(q)], asked := w.asked[a := q], inbox := w.inbox[a := {}]));
  }

  /** An agent moves to a phase in which it never calls, or takes a grant that was sent to it. */
  lemma MoveKeepsInv(w: World, a: nat, p: Phase)
    requires WorldInv(w)
    requires p == Skipped || p == Crashed
             || (a in w.agents && w.agents[a].Asking? && p.Holding? && p.request == w.agents[a].request && GrantedTo(w, a, p.id))
    ensures WorldInv(w.(agents := w.agents[a := p]))
  {
    hide DbInv, HasGrant, GrantedTo;
    GrantsRemain(w, w.(agents := w.agents[a := p]));
  }

  lemma DbPart(w: World)
    requires WorldInv(w)
    ensures DbInv(w.db)
  {
  }

  lemma Received(w: World, a: nat, id: string)
    requires WorldInv(w) && a in w.inbox && Granted(id) in w.inbox[a]
    ensures GrantedTo(w, a, id)
  {
  }

  lemma NextKeepsInv(w: World, st: Step, t: Text)
    requires WorldInv(w) && Enabled(w, st, t)
    ensures WorldInv(Next(w, st, t))
  {
    hide WorldInv, DbInv, AfterIngest, AfterPick, Extends, Precheck;
    assert DbInv(w.db) by {
      DbPart(w);
    }
    match st
    case Serve(a, id) => ServeKeepsInv(w, a, id, t);
    case Invoke(a) => InvokeKeepsInv(w, a, t);
    case PostRun(projectId, p) =>
      IngestKeepsInv(w.db, projectId, p, t);
      DbStepKeepsInv(w, AfterIngest(w.db, projectId, p, t));
    case Pick(v) =>
      PickKeepsInv(w.db, v);
      DbStepKeepsInv(w, AfterPick(w.db, v));
    case Start(a, l) =>
      if Precheck(l, t).Some? {
        AskKeepsInv(w, a, Precheck(l, t).value);
      } else {
        MoveKeepsInv(w, a, Skipped);
      }
    case Deliver(a, answer) =>
      if answer.Granted? {
        Received(w, a, answer.id);
        MoveKeepsInv(w, a, Holding(w.agents[a].request, answer.id));
      } else {
        MoveKeepsInv(w, a, Skipped);
      }
    case Lose(a) => MoveKeepsInv(w, a, Skipped);
    case Crash(a) => MoveKeepsInv(w, a, Crashed);
  }

  lemma {:induction false} RunKeepsInv(w: World, steps: seq<Step>, t: Text)
    requires WorldInv(w) && Possible(w, steps, t)
    ensures WorldInv(After(w, steps, t))
    decreases |steps|
  {
    if steps != [] {
      hide WorldInv;
      NextKeepsInv(w, steps[0], t);
      RunKeepsInv(Next(w, steps[0], t), steps[1..], t);
    }
  }

  /** In every history of any number of agents, with lost and repeated messages, crashes, repeated
      claims and re-picks, the model is called at most once per (project, build, stage). */
  lemma AtMostOnce(steps: seq<Step>, t: Text)
    requires Possible(EMPTY, steps, t)
    ensures var calls := After(EMPTY, steps, t).calls;
            forall i, j :: 0 <= i < j < |calls| ==> calls[i].key != calls[j].key
  {
    RunKeepsInv(EMPTY, steps, t);
    var w := After(EMPTY, steps, t);
    forall i, j | 0 <= i < j < |w.calls|
      ensures w.calls[i].key != w.calls[j].key
    {
      assert HasGrant(w, w.calls[i].agent) && HasGrant(w, w.calls[j].agent);
      var x :| GrantedTo(w, w.calls[i].agent, x);
      var y :| GrantedTo(w, w.calls[j].agent, y);
      assert KeyOf(w.db.claims[x]) == w.calls[i].key && KeyOf(w.db.claims[y]) == w.calls[j].key;
      assert x != y;
    }
  }

  /** An agent whose answer was lost, denied or unusable, or which crashed, never calls the model
      afterwards, whatever else happens. */
  lemma {:induction false} NeverAfterUncertainty(w: World, a: nat, steps: seq<Step>, t: Text)
    requires a in w.agents && (w.agents[a].Skipped? || w.agents[a].Crashed?)
    requires Possible(w, steps, t)
    ensures forall i :: |w.calls| <= i < |After(w, steps, t).calls| ==> After(w, steps, t).calls[i].agent != a
    ensures w.calls <= After(w, steps, t).calls
    decreases |steps|
  {
    if steps != [] {
      var w' := Next(w, steps[0], t);
      NeverAfterUncertainty(w', a, steps[1..], t);
    }
  }

  /** In every history: a stored diagnosis run never passes the gate; it carries failure evidence
      exactly when its revision configures diagnosis; and unless it was skipped, that evidence is
      a claim of the same project, revision, build and context which backs no other run. */
  lemma ClaimBackedHistory(steps: seq<Step>, t: Text, i: nat)
    requires Possible(EMPTY, steps, t) && i < |After(EMPTY, steps, t).db.runs|
    requires After(EMPTY, steps, t).db.runs[i].task == Some(FailureDiagnosis)
    ensures var db := After(EMPTY, steps, t).db;
            var run := db.runs[i];
            && run.gate == GateFail && run.result.Some? && run.revisionId.Some? && run.revisionId.value in db.revisions
            && (db.revisions[run.revisionId.value].configuration.diagnosis.Some? <==> run.result.value.failure.Some?)
            && (run.result.value.failure.Some? && run.result.value.execution != ExSkipped ==>
                  && Backed(db, run)
                  && forall j :: 0 <= j < |db.runs| && Backed(db, db.runs[j])
                                 && db.runs[j].result.value.failure.value.claimId == run.result.value.failure.value.claimId
                                 ==> j == i)
  {
    RunKeepsInv(EMPTY, steps, t);
    var db := After(EMPTY, steps, t).db;
    assert RunKept(db, db.runs[i]);
    forall j | 0 <= j < |db.runs| && Backed(db, db.runs[i]) && Backed(db, db.runs[j])
               && db.runs[j].result.value.failure.value.claimId == db.runs[i].result.value.failure.value.claimId
      ensures j == i
    {
      OneRunPerClaim(db, i, j);
    }
  }

  // ---------------------------------------------------------------- a failure is diagnosed

  /** An agent's view of a failure that the project's current revision configures for diagnosis: the build
      failed in that stage, outside the agent's own, with a status and a log. */
  predicate SeesFailure(db: Db, l: Local, t: Text) {
    && l.projectId in db.current && db.current[l.projectId] == l.revisionId && l.revisionId in db.revisions
    && db.revisions[l.revisionId].task == FailureDiagnosis && db.revisions[l.revisionId].id == l.revisionId
    && db.revisions[l.revisionId].configuration.diagnosis == Some(l.configured)
    && IsFailure(l.context, t) && l.context.stage == l.configured.stage && !l.agentStage && l.logReadable
  }

  /** A build that failed, by a command's exit status, and left a log. */
  predicate IsFailure(f: FailureContext, t: Text) {
    f.original == Failure && f.exitStatus != None && f.exitStatus != Some(0) && !t.blank(f.log)
  }

  /** No claim was made for this project, build and stage. */
  predicate Unclaimed(db: Db, projectId: int, f: FailureContext) {
    forall id :: id in db.claims ==>
      !(db.claims[id].projectId == projectId && db.claims[id].context.buildId == f.buildId
        && db.claims[id].context.stage == f.stage)
  }

  /** The steps by which a new agent has a failure diagnosed, when no message is lost. */
  function Diagnosing(a: nat, l: Local, id: string): seq<Step> {
    [Start(a, l), Serve(a, id), Deliver(a, Granted(id)), Invoke(a)]
  }

  /** A new agent that sees a configured failure which nobody claimed can have it diagnosed: the four steps
      are possible in turn, the model is called once more, for that failure, and its claim is stored. */
  lemma FailureIsDiagnosed(w: World, a: nat, l: Local, id: string, t: Text)
    requires a !in w.agents && a !in w.asked && id !in w.db.claims
    requires SeesFailure(w.db, l, t) && Unclaimed(w.db, l.projectId, l.context)
    ensures Possible(w, Diagnosing(a, l, id), t)
    ensures var w' := After(w, Diagnosing(a, l, id), t);
            && w'.calls == w.calls + [Call(a, ClaimKey(l.projectId, l.context.buildId, l.context.stage))]
            && w'.db.claims == w.db.claims[id := Claim(l.projectId, l.revisionId, l.context.(claimId := None))]
  {
    var start, serve, deliver, invoke := Start(a, l), Serve(a, id), Deliver(a, Granted(id)), Invoke(a);
    var q := ClaimRequest(l.projectId, l.revisionId, l.context.(claimId := None));
    AsksExactly(l, t);
    var w1 := Next(w, start, t);
    ServedFirst(w1, a, q, id, t);
    var w2 := Next(w1, serve, t);
    hide Precheck, AfterClaim, AnswerTo;
    var w3 := Next(w2, deliver, t);
    Onward(w3, [], invoke, t);
    Onward(w2, [invoke], deliver, t);
    Onward(w1, [deliver, invoke], serve, t);
    Onward(w, [serve, deliver, invoke], start, t);
    assert Diagnosing(a, l, id) == [start] + [serve, deliver, invoke];
    assert [serve] + [deliver, invoke] == [serve, deliver, invoke] && [deliver] + [invoke] == [deliver, invoke];
    assert [invoke] + [] == [invoke];
  }

  /** A claimable request that is the first for its failure is granted when it is served. */
  lemma ServedFirst(w: World, a: nat, q: ClaimRequest, id: string, t: Text)
    requires a in w.asked && w.asked[a] == q && id !in w.db.claims
    requires Claimable(w.db, q, t) && Unclaimed(w.db, q.projectId, q.failure)
    ensures var w' := Next(w, Serve(a, id), t);
            && a in w'.inbox && Granted(id) in w'.inbox[a] && w'.agents == w.agents && w'.calls == w.calls
            && w'.db.claims == w.db.claims[id := Claim(q.projectId, q.revisionId, q.failure.(claimId := None))]
  {
    hide Claimable;
    assert !Taken(w.db, RequestKey(q));
  }

  lemma Onward(w: World, rest: seq<Step>, st: Step, t: Text)
    requires Enabled(w, st, t) && Possible(Next(w, st, t), rest, t)
    ensures Possible(w, [st] + rest, t) && After(w, [st] + rest, t) == After(Next(w, st, t), rest, t)
  {
    assert ([st] + rest)[1..] == rest;
  }

  /** An agent asks for a claim exactly on such a view of its own, and then for that failure. */
  lemma AsksExactly(l: Local, t: Text)
    ensures Precheck(l, t).Some? <==>
              IsFailure(l.context, t) && l.context.stage == l.configured.stage && !l.agentStage && l.logReadable
    ensures Precheck(l, t).Some? ==>
              && Precheck(l, t).value.projectId == l.projectId && Precheck(l, t).value.revisionId == l.revisionId
              && Precheck(l, t).value.failure == l.context.(claimId := None)
  {
  }

  /** A claim was made for a failure of the stage that its revision configures. */
  ghost predicate ForFailure(db: Db, c: Claim, t: Text) {
    && IsFailure(c.context, t) && c.context.claimId == None && c.revisionId in db.revisions
    && db.revisions[c.revisionId].task == FailureDiagnosis && db.revisions[c.revisionId].configuration.diagnosis.Some?
    && db.revisions[c.revisionId].configuration.diagnosis.value.stage == c.context.stage
  }

  ghost predicate AllForFailures(db: Db, t: Text) {
    && (forall id :: id in db.revisions ==> db.revisions[id].id == id)
    && forall id :: id in db.claims ==> ForFailure(db, db.claims[id], t)
  }

  lemma ClaimIsForFailure(db: Db, q: ClaimRequest, t: Text)
    requires AllForFailures(db, t) && Claimable(db, q, t)
    ensures ForFailure(db, Claim(q.projectId, q.revisionId, q.failure.(claimId := None)), t)
  {
    ClaimableMeans(db, q, t);
    assert db.revisions[db.current[q.projectId]].id == db.current[q.projectId];
  }

  lemma NextKeepsFailures(w: World, st: Step, t: Text)
    requires AllForFailures(w.db, t) && Enabled(w, st, t)
    ensures AllForFailures(Next(w, st, t).db, t)
  {
    hide Ingestible, Taken, Claimable;
    var db := Next(w, st, t).db;
    if st.Serve? && Claimable(w.db, w.asked[st.agent], t) {
      ClaimIsForFailure(w.db, w.asked[st.agent], t);
    }
    assert forall id :: id in w.db.revisions ==> id in db.revisions && db.revisions[id] == w.db.revisions[id];
    forall id | id in db.claims
      ensures ForFailure(db, db.claims[id], t)
    {
      assert id in w.db.claims && db.claims[id] == w.db.claims[id] ==> ForFailure(w.db, w.db.claims[id], t);
    }
  }

  lemma {:induction false} RunKeepsFailures(w: World, steps: seq<Step>, t: Text)
    requires AllForFailures(w.db, t) && Possible(w, steps, t)
    ensures AllForFailures(After(w, steps, t).db, t)
    decreases |steps|
  {
    if steps != [] {
      hide AllForFailures;
      NextKeepsFailures(w, steps[0], t);
      RunKeepsFailures(Next(w, steps[0], t), steps[1..], t);
    }
  }

  /** In every history each call of the model was made for a claimed failure of a configured stage. */
  lemma CallsAreForFailures(steps: seq<Step>, t: Text, i: nat)
    requires Possible(EMPTY, steps, t) && i < |After(EMPTY, steps, t).calls|
    ensures var w := After(EMPTY, steps, t);
            exists id :: id in w.db.claims && KeyOf(w.db.claims[id]) == w.calls[i].key && ForFailure(w.db, w.db.claims[id], t)
  {
    hide ForFailure;
    RunKeepsInv(EMPTY, steps, t);
    RunKeepsFailures(EMPTY, steps, t);
    var w := After(EMPTY, steps, t);
    assert HasGrant(w, w.calls[i].agent);
    var id :| GrantedTo(w, w.calls[i].agent, id);
    assert id in w.db.claims && KeyOf(w.db.claims[id]) == w.calls[i].key;
  }

  // ---------------------------------------------------------------- a diagnosis is stored

  /** What an agent posts when it completed a diagnosis without proposing a patch. */
  function Diagnosed(v: Revision, f: FailureContext, r: Report, log: Artifact, u: RunnerUsage): Post {
    var result := TaskResult(ReportOnly, FailureDiagnosis, OpenCode, None, v.proposeFix, ExCompleted, None, NotRun,
                             Some(f.commit), None, Some(r), [log], [], Some(f), None, Some(u));
    Explicit(f.buildId, Envelope(0, OrZero(u.input), OrZero(u.output), u.cacheRead, v.modelId, GateFail, Some(v.id), result))
  }

  /** A complete diagnosis of a configured failure is stored exactly on the claim of that failure. */
  lemma DiagnosisIsStored(db: Db, v: Revision, f: FailureContext, r: Report, log: Artifact, u: RunnerUsage, t: Text)
    requires v.id in db.revisions && db.revisions[v.id] == v && v.id > 0 && BuildFree(db, v.projectId, f.buildId)
    requires v.task == FailureDiagnosis && v.mode == OpenCode && v.language == None && v.contractVersion == 1
    requires v.configuration.Valid() && v.configuration.diagnosis.Some? && v.configuration.diagnosis.value.stage == f.stage
    requires IsFailure(f, t) && f.log != "" && f.claimId.Some? && f.claimId.value != ""
    requires Present(r.uncertainty) && r.cause.Some? && r.nextSteps != [] && Present(r.noPatchReason) && r.evidence == ["failure-log"]
    requires log.Valid() && log.id == "failure-log" && log.kind == AOther && log.size <= v.configuration.resources.maxOutputBytes
    requires log.size == t.policy.logSize(f.log) && log.sha256 == t.policy.logDigest(f.log)
    requires u.Valid() && u.Complete() && u.attempts == 1 && u.provider == v.provider && u.profileVersion == v.runtimeVersion
    requires u.Spent() <= v.configuration.resources.maxTokens && u.completedSteps <= v.configuration.resources.maxIterations
    requires u.toolCalls <= v.configuration.resources.maxIterations
    ensures Ingestible(db, v.projectId, Diagnosed(v, f, r, log, u), t) <==>
              f.claimId.value in db.claims
              && db.claims[f.claimId.value] == Claim(v.projectId, v.id, f.(claimId := None))
  {
    hide RelativePath, BuildFree, Identifier;
    var e := Diagnosed(v, f, r, log, u).envelope;
    var res := e.result;
    assert Sizes([]) == 0 && [log][..0] == [] && Sizes([log]) == log.size;
    assert Summary([]) == NotRun;
    assert ProfileFor(res.task, res.mode, res.language, res.proposeFix).Some?;
    assert Consistent(res);
    assert CompletedDiagnosis(res, v.configuration, t.policy.logDigest, t.policy.logSize) by {
      assert res.artifacts[0] == log;
    }
    assert EnvelopeConsistent(e) && MatchesRevision(res, v, GateFail, t.policy);
    hide Consistent, EnvelopeConsistent, MatchesRevision, CompletedDiagnosis;
  }

  /** A report with an envelope is stored exactly for a new build, when it is consistent and matches a revision
      of the project whose model it names, and its failure, if it carries one, is that of the build and either
      was skipped before any attempt, without a claim, or is the one its claim was made for. */
  lemma ExplicitIsStored(db: Db, projectId: int, buildId: string, e: Envelope, t: Text)
    ensures Ingestible(db, projectId, Explicit(buildId, e), t) <==>
              && (forall i :: 0 <= i < |db.runs| ==> db.runs[i].projectId != projectId || db.runs[i].buildId != buildId)
              && Consistent(e.result) && EnvelopeConsistent(e)
              && e.revisionId.value in db.revisions && db.revisions[e.revisionId.value].projectId == projectId
              && (var v := db.revisions[e.revisionId.value];
                  && v.modelId == e.model && MatchesRevision(e.result, v, e.gate, t.policy)
                  && (e.result.failure != None ==>
                        && e.result.failure.value.buildId == buildId
                        && (if e.result.failure.value.claimId == None || e.result.failure.value.claimId == Some("")
                            then e.result.execution == ExSkipped
                                 && (e.result.runnerUsage != None ==> e.result.runnerUsage.value.attempts == 0)
                            else Backs(db, e.result.failure.value, projectId, v.id))))
  {
    hide Consistent, EnvelopeConsistent, MatchesRevision;
  }

  /** The claim a failure names was made by this project, on this revision, for this very failure. */
  predicate Backs(db: Db, f: FailureContext, projectId: int, revisionId: int)
    requires f.claimId.Some?
  {
    f.claimId.value in db.claims &&
    var c := db.claims[f.claimId.value];
    c.projectId == projectId && c.revisionId == revisionId && c.context == f.(claimId := None)
  }

  /** A report without an envelope is stored exactly for a new build, of a project without a revision, or
      of the reported revision of the project when its task takes such reports and its model is named. */
  lemma BareIsStored(db: Db, projectId: int, buildId: string, revisionId: Option<int>, model: string, gate: Gate, t: Text)
    ensures Ingestible(db, projectId, Bare(buildId, revisionId, model, gate), t) <==>
              && (forall i :: 0 <= i < |db.runs| ==> db.runs[i].projectId != projectId || db.runs[i].buildId != buildId)
              && (revisionId == None ==> projectId !in db.current)
              && (revisionId != None ==>
                    && revisionId.value in db.revisions && db.revisions[revisionId.value].projectId == projectId
                    && db.revisions[revisionId.value].modelId == model
                    && db.revisions[revisionId.value].task in {CiReview, SecurityAnalysis})
  {
  }
}
