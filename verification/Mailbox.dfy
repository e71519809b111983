/** The validation mailbox: one tool process inside the paused-and-resumed editor container and
    one launcher outside it, exchanging a request and a response file. Nonces are fresh. */
module Mailbox {
  import opened Prelude

  type Nonce = nat
  type Verdict = nat

  datatype Response = Response(nonce: Nonce, verdict: Verdict)

  /** The tool's synchronous call: idle, or polling for the answer to its own nonce. */
  datatype Tool = Idle | Waiting(nonce: Nonce)

  /** The launcher between two polls, holding a request it has read, or ended by an error. */
  datatype Launcher = Watching | Holding(nonce: Nonce) | Ended

  datatype Answer = Answer(asked: Nonce, got: Response)

  datatype State = State(
    request: Option<Nonce>, response: Option<Response>,
    tool: Tool, launcher: Launcher, seen: set<Nonce>,
    issued: set<Nonce>,              // every nonce the tool has drawn
    validated: seq<Response>,        // every validation the launcher has run, in order
    answers: seq<Answer>)            // every answer the tool has returned

  const EMPTY := State(None, None, Idle, Watching, {}, {}, [], [])

  datatype Step =
    | Call(nonce: Nonce)             // write and rename the request, unless one is pending
    | Collect                        // poll: read a response and return it when it is ours
    | GiveUp                         // the tool's deadline passed
    | ReadRequest                    // the launcher sees the request file
    | Validate(verdict: Verdict)     // pause, validate, replace the response, resume
    | Abort                          // a validation or control command failed

  /** What can happen next. The container is paused while a validation runs, so `Validate` is
      one step; reading the request and pausing the container are not. */
  predicate Enabled(s: State, st: Step) {
    match st
    case Call(n) => s.tool.Idle? && n !in s.issued
    case Collect => s.tool.Waiting? && s.response.Some?
    case GiveUp => s.tool.Waiting?
    case ReadRequest => s.launcher.Watching? && s.request.Some?
    case Validate(_) => s.launcher.Holding?
    case Abort => s.launcher.Holding?
  }

  function Next(s: State, st: Step, limit: nat): State
    requires Enabled(s, st)
  {
    match st
    case Call(n) =>
      if s.request.Some? then s.(issued := s.issued + {n})
      else s.(request := Some(n), tool := Waiting(n), issued := s.issued + {n})
    case Collect =>
      if s.response.value.nonce != s.tool.nonce then s
      else s.(response := None, request := None, tool := Idle,
              answers := s.answers + [Answer(s.tool.nonce, s.response.value)])
    case GiveUp => s.(request := None, tool := Idle)
    case ReadRequest =>
      if s.request.value in s.seen then s
      else if |s.seen| >= limit then s.(launcher := Ended)
      else s.(seen := s.seen + {s.request.value}, launcher := Holding(s.request.value))
    case Validate(v) =>
      s.(response := Some(Response(s.launcher.nonce, v)), launcher := Watching,
         validated := s.validated + [Response(s.launcher.nonce, v)])
    case Abort => s.(launcher := Ended)
  }

  ghost predicate Possible(s: State, steps: seq<Step>, limit: nat)
    decreases |steps|
  {
    steps == [] || (Enabled(s, steps[0]) && Possible(Next(s, steps[0], limit), steps[1..], limit))
  }

  function After(s: State, steps: seq<Step>, limit: nat): State
    requires Possible(s, steps, limit)
    decreases |steps|
  {
    if steps == [] then s else After(Next(s, steps[0], limit), steps[1..], limit)
  }

  ghost predicate Distinct(validated: seq<Response>) {
    forall i, j :: 0 <= i < j < |validated| ==> validated[i].nonce != validated[j].nonce
  }

  ghost predicate Validated(s: State, r: Response) {
    r in s.validated
  }

  ghost predicate Inv(s: State, limit: nat) {
    && s.seen <= s.issued && |s.seen| <= limit
    // the pending request is the one the tool waits for
    && (s.request.Some? <==> s.tool.Waiting?)
    && (s.tool.Waiting? ==> s.request == Some(s.tool.nonce) && s.tool.nonce in s.issued)
    // what was validated was seen, once; a request being held has not been validated yet
    && Distinct(s.validated) && |s.validated| <= |s.seen|
    && (forall i :: 0 <= i < |s.validated| ==> s.validated[i].nonce in s.seen)
    && (s.launcher.Holding? ==>
          && s.launcher.nonce in s.seen && |s.validated| < |s.seen|
          && forall i :: 0 <= i < |s.validated| ==> s.validated[i].nonce != s.launcher.nonce)
    // a response on disk is a validation that was run, and the latest one
    && (s.response.Some? ==> s.validated != [] && s.response.value == s.validated[|s.validated| - 1])
    && (s.launcher.Holding? && s.response.Some? && s.tool.Waiting? ==> s.response.value.nonce != s.tool.nonce)
    // answers are validations of their own nonce, none given twice
    && (forall i :: 0 <= i < |s.answers| ==> s.answers[i].got.nonce == s.answers[i].asked && s.answers[i].got in s.validated)
    && (forall i :: 0 <= i < |s.answers| ==> s.tool.Waiting? ==> s.answers[i].asked != s.tool.nonce)
    && (forall i :: 0 <= i < |s.answers| ==> s.answers[i].asked in s.issued)
    && (forall i, j :: 0 <= i < j < |s.answers| ==> s.answers[i].asked != s.answers[j].asked)
    // no reply is lost: a seen pending request is being held, answered on disk, or the launcher ended
    && (s.tool.Waiting? && s.tool.nonce in s.seen && !s.launcher.Ended? ==>
          s.launcher == Holding(s.tool.nonce) || (s.response.Some? && s.response.value.nonce == s.tool.nonce))
  }

  lemma CallKeepsInv(s: State, n: Nonce, limit: nat)
    requires Inv(s, limit) && Enabled(s, Call(n))
    ensures Inv(Next(s, Call(n), limit), limit)
  {
  }

  lemma CollectKeepsInv(s: State, limit: nat)
    requires Inv(s, limit) && Enabled(s, Collect)
    ensures Inv(Next(s, Collect, limit), limit)
  {
  }

  lemma ReadKeepsInv(s: State, limit: nat)
    requires Inv(s, limit) && Enabled(s, ReadRequest)
    ensures Inv(Next(s, ReadRequest, limit), limit)
  {
    var s' := Next(s, ReadRequest, limit);
    if s.request.value !in s.seen && |s.seen| < limit {
      assert |s'.seen| == |s.seen| + 1;
    }
  }

  lemma ValidateKeepsInv(s: State, v: Verdict, limit: nat)
    requires Inv(s, limit) && Enabled(s, Validate(v))
    ensures Inv(Next(s, Validate(v), limit), limit)
  {
    var s' := Next(s, Validate(v), limit);
    forall i | 0 <= i < |s'.answers|
      ensures s'.answers[i].got in s'.validated
    {
      assert s.answers[i].got in s.validated;
    }
  }

  lemma NextKeepsInv(s: State, st: Step, limit: nat)
    requires Inv(s, limit) && Enabled(s, st)
    ensures Inv(Next(s, st, limit), limit)
  {
    match st
    case Call(n) => CallKeepsInv(s, n, limit);
    case Collect => CollectKeepsInv(s, limit);
    case GiveUp =>
    case ReadRequest => ReadKeepsInv(s, limit);
    case Validate(v) => ValidateKeepsInv(s, v, limit);
    case Abort =>
  }

  lemma {:induction false} RunKeepsInv(s: State, steps: seq<Step>, limit: nat)
    requires Inv(s, limit) && Possible(s, steps, limit)
    ensures Inv(After(s, steps, limit), limit)
    decreases |steps|
  {
    if steps != [] {
      hide Inv;
      NextKeepsInv(s, steps[0], limit);
      RunKeepsInv(Next(s, steps[0], limit), steps[1..], limit);
    }
  }

  /** For every interleaving from the empty mailbox, with tool timeouts and stale responses:
      an answer carries its own request's nonce and is a validation that was run for it, each
      nonce is validated and answered at most once, validations stay within the step limit, and
      a request the launcher has taken is still being worked on or has its answer waiting. */
  lemma MailboxIsSafe(steps: seq<Step>, limit: nat)
    requires Possible(EMPTY, steps, limit)
    ensures var s := After(EMPTY, steps, limit);
            && |s.validated| <= limit && Distinct(s.validated)
            && (forall i :: 0 <= i < |s.answers| ==>
                  s.answers[i].got.nonce == s.answers[i].asked && Validated(s, s.answers[i].got))
            && (forall i, j :: 0 <= i < j < |s.answers| ==> s.answers[i].asked != s.answers[j].asked)
            && (s.tool.Waiting? && s.tool.nonce in s.seen && !s.launcher.Ended? ==>
                  s.launcher == Holding(s.tool.nonce) || (s.response.Some? && s.response.value.nonce == s.tool.nonce))
  {
    RunKeepsInv(EMPTY, steps, limit);
  }

  /** A response never overwrites the answer the tool is waiting for: once it is on disk it stays
      until the tool collects it or gives up. */
  lemma AnswerIsNotOverwritten(steps: seq<Step>, st: Step, limit: nat)
    requires Possible(EMPTY, steps, limit)
    requires var s := After(EMPTY, steps, limit);
             Enabled(s, st) && s.tool.Waiting? && s.response.Some? && s.response.value.nonce == s.tool.nonce
    ensures var s := After(EMPTY, steps, limit);
            var s' := Next(s, st, limit);
            if st == Collect then s'.answers == s.answers + [Answer(s.tool.nonce, s.response.value)]
            else st == GiveUp || (s'.tool == s.tool && s'.response == s.response)
  {
    RunKeepsInv(EMPTY, steps, limit);
  }

  // ---------------------------------------------------------------- progress

  /** One step, then the others. */
  lemma Onward(s: State, st: Step, rest: seq<Step>, limit: nat)
    requires Enabled(s, st) && Possible(Next(s, st, limit), rest, limit)
    ensures Possible(s, [st] + rest, limit) && After(s, [st] + rest, limit) == After(Next(s, st, limit), rest, limit)
  {
    assert ([st] + rest)[1..] == rest;
  }

  /** Below the step limit a new request is taken, validated and answered: from every reachable state with
      an idle tool and a watching launcher the four steps are possible in turn, and give the tool the
      verdict of its own request. At the limit the launcher ends instead. */
  lemma RequestIsAnswered(steps: seq<Step>, n: Nonce, v: Verdict, limit: nat)
    requires Possible(EMPTY, steps, limit)
    requires var s := After(EMPTY, steps, limit); s.tool.Idle? && s.launcher.Watching? && n !in s.issued
    ensures var s := After(EMPTY, steps, limit);
            if |s.seen| < limit then
              var more := [Call(n), ReadRequest, Validate(v), Collect];
              && Possible(s, more, limit)
              && After(s, more, limit).validated == s.validated + [Response(n, v)]
              && After(s, more, limit).answers == s.answers + [Answer(n, Response(n, v))]
              && After(s, more, limit).tool.Idle? && After(s, more, limit).launcher.Watching?
            else
              Possible(s, [Call(n), ReadRequest], limit) && After(s, [Call(n), ReadRequest], limit).launcher.Ended?
  {
    RunKeepsInv(EMPTY, steps, limit);
    var s := After(EMPTY, steps, limit);
    assert s.request.None? && n !in s.seen;
    var s1 := Next(s, Call(n), limit);
    var s2 := Next(s1, ReadRequest, limit);
    if |s.seen| < limit {
      var s3 := Next(s2, Validate(v), limit);
      Onward(s3, Collect, [], limit);
      Onward(s2, Validate(v), [Collect], limit);
      Onward(s1, ReadRequest, [Validate(v), Collect], limit);
      Onward(s, Call(n), [ReadRequest, Validate(v), Collect], limit);
      assert [Collect] + [] == [Collect] && [Validate(v)] + [Collect] == [Validate(v), Collect];
      assert [ReadRequest] + [Validate(v), Collect] == [ReadRequest, Validate(v), Collect];
      assert [Call(n)] + [ReadRequest, Validate(v), Collect] == [Call(n), ReadRequest, Validate(v), Collect];
    } else {
      Onward(s1, ReadRequest, [], limit);
      Onward(s, Call(n), [ReadRequest], limit);
      assert [ReadRequest] + [] == [ReadRequest] && [Call(n)] + [ReadRequest] == [Call(n), ReadRequest];
    }
  }

  /** The launcher ends only when a validation fails or a new request comes at the limit; a request that it
      has answered may be read again, for as long as the tool has not collected the answer. */
  lemma LauncherEnds(s: State, st: Step, limit: nat)
    requires Enabled(s, st) && !s.launcher.Ended?
    ensures Next(s, st, limit).launcher.Ended? <==>
              st == Abort || (st == ReadRequest && s.request.value !in s.seen && |s.seen| >= limit)
    ensures st == ReadRequest && s.request.value in s.seen ==> Next(s, st, limit) == s
  {
  }

  // ---------------------------------------------------------------- the two processes

  /** What one poll of the tool returns: nothing yet, its answer, or that it gave up. */
  datatype Poll = Pending | Replied(response: Response) | Unavailable

  /** The shared directory with the local variables of the tool and of the launcher. */
  class Bridge {
    const limit: nat
    var request: Option<Nonce>
    var response: Option<Response>
    var tool: Tool
    var launcher: Launcher
    var seen: set<Nonce>
    ghost var issued: set<Nonce>
    ghost var validated: seq<Response>
    ghost var answers: seq<Answer>

    ghost function Now(): State
      reads this
    {
      State(request, response, tool, launcher, seen, issued, validated, answers)
    }

    constructor (limit: nat)
      ensures this.limit == limit && Now() == EMPTY
    {
      this.limit := limit;
      request, response, tool, launcher, seen := None, None, Idle, Watching, {};
      issued, validated, answers := {}, [], [];
    }

    /** Open a request with a fresh nonce, unless one is already pending. */
    method RequestValidation(n: Nonce) returns (created: bool)
      requires Enabled(Now(), Call(n))
      modifies this
      ensures Now() == Next(old(Now()), Call(n), limit) && (created <==> tool == Waiting(n))
      ensures created <==> old(request).None?
      ensures if created then request == Some(n) else request == old(request) && tool == old(tool)
    {
      issued := issued + {n};
      if request.Some? {
        return false;
      }
      request, tool := Some(n), Waiting(n);
      created := true;
    }

    /** One turn of the polling loop; a response to another nonce is left where it is. */
    method PollOnce(expired: bool) returns (p: Poll)
      requires tool.Waiting?
      modifies this
      ensures p.Unavailable? ==> Now() == Next(old(Now()), GiveUp, limit)
      ensures p.Replied? ==> old(response) == Some(p.response) && Now() == Next(old(Now()), Collect, limit)
      ensures p.Pending? ==> Now() == old(Now())
      ensures p.Replied? <==> !expired && old(response).Some? && old(response).value.nonce == old(tool.nonce)
      ensures p.Unavailable? <==> expired
      // an answer is taken away with its request; giving up withdraws the request alone
      ensures p.Replied? ==> response == None && request == None && tool == Idle
      ensures p.Unavailable? ==> response == old(response) && request == None && tool == Idle
    {
      if expired {
        request, tool := None, Idle;
        return Unavailable;
      }
      if response.Some? && response.value.nonce == tool.nonce {
        p := Replied(response.value);
        answers := answers + [Answer(tool.nonce, response.value)];
        response := None;
        request, tool := None, Idle;
      } else {
        p := Pending;
      }
    }

    /** The launcher's poll: take a request it has not seen, or end at the step ceiling. */
    method TakeRequest()
      requires Enabled(Now(), ReadRequest)
      modifies this
      ensures Now() == Next(old(Now()), ReadRequest, limit)
      // a request that was seen before is left alone, however often it is read
      ensures old(request.value) in old(seen) ==> Now() == old(Now())
      ensures old(request.value) !in old(seen) ==>
                if |old(seen)| < limit then launcher == Holding(old(request.value)) && seen == old(seen) + {old(request.value)}
                else launcher == Ended && seen == old(seen)
    {
      if request.value in seen {
        return;
      }
      if |seen| >= limit {
        launcher := Ended;
        return;
      }
      seen := seen + {request.value};
      launcher := Holding(request.value);
    }

    /** Validate while the container is paused, and replace the response file. */
    method Reply(verdict: Option<Verdict>)
      requires launcher.Holding?
      modifies this
      ensures Now() == Next(old(Now()), if verdict.Some? then Validate(verdict.value) else Abort, limit)
      ensures if verdict == None then launcher == Ended && response == old(response)
              else launcher == Watching && response == Some(Response(old(launcher.nonce), verdict.value))
    {
      if verdict.None? {
        launcher := Ended;
        return;
      }
      var r := Response(launcher.nonce, verdict.value);
      response, launcher := Some(r), Watching;
      validated := validated + [r];
    }
  }
}
