/** The attempt loop of the legacy security task: several runs of the agent share one token ceiling
    and one step ceiling, checked after every event. */
module AttemptLoop {
  import opened Prelude

  // ---------------------------------------------------------------- one attempt

  /** One event of the agent: the billable tokens it reports if it finishes a step, and whether the
      clock has run out when it is handled. Reported numbers are not checked, so they may be negative. */
  datatype Event = Event(step: Option<int>, late: bool)

  /** Everything the environment decides in one attempt. */
  datatype Run = Run(events: seq<Event>, hangs: bool, died: bool, refused: bool, parsed: bool)

  /** The ceilings handed to one attempt. */
  datatype Budget = Budget(tokens: int, steps: int)

  datatype Streamed = Streamed(billable: int, steps: nat, tripped: bool)

  const NOTHING := Streamed(0, 0, false)

  function OnEvent(u: Streamed, e: Event, b: Budget): Streamed {
    var billable := u.billable + (if e.step.Some? then e.step.value else 0);
    var steps := u.steps + (if e.step.Some? then 1 else 0);
    Streamed(billable, steps, billable > b.tokens || steps > b.steps || e.late)
  }

  /** The events up to and including the one that trips a ceiling. */
  function Consumed(u: Streamed, events: seq<Event>, b: Budget): Streamed
    decreases |events|
  {
    if events == [] || u.tripped then u else Consumed(OnEvent(u, events[0], b), events[1..], b)
  }

  function Streaming(r: Run, b: Budget): Streamed {
    var u := Consumed(NOTHING, r.events, b);
    u.(tripped := u.tripped || r.hangs)
  }

  /** `stream_opencode`: the ceilings are checked after every event. */
  method StreamOpencode(r: Run, b: Budget) returns (u: Streamed)
    ensures u == Streaming(r, b)
  {
    u := NOTHING;
    var i := 0;
    while i < |r.events| && !u.tripped
      invariant i <= |r.events| && Consumed(u, r.events[i..], b) == Consumed(NOTHING, r.events, b)
    {
      var e := r.events[i];
      if e.step.Some? {
        u := u.(billable := u.billable + e.step.value, steps := u.steps + 1);
      }
      u := u.(tripped := u.billable > b.tokens || u.steps > b.steps || e.late);
      i := i + 1;
    }
    if !u.tripped {
      u := u.(tripped := r.hangs);
    }
  }

  /** Kept after every event: within the budget, or tripped with one report beyond it. */
  ghost predicate Metered(u: Streamed, b: Budget, most: nat) {
    && (!u.tripped ==> u.billable <= b.tokens && u.steps <= b.steps)
    && u.billable <= b.tokens + most && u.steps <= b.steps + 1
  }

  lemma {:induction false} ConsumedIsMetered(u: Streamed, events: seq<Event>, b: Budget, most: nat)
    requires Metered(u, b, most)
    requires forall i :: 0 <= i < |events| && events[i].step.Some? ==> events[i].step.value <= most
    ensures Metered(Consumed(u, events, b), b, most)
    decreases |events|
  {
    if events != [] && !u.tripped {
      ConsumedIsMetered(OnEvent(u, events[0], b), events[1..], b, most);
    }
  }

  lemma {:induction false} LargestReport(events: seq<Event>) returns (most: nat)
    ensures forall i :: 0 <= i < |events| && events[i].step.Some? ==> events[i].step.value <= most
  {
    most := 0;
    if events != [] {
      var rest := LargestReport(events[1..]);
      most := Max(rest, if events[0].step.Some? then events[0].step.value else 0);
      forall i | 0 <= i < |events| && events[i].step.Some?
        ensures events[i].step.value <= most
      {
        if i > 0 {
          assert events[1..][i - 1] == events[i];
        }
      }
    }
  }

  /** An attempt that is not stopped stays within its budget; one that is stopped has passed it by
      one step and that step's report at most. */
  lemma AttemptStaysWithin(r: Run, b: Budget, most: nat)
    requires b.tokens >= 0 && b.steps >= 0
    requires forall i :: 0 <= i < |r.events| && r.events[i].step.Some? ==> r.events[i].step.value <= most
    ensures var u := Streaming(r, b);
            && (!u.tripped ==> u.billable <= b.tokens && u.steps <= b.steps)
            && u.billable <= b.tokens + most && u.steps <= b.steps + 1
  {
    ConsumedIsMetered(NOTHING, r.events, b, most);
  }

  lemma Untripped(r: Run, b: Budget)
    requires b.tokens >= 0 && b.steps >= 0 && !Streaming(r, b).tripped
    ensures Streaming(r, b).billable <= b.tokens && Streaming(r, b).steps <= b.steps
  {
    var most := LargestReport(r.events);
    AttemptStaysWithin(r, b, most);
  }

  // ---------------------------------------------------------------- when an attempt is stopped

  /** The tokens that events report, and the steps they finish. */
  function TokensIn(events: seq<Event>): int {
    if events == [] then 0
    else TokensIn(events[..|events| - 1]) + if events[|events| - 1].step.Some? then events[|events| - 1].step.value else 0
  }

  function StepsIn(events: seq<Event>): nat {
    if events == [] then 0 else StepsIn(events[..|events| - 1]) + if events[|events| - 1].step.Some? then 1 else 0
  }

  /** At the k-th event the clock has not run out, and tokens and steps so far are within the budget. */
  predicate InTimeAndWithin(events: seq<Event>, k: nat, b: Budget)
    requires 0 < k <= |events|
  {
    !events[k - 1].late && TokensIn(events[..k]) <= b.tokens && StepsIn(events[..k]) <= b.steps
  }

  lemma {:induction false} ConsumedSnoc(u: Streamed, events: seq<Event>, e: Event, b: Budget)
    ensures var v := Consumed(u, events, b);
            Consumed(u, events + [e], b) == if v.tripped then v else OnEvent(v, e, b)
    decreases |events|
  {
    hide OnEvent;
    if events == [] {
      assert events + [e] == [e] && [e][1..] == [];
      assert Consumed(OnEvent(u, e, b), [], b) == OnEvent(u, e, b);
    } else if !u.tripped {
      assert (events + [e])[0] == events[0] && (events + [e])[1..] == events[1..] + [e];
      ConsumedSnoc(OnEvent(u, events[0], b), events[1..], e, b);
    }
  }

  /** Nothing has tripped a ceiling exactly while every event was in time and within the budget. */
  lemma {:induction false} ConsumedExactly(events: seq<Event>, b: Budget)
    ensures var u := Consumed(NOTHING, events, b);
            && (!u.tripped <==> forall k :: 0 < k <= |events| ==> InTimeAndWithin(events, k, b))
            && (!u.tripped ==> u.billable == TokensIn(events) && u.steps == StepsIn(events))
            && (u.tripped ==> exists k :: 0 < k <= |events| && u.billable == TokensIn(events[..k]) && u.steps == StepsIn(events[..k])
                                          && !InTimeAndWithin(events, k, b)
                                          && forall m :: 0 < m < k ==> InTimeAndWithin(events, m, b))
    decreases |events|
  {
    if events != [] {
      var n := |events| - 1;
      var before := events[..n];
      assert events == before + [events[n]];
      ConsumedExactly(before, b);
      ConsumedSnoc(NOTHING, before, events[n], b);
      forall k | 0 < k <= n
        ensures InTimeAndWithin(events, k, b) <==> InTimeAndWithin(before, k, b)
        ensures events[..k] == before[..k]
      {
        assert events[..k] == before[..k];
      }
      assert events[..n + 1] == events;
      var v := Consumed(NOTHING, before, b);
      if v.tripped {
        var k :| 0 < k <= n && v.billable == TokensIn(before[..k]) && v.steps == StepsIn(before[..k])
                 && !InTimeAndWithin(before, k, b) && forall m :: 0 < m < k ==> InTimeAndWithin(before, m, b);
        assert events[..k] == before[..k] && !InTimeAndWithin(events, k, b);
      } else {
        assert InTimeAndWithin(events, n + 1, b) <==> !Consumed(NOTHING, events, b).tripped;
      }
    }
  }

  /** An attempt goes unstopped exactly when it does not hang and every event is in time and leaves tokens
      and steps within the budget; it then used what its events report. One that is stopped used what was
      reported up to the first event that was not. */
  lemma StoppedExactly(r: Run, b: Budget)
    ensures var u := Streaming(r, b);
            && (!u.tripped <==> !r.hangs && forall k :: 0 < k <= |r.events| ==> InTimeAndWithin(r.events, k, b))
            && (!u.tripped ==> u.billable == TokensIn(r.events) && u.steps == StepsIn(r.events))
            && (u.tripped && (exists k :: 0 < k <= |r.events| && !InTimeAndWithin(r.events, k, b)) ==>
                  exists k :: 0 < k <= |r.events| && !InTimeAndWithin(r.events, k, b)
                              && u.billable == TokensIn(r.events[..k]) && u.steps == StepsIn(r.events[..k])
                              && forall m :: 0 < m < k ==> InTimeAndWithin(r.events, m, b))
  {
    hide Consumed, InTimeAndWithin;
    ConsumedExactly(r.events, b);
  }

  // ---------------------------------------------------------------- the attempt loop

  datatype Outcome = CeilingTripped | ProviderFailed | Refused | Unparseable | Findings

  /** What is left of the shared ceilings, but at least 1 of each. */
  function Left(ceiling: Budget, used: Streamed): Budget {
    Budget(Max(1, ceiling.tokens - used.billable), Max(1, ceiling.steps - used.steps))
  }

  /** What the first `n` attempts used together; `tripped` is about the last of them. */
  function Totals(runs: seq<Run>, n: nat, ceiling: Budget): Streamed
    requires n <= |runs|
  {
    if n == 0 then NOTHING
    else
      var before := Totals(runs, n - 1, ceiling);
      var u := Streaming(runs[n - 1], Left(ceiling, before));
      Streamed(before.billable + u.billable, before.steps + u.steps, u.tripped)
  }

  /** The n-th attempt is one after which the loop tries again. */
  predicate Retried(runs: seq<Run>, n: nat, ceiling: Budget)
    requires 1 <= n <= |runs|
  {
    var r := runs[n - 1];
    !Totals(runs, n, ceiling).tripped && !r.died && (r.refused || !r.parsed)
  }

  /** What the n-th attempt used. */
  function AttemptAt(runs: seq<Run>, n: nat, ceiling: Budget): Streamed
    requires n < |runs|
  {
    Streaming(runs[n], Left(ceiling, Totals(runs, n, ceiling)))
  }

  /** The totals never pass the token ceiling, after any of the first n attempts. */
  predicate TokensKept(runs: seq<Run>, n: nat, ceiling: Budget)
    requires n <= |runs|
  {
    forall k :: 0 <= k <= n ==> Totals(runs, k, ceiling).billable <= ceiling.tokens
  }

  predicate StepsKept(runs: seq<Run>, n: nat, ceiling: Budget)
    requires n <= |runs|
  {
    Totals(runs, n, ceiling).steps <= ceiling.steps
  }

  /** An attempt that begins with the token ceiling used up reports nothing. */
  predicate NoTokensPast(runs: seq<Run>, n: nat, ceiling: Budget)
    requires n <= |runs|
  {
    forall k :: 0 <= k < n && Totals(runs, k, ceiling).billable >= ceiling.tokens ==> AttemptAt(runs, k, ceiling).billable <= 0
  }

  predicate NoStepsPast(runs: seq<Run>, n: nat, ceiling: Budget)
    requires n <= |runs|
  {
    forall k :: 0 <= k < n && Totals(runs, k, ceiling).steps >= ceiling.steps ==> AttemptAt(runs, k, ceiling).steps == 0
  }

  /** None of the first n attempts was stopped at a ceiling. */
  predicate Unstopped(runs: seq<Run>, n: nat, ceiling: Budget)
    requires n <= |runs|
  {
    forall k :: 0 < k <= n ==> !Totals(runs, k, ceiling).tripped
  }

  /** Each attempt is given what the earlier ones left of each ceiling, but at least one; what it used is
      added to what they used. */
  lemma AttemptsShare(runs: seq<Run>, n: nat, ceiling: Budget)
    requires n < |runs|
    ensures var before, u := Totals(runs, n, ceiling), AttemptAt(runs, n, ceiling);
            var left := Budget(if ceiling.tokens - before.billable > 1 then ceiling.tokens - before.billable else 1,
                               if ceiling.steps - before.steps > 1 then ceiling.steps - before.steps else 1);
            && u == Streaming(runs[n], left)
            && Totals(runs, n + 1, ceiling) == Streamed(before.billable + u.billable, before.steps + u.steps, u.tripped)
            && Totals(runs, 0, ceiling) == Streamed(0, 0, false)
  {
  }

  /** An attempt that trips nothing stays within what was left, but at least one token and one step. */
  lemma OneAttempt(runs: seq<Run>, n: nat, ceiling: Budget)
    requires n < |runs| && !Totals(runs, n + 1, ceiling).tripped
    ensures Totals(runs, n + 1, ceiling).billable == Totals(runs, n, ceiling).billable + AttemptAt(runs, n, ceiling).billable
    ensures Totals(runs, n + 1, ceiling).steps == Totals(runs, n, ceiling).steps + AttemptAt(runs, n, ceiling).steps
    ensures AttemptAt(runs, n, ceiling).billable <= Max(1, ceiling.tokens - Totals(runs, n, ceiling).billable)
    ensures AttemptAt(runs, n, ceiling).steps <= Max(1, ceiling.steps - Totals(runs, n, ceiling).steps)
    ensures Totals(runs, n + 1, ceiling).billable <= Max(ceiling.tokens, Totals(runs, n, ceiling).billable + 1)
    ensures Totals(runs, n + 1, ceiling).steps <= Max(ceiling.steps, Totals(runs, n, ceiling).steps + 1)
  {
    Untripped(runs[n], Left(ceiling, Totals(runs, n, ceiling)));
  }

  /** The shared token ceiling holds after every attempt if and only if each attempt that begins with
      it used up reports no tokens; and the step ceiling likewise. Reports may be negative. */
  lemma {:induction false} CeilingsHoldExactly(runs: seq<Run>, n: nat, ceiling: Budget)
    requires n <= |runs| && ceiling.tokens >= 0 && ceiling.steps >= 0 && Unstopped(runs, n, ceiling)
    ensures TokensKept(runs, n, ceiling) <==> NoTokensPast(runs, n, ceiling)
    ensures StepsKept(runs, n, ceiling) <==> NoStepsPast(runs, n, ceiling)
  {
    hide Totals, AttemptAt;
    NoAttempt(runs, ceiling);
    if n > 0 {
      CeilingsHoldExactly(runs, n - 1, ceiling);
      OneAttempt(runs, n - 1, ceiling);
      var before := Totals(runs, n - 1, ceiling);
      assert TokensKept(runs, n, ceiling)
        <==> TokensKept(runs, n - 1, ceiling) && Totals(runs, n, ceiling).billable <= ceiling.tokens;
      assert NoTokensPast(runs, n, ceiling)
        <==> NoTokensPast(runs, n - 1, ceiling)
             && (before.billable >= ceiling.tokens ==> AttemptAt(runs, n - 1, ceiling).billable <= 0);
      assert NoStepsPast(runs, n, ceiling)
        <==> NoStepsPast(runs, n - 1, ceiling)
             && (before.steps >= ceiling.steps ==> AttemptAt(runs, n - 1, ceiling).steps == 0);
    }
  }

  lemma NoAttempt(runs: seq<Run>, ceiling: Budget)
    ensures Totals(runs, 0, ceiling) == NOTHING
  {
  }

  /** With reports that are never negative the ceiling held after every attempt iff it held at the end. */
  lemma {:induction false} TotalsOnlyGrow(runs: seq<Run>, n: nat, ceiling: Budget)
    requires n <= |runs| && forall k :: 0 <= k < n ==> AttemptAt(runs, k, ceiling).billable >= 0
    ensures TokensKept(runs, n, ceiling) <==> Totals(runs, n, ceiling).billable <= ceiling.tokens
    ensures forall k :: 0 <= k <= n ==> Totals(runs, k, ceiling).billable <= Totals(runs, n, ceiling).billable
  {
    if n > 0 {
      TotalsOnlyGrow(runs, n - 1, ceiling);
      assert Totals(runs, n, ceiling).billable
        == Totals(runs, n - 1, ceiling).billable + AttemptAt(runs, n - 1, ceiling).billable;
    }
  }

  /** ... so with such reports what the attempts used together is within the token ceiling if and only if
      each attempt that begins with it used up reports nothing. */
  lemma TotalIsWithinExactly(runs: seq<Run>, n: nat, ceiling: Budget)
    requires n <= |runs| && ceiling.tokens >= 0 && ceiling.steps >= 0 && Unstopped(runs, n, ceiling)
    requires forall k :: 0 <= k < n ==> AttemptAt(runs, k, ceiling).billable >= 0
    ensures Totals(runs, n, ceiling).billable <= ceiling.tokens <==> NoTokensPast(runs, n, ceiling)
  {
    hide Totals, AttemptAt;
    CeilingsHoldExactly(runs, n, ceiling);
    TotalsOnlyGrow(runs, n, ceiling);
  }

  /** Attempts that each begin with room left under both ceilings stay within both. */
  lemma RoomLeftIsEnough(runs: seq<Run>, n: nat, ceiling: Budget)
    requires n <= |runs| && ceiling.tokens >= 0 && ceiling.steps >= 0 && Unstopped(runs, n, ceiling)
    requires forall k :: 0 <= k < n ==>
               Totals(runs, k, ceiling).billable < ceiling.tokens && Totals(runs, k, ceiling).steps < ceiling.steps
    ensures TokensKept(runs, n, ceiling) && StepsKept(runs, n, ceiling)
  {
    hide Totals, AttemptAt;
    CeilingsHoldExactly(runs, n, ceiling);
  }

  /** `run_security`: `made` attempts were made and all that they used is counted; only an attempt
      that answered, did not refuse and parsed yields findings. The shared ceilings are passed by
      at most one token and one step for each attempt after the first. */
  method RunSecurity(runs: seq<Run>, maxAttempts: nat, ceiling: Budget)
    returns (outcome: Outcome, made: nat, total: Streamed)
    requires |runs| >= Max(1, maxAttempts) && ceiling.tokens >= 1 && ceiling.steps >= 1
    ensures 1 <= made <= Max(1, maxAttempts) && total == Totals(runs, made, ceiling)
    ensures forall n :: 1 <= n < made ==> Retried(runs, n, ceiling)
    ensures made < Max(1, maxAttempts) ==> !Retried(runs, made, ceiling)
    // an attempt is retried when it answered and its answer was a refusal or did not parse, and only then
    ensures forall n :: 0 <= n < made - 1 ==> !runs[n].died && (runs[n].refused || !runs[n].parsed)
    ensures made < Max(1, maxAttempts) ==>
              total.tripped || runs[made - 1].died || (!runs[made - 1].refused && runs[made - 1].parsed)
    ensures var last := runs[made - 1];
            && (outcome == CeilingTripped <==> total.tripped)
            && (outcome == ProviderFailed <==> !total.tripped && last.died)
            && (outcome == Refused <==> !total.tripped && !last.died && last.refused)
            && (outcome == Findings <==> !total.tripped && !last.died && !last.refused && last.parsed)
    ensures outcome != CeilingTripped ==>
              total.billable <= ceiling.tokens + made - 1 && total.steps <= ceiling.steps + made - 1
    ensures outcome != CeilingTripped ==> Unstopped(runs, made, ceiling)
  {
    hide Streaming, Left;
    total, made := NOTHING, 0;
    outcome := Unparseable;
    while made < Max(1, maxAttempts)
      invariant made <= Max(1, maxAttempts) && total == Totals(runs, made, ceiling) && !total.tripped
      invariant Unstopped(runs, made, ceiling) && forall n :: 1 <= n <= made ==> Retried(runs, n, ceiling)
      invariant forall n :: 0 <= n < made ==> !runs[n].died && (runs[n].refused || !runs[n].parsed)
      invariant made > 0 ==> outcome == if runs[made - 1].refused then Refused else Unparseable
      invariant total.billable <= ceiling.tokens + Max(0, made - 1) && total.steps <= ceiling.steps + Max(0, made - 1)
    {
      var u := StreamOpencode(runs[made], Left(ceiling, total));
      total := Streamed(total.billable + u.billable, total.steps + u.steps, u.tripped);
      made := made + 1;
      if u.tripped {
        return CeilingTripped, made, total;
      }
      OneAttempt(runs, made - 1, ceiling);
      assert Unstopped(runs, made, ceiling);
      var r := runs[made - 1];
      if r.died {
        return ProviderFailed, made, total;
      }
      if r.refused {
        outcome := Refused;
      } else if r.parsed {
        return Findings, made, total;
      } else {
        outcome := Unparseable;
      }
    }
    assert Retried(runs, made, ceiling);
  }

  /** A refusal that reports some tokens in one step. */
  function Refusal(tokens: int): Run {
    Run([Event(Some(tokens), false)], false, false, true, false)
  }

  lemma RefusalStreams(tokens: int, b: Budget)
    requires tokens <= b.tokens && b.steps >= 1
    ensures Streaming(Refusal(tokens), b) == Streamed(tokens, 1, false)
  {
    var events := Refusal(tokens).events;
    assert events[1..] == [];
    assert Consumed(NOTHING, events, b) == OnEvent(NOTHING, events[0], b);
  }

  /** The bound is reached: once the ceiling is used up, each further attempt still gets one token. */
  lemma {:induction false} CeilingCanBePassed(ceiling: Budget, runs: seq<Run>, n: nat)
    requires ceiling.tokens >= 1 && ceiling.steps >= 1 && 1 <= n <= |runs|
    requires runs[0] == Refusal(ceiling.tokens) && forall i :: 1 <= i < |runs| ==> runs[i] == Refusal(1)
    ensures Totals(runs, n, ceiling) == Streamed(ceiling.tokens + n - 1, n, false)
  {
    hide Streaming, Refusal;
    if n == 1 {
      assert Totals(runs, 0, ceiling) == NOTHING;
      RefusalStreams(ceiling.tokens, Left(ceiling, NOTHING));
    } else {
      CeilingCanBePassed(ceiling, runs, n - 1);
      RefusalStreams(1, Left(ceiling, Totals(runs, n - 1, ceiling)));
    }
  }
}
