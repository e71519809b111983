/** Exactly which outputs succeed, read off their event lines: a condition that does not mention how
    the reader handles an event. */
module StreamAcceptance {
  import opened Prelude
  import opened EventStream
  import opened StreamTheorems

  // ---------------------------------------------------------------- the events of an output

  /** No earlier line carries the identity of line `n`. */
  predicate IsNew(lines: seq<Bytes>, n: nat, env: Env)
    requires n < |lines|
  {
    KeyOf(lines[n], env).Some? ==> forall i :: 0 <= i < n ==> KeyOf(lines[i], env) != KeyOf(lines[n], env)
  }

  /** The events of an output in order, repetitions left out. */
  function Parts(lines: seq<Bytes>, env: Env): seq<Part> {
    if lines == [] then []
    else
      var n := |lines| - 1;
      Parts(lines[..n], env)
      + (if env.parse(lines[n]).Event? && IsNew(lines, n, env) then [env.parse(lines[n]).part] else [])
  }

  function StartsIn(parts: seq<Part>): nat {
    if parts == [] then 0 else StartsIn(parts[..|parts| - 1]) + if parts[|parts| - 1].StepStart? then 1 else 0
  }

  function FinishesIn(parts: seq<Part>): nat {
    if parts == [] then 0 else FinishesIn(parts[..|parts| - 1]) + if parts[|parts| - 1].StepFinish? then 1 else 0
  }

  function ToolsIn(parts: seq<Part>): nat {
    if parts == [] then 0 else ToolsIn(parts[..|parts| - 1]) + if parts[|parts| - 1].ToolUse? then 1 else 0
  }

  /** What the finished steps report for a counter, added up. */
  function AddedUp(parts: seq<Part>, k: Key): int {
    if parts == [] then 0
    else
      var p := parts[|parts| - 1];
      AddedUp(parts[..|parts| - 1], k) + if p.StepFinish? && p.tokens.Tokens? then Amount(p.tokens.At(k)) else 0
  }

  /** The text since the last step began. */
  function TextIn(parts: seq<Part>): string {
    if parts == [] then ""
    else
      var p := parts[|parts| - 1];
      if p.StepStart? then ""
      else TextIn(parts[..|parts| - 1]) + if p.Text? && p.text.Some? then p.text.value else ""
  }

  /** How the last step ended, if it did. */
  function LastReason(parts: seq<Part>): StopReason {
    if parts == [] then Unset
    else
      var p := parts[|parts| - 1];
      if p.StepStart? then Unset else if p.StepFinish? then p.reason else LastReason(parts[..|parts| - 1])
  }

  // ---------------------------------------------------------------- what is acceptable

  predicate Counted(f: Field) {
    f.Whole? && 0 <= f.n <= 10_000_000
  }

  lemma AllCounted(v: Tokens)
    requires v.Tokens?
    ensures (forall k :: Counted(v.At(k))) <==>
              && Counted(v.input) && Counted(v.output) && Counted(v.reasoning)
              && Counted(v.cacheRead) && Counted(v.cacheWrite) && Counted(v.total)
  {
    assert v.At(Input) == v.input && v.At(Output) == v.output && v.At(Reasoning) == v.reasoning;
    assert v.At(CacheRead) == v.cacheRead && v.At(CacheWrite) == v.cacheWrite && v.At(Total) == v.total;
  }

  /** A complete and consistent report of one step, within the ceilings of a step. */
  predicate FineReport(v: Tokens, lim: Limits) {
    && v.Tokens?
    && Counted(v.input) && Counted(v.output) && Counted(v.reasoning)
    && Counted(v.cacheRead) && Counted(v.cacheWrite) && Counted(v.total)
    && v.total.n >= v.input.n + v.output.n + v.reasoning.n + v.cacheRead.n + v.cacheWrite.n
    && v.input.n + v.cacheRead.n + v.cacheWrite.n <= lim.maxContext
    && v.output.n + v.reasoning.n <= lim.maxOutput
  }

  predicate FinePart(p: Part, lim: Limits) {
    match p
    case StepStart => true
    case Text(t) => t.Some?
    case ErrorReport => false
    case ToolUse(tool, state) => tool.Named? && tool.name in lim.allowedTools && state == Completed
    case StepFinish(v, _) => FineReport(v, lim)
    case ReasoningNote => true
    case Unknown(_) => false
  }

  /** A line is an event, and no other line carries its identity with other bytes. */
  predicate FineLine(lines: seq<Bytes>, n: nat, env: Env)
    requires n < |lines|
  {
    && env.parse(lines[n]).Event? && !env.parse(lines[n]).identity.Unhashable?
    && (KeyOf(lines[n], env).Some? ==>
          forall i :: 0 <= i < n && KeyOf(lines[i], env) == KeyOf(lines[n], env) ==> lines[i] == lines[n])
  }

  ghost predicate FineParts(parts: seq<Part>, lim: Limits) {
    && (forall i :: 0 <= i < |parts| ==> FinePart(parts[i], lim))
    && StartsIn(parts) <= lim.maxSteps && FinishesIn(parts) <= lim.maxSteps
    && ToolsIn(parts) <= lim.maxTools && AddedUp(parts, Total) <= lim.maxTokens
  }

  ghost predicate FineLines(lines: seq<Bytes>, env: Env) {
    forall n :: 0 <= n < |lines| ==> FineLine(lines, n, env)
  }

  ghost predicate FineSoFar(lines: seq<Bytes>, env: Env) {
    FineLines(lines, env) && FineParts(Parts(lines, env), env.limits)
  }

  /** An output that succeeds: every line is an acceptable event, steps and tools and tokens are within
      their ceilings, there is a step, every step was finished, and the last one stopped normally. */
  ghost predicate FineOutput(lines: seq<Bytes>, env: Env) {
    && FineSoFar(lines, env)
    && FinishesIn(Parts(lines, env)) >= 1 && StartsIn(Parts(lines, env)) == FinishesIn(Parts(lines, env))
    && LastReason(Parts(lines, env)) == Stop
  }

  // ---------------------------------------------------------------- the reader agrees

  /** A state that has failed nothing and missed nothing holds what the parts say. */
  ghost predicate Holds(s: State, parts: seq<Part>) {
    && s.code == 0 && s.missing == {} && s.reason == NoReason && !s.timedOut
    && s.starts == StartsIn(parts) && s.steps == FinishesIn(parts) && s.toolCalls == ToolsIn(parts)
    && (forall k :: Get(s.counts, k) == AddedUp(parts, k)) && Categories(s.counts) <= Get(s.counts, Total)
    && s.text == TextIn(parts) && s.finalReason == LastReason(parts)
  }

  ghost predicate Remembers(s: State, lines: seq<Bytes>, env: Env) {
    && (forall i :: 0 <= i < |lines| && KeyOf(lines[i], env).Some? ==> KeyOf(lines[i], env).value in s.seen)
    && (forall key :: key in s.seen ==>
          exists i :: 0 <= i < |lines| && KeyOf(lines[i], env) == Some(key) && s.seen[key] == lines[i])
  }

  /** The ceilings over all steps after one more part. */
  predicate Room(parts: seq<Part>, p: Part, lim: Limits) {
    && StartsIn(parts) + (if p.StepStart? then 1 else 0) <= lim.maxSteps
    && FinishesIn(parts) + (if p.StepFinish? then 1 else 0) <= lim.maxSteps
    && ToolsIn(parts) + (if p.ToolUse? then 1 else 0) <= lim.maxTools
    && AddedUp(parts, Total) + (if p.StepFinish? && p.tokens.Tokens? then Amount(p.tokens.At(Total)) else 0) <= lim.maxTokens
  }

  lemma OneMorePart(parts: seq<Part>, p: Part, k: Key)
    ensures var all := parts + [p];
            && StartsIn(all) == StartsIn(parts) + (if p.StepStart? then 1 else 0)
            && FinishesIn(all) == FinishesIn(parts) + (if p.StepFinish? then 1 else 0)
            && ToolsIn(all) == ToolsIn(parts) + (if p.ToolUse? then 1 else 0)
            && AddedUp(all, k) == AddedUp(parts, k) + (if p.StepFinish? && p.tokens.Tokens? then Amount(p.tokens.At(k)) else 0)
            && TextIn(all) == (if p.StepStart? then "" else TextIn(parts) + if p.Text? && p.text.Some? then p.text.value else "")
            && LastReason(all) == (if p.StepStart? then Unset else if p.StepFinish? then p.reason else LastReason(parts))
  {
    var all := parts + [p];
    assert all[..|parts|] == parts && all[|parts|] == p;
  }

  /** A finished step leaves nothing failed and nothing missing exactly when its report is fine and
      there was room for it. */
  lemma FinishIsFine(s: State, v: Tokens, why: StopReason, lim: Limits)
    requires s.code == 0 && s.missing == {} && Categories(s.counts) <= Get(s.counts, Total)
    ensures FineReport(v, lim) ==> v.Tokens?
    ensures var s' := FinishStep(s, v, why, lim);
            && (s'.code == 0 && s'.missing == {} <==>
                  FineReport(v, lim) && s.steps + 1 <= lim.maxSteps
                  && Get(s.counts, Total) + Amount(v.At(Total)) <= lim.maxTokens)
            && (s'.code == 0 && s'.missing == {} ==>
                  && s' == s.(steps := s.steps + 1, counts := s'.counts, finalReason := why)
                  && (forall k :: Get(s'.counts, k) == Get(s.counts, k) + Amount(v.At(k)))
                  && Categories(s'.counts) <= Get(s'.counts, Total))
  {
    hide AddUpTo, Tallied;
    if v.Tokens? {
      var t0 := Tally(s.counts, s.missing, false);
      var t := AddUpTo(t0, v, |KEYS|);
      if forall k :: Counted(v.At(k)) {
        WholeAdds(t0, v, |KEYS|);
      }
      if !t.bad {
        AddAllFacts(t0, v);
      }
      TalliedIsFine(s.(steps := s.steps + 1), t, v, why, lim);
    }
  }

  lemma TalliedIsFine(s: State, t: Tally, v: Tokens, why: StopReason, lim: Limits)
    requires v.Tokens? && s.code == 0 && s.missing == {} && Categories(s.counts) <= Get(s.counts, Total)
    requires (forall k :: Counted(v.At(k))) ==> !t.bad && t.missing == {}
    requires !t.bad ==>
               forall k :: (&& 0 <= Amount(v.At(k)) <= COUNT_LIMIT
                            && (k !in t.missing ==> v.At(k).Whole? && k in t.counts)
                            && Get(t.counts, k) == Get(s.counts, k) + Amount(v.At(k)))
    ensures var s' := Tallied(s, t, v, why, lim);
            && (s'.code == 0 && s'.missing == {} <==>
                  FineReport(v, lim) && s.steps <= lim.maxSteps
                  && Get(s.counts, Total) + Amount(v.At(Total)) <= lim.maxTokens)
            && (s'.code == 0 && s'.missing == {} ==>
                  && s' == s.(counts := s'.counts, finalReason := why)
                  && (forall k :: Get(s'.counts, k) == Get(s.counts, k) + Amount(v.At(k)))
                  && Categories(s'.counts) <= Get(s'.counts, Total))
  {
    AllCounted(v);
    if !t.bad {
      assert v.At(Total) == v.total && v.At(Input) == v.input && v.At(Output) == v.output;
      assert v.At(Reasoning) == v.reasoning && v.At(CacheRead) == v.cacheRead && v.At(CacheWrite) == v.cacheWrite;
      assert Categories(t.counts) == Categories(s.counts) + Normalized(v);
      if t.missing == {} {
        forall k
          ensures Counted(v.At(k))
        {
          assert k !in t.missing;
        }
      }
      hide Categories;
    }
  }

  /** One event leaves nothing failed and nothing missing exactly when it is acceptable and there was
      room for it, and then the state holds it. */
  lemma DispatchIsFine(s: State, parts: seq<Part>, p: Part, lim: Limits)
    requires Holds(s, parts) && Room(parts, ReasoningNote, lim)
    ensures var s' := Dispatch(s, p, lim);
            && (s'.code == 0 && s'.missing == {} <==> FinePart(p, lim) && Room(parts, p, lim))
            && (s'.code == 0 && s'.missing == {} ==> Holds(s', parts + [p]) && s'.seen == s.seen)
  {
    hide FinishStep, FineReport, AddedUp, StartsIn, FinishesIn, ToolsIn, TextIn, LastReason, Categories;
    forall k
      ensures AddedUp(parts + [p], k)
           == AddedUp(parts, k) + (if p.StepFinish? && p.tokens.Tokens? then Amount(p.tokens.At(k)) else 0)
    {
      OneMorePart(parts, p, k);
    }
    OneMorePart(parts, p, Total);
    if p.StepFinish? {
      FinishIsFine(s, p.tokens, p.reason, lim);
    }
  }

  // ---------------------------------------------------------------- whole outputs

  lemma PartsGrow(lines: seq<Bytes>, e: Bytes, env: Env)
    ensures var all := lines + [e];
            var n := |lines|;
            Parts(all, env)
              == Parts(lines, env) + (if env.parse(e).Event? && IsNew(all, n, env) then [env.parse(e).part] else [])
  {
    assert (lines + [e])[..|lines|] == lines && (lines + [e])[|lines|] == e;
  }

  lemma SameLine(lines: seq<Bytes>, e: Bytes, n: nat, env: Env)
    requires n < |lines|
    ensures FineLine(lines + [e], n, env) <==> FineLine(lines, n, env)
  {
    assert forall i :: 0 <= i <= n ==> (lines + [e])[i] == lines[i];
  }

  lemma LineIsEvent(lines: seq<Bytes>, n: nat, env: Env)
    requires n < |lines|
    ensures FineLine(lines, n, env) ==> env.parse(lines[n]).Event?
  {
  }

  lemma FineAdds(p: Part, lim: Limits)
    ensures FinePart(p, lim) && p.StepFinish? ==> p.tokens.Tokens? && Amount(p.tokens.At(Total)) >= 0
  {
  }

  lemma LinesGrow(lines: seq<Bytes>, e: Bytes, env: Env)
    ensures FineLines(lines + [e], env) <==> FineLines(lines, env) && FineLine(lines + [e], |lines|, env)
  {
    hide FineLine;
    forall n | 0 <= n < |lines|
      ensures FineLine(lines + [e], n, env) <==> FineLine(lines, n, env)
    {
      SameLine(lines, e, n, env);
    }
  }

  lemma FinePartsGrow(parts: seq<Part>, p: Part, lim: Limits)
    ensures FineParts(parts + [p], lim) <==> FineParts(parts, lim) && FinePart(p, lim) && Room(parts, p, lim)
  {
    hide FinePart, StartsIn, FinishesIn, ToolsIn, AddedUp;
    var all := parts + [p];
    OneMorePart(parts, p, Total);
    FineAdds(p, lim);
    assert all[|parts|] == p && forall i :: 0 <= i < |parts| ==> all[i] == parts[i];
    if FineParts(all, lim) {
      forall i | 0 <= i < |parts|
        ensures FinePart(parts[i], lim)
      {
        assert FinePart(all[i], lim);
      }
    }
  }

  /** One more line is fine exactly when it is a fine line and, when it is new, a fine part with room. */
  lemma OneMoreLine(lines: seq<Bytes>, e: Bytes, env: Env)
    ensures var all := lines + [e];
            FineSoFar(all, env) <==>
              && FineSoFar(lines, env) && FineLine(all, |lines|, env)
              && (env.parse(e).Event? && IsNew(all, |lines|, env) ==>
                    FinePart(env.parse(e).part, env.limits) && Room(Parts(lines, env), env.parse(e).part, env.limits))
  {
    hide FineLine, FinePart, FineLines, FineParts, IsNew, Room, Parts;
    PartsGrow(lines, e, env);
    LinesGrow(lines, e, env);
    if env.parse(e).Event? && IsNew(lines + [e], |lines|, env) {
      FinePartsGrow(Parts(lines, env), env.parse(e).part, env.limits);
    } else {
      assert Parts(lines + [e], env) == Parts(lines, env);
    }
  }

  lemma NothingYet(env: Env)
    ensures Holds(INITIAL, Parts([], env)) && Remembers(INITIAL, [], env)
    ensures FineSoFar([], env)
  {
    assert Parts([], env) == [];
    assert forall k :: Get(INITIAL.counts, k) == 0 == AddedUp([], k);
  }

  /** Counters that are missing stay missing. */
  lemma MissingStays(s: State, raw: Bytes, env: Env)
    ensures s.missing <= Consume(s, raw, env).missing
  {
    var p := env.parse(raw);
    if p.Event? && p.part.StepFinish? && p.part.tokens.Tokens? {
      hide Breach;
      var v := p.part.tokens;
      MissingGrows(Tally(s.counts, s.missing, false), v, |KEYS|);
      hide AddUpTo;
    }
  }

  lemma {:induction false} MissingGrows(t: Tally, v: Tokens, i: nat)
    requires v.Tokens? && i <= |KEYS|
    ensures t.missing <= AddUpTo(t, v, i).missing
  {
    if i > 0 {
      MissingGrows(t, v, i - 1);
    }
  }

  lemma SoFarHasRoom(lines: seq<Bytes>, env: Env)
    requires FineSoFar(lines, env)
    ensures Room(Parts(lines, env), ReasoningNote, env.limits)
  {
  }

  lemma HoldsMeans(s: State, parts: seq<Part>)
    requires Holds(s, parts)
    ensures s.code == 0 && s.missing == {}
  {
  }

  lemma HoldsStill(s: State, t: State, parts: seq<Part>)
    requires Holds(s, parts) && t == s.(seen := t.seen)
    ensures Holds(t, parts)
  {
  }

  /** A repeated identity is fine exactly when its bytes are those that were remembered. */
  lemma SeenOnce(s: State, lines: seq<Bytes>, e: Bytes, env: Env)
    requires Remembers(s, lines, env) && (forall n :: 0 <= n < |lines| ==> FineLine(lines, n, env))
    requires env.parse(e).Event? && KeyOf(e, env).Some? && KeyOf(e, env).value in s.seen
    ensures FineLine(lines + [e], |lines|, env) <==> s.seen[KeyOf(e, env).value] == e
  {
    var all, n, key := lines + [e], |lines|, KeyOf(e, env);
    var j :| 0 <= j < n && KeyOf(lines[j], env) == key && s.seen[key.value] == lines[j];
    assert all[n] == e && all[j] == lines[j];
    forall i | 0 <= i < n && KeyOf(lines[i], env) == key
      ensures lines[i] == lines[j]
    {
      assert FineLine(lines, i, env) && FineLine(lines, j, env);
    }
    assert forall i :: 0 <= i < n ==> all[i] == lines[i];
  }

  lemma RemembersMore(s: State, lines: seq<Bytes>, e: Bytes, env: Env)
    requires Remembers(s, lines, env)
    ensures Consume(s, e, env).code == 0 ==> Remembers(Consume(s, e, env), lines + [e], env)
  {
    hide Dispatch;
    var all, n, s' := lines + [e], |lines|, Consume(s, e, env);
    assert all[n] == e && forall i :: 0 <= i < n ==> all[i] == lines[i];
    if s'.code == 0 {
      forall key | key in s'.seen
        ensures exists i :: 0 <= i < |all| && KeyOf(all[i], env) == Some(key) && s'.seen[key] == all[i]
      {
        if key in s.seen && s'.seen[key] == s.seen[key] {
          var i :| 0 <= i < n && KeyOf(lines[i], env) == Some(key) && s.seen[key] == lines[i];
          assert KeyOf(all[i], env) == Some(key) && s'.seen[key] == all[i];
        } else {
          assert KeyOf(all[n], env) == Some(key) && s'.seen[key] == all[n];
        }
      }
    }
  }

  lemma SoFarLines(lines: seq<Bytes>, env: Env)
    requires FineSoFar(lines, env)
    ensures forall n :: 0 <= n < |lines| ==> FineLine(lines, n, env)
  {
  }

  /** One line, as the reader handles it and as the conditions see it. */
  ghost predicate Agree(s: State, lines: seq<Bytes>, env: Env) {
    && (s.code == 0 && s.missing == {} <==> FineSoFar(lines, env))
    && (s.code == 0 && s.missing == {} ==> Holds(s, Parts(lines, env)) && Remembers(s, lines, env))
  }

  lemma BadLine(s: State, lines: seq<Bytes>, e: Bytes, env: Env)
    requires !env.parse(e).Event? || env.parse(e).identity.Unhashable?
    ensures Agree(Consume(s, e, env), lines + [e], env)
  {
    hide Dispatch, FinePart, Room, Holds, FineSoFar, Parts, Remembers;
    assert (lines + [e])[|lines|] == e && !FineLine(lines + [e], |lines|, env);
    OneMoreLine(lines, e, env);
  }

  lemma OldLine(s: State, lines: seq<Bytes>, e: Bytes, env: Env)
    requires Holds(s, Parts(lines, env)) && Remembers(s, lines, env) && FineSoFar(lines, env)
    requires env.parse(e).Event? && KeyOf(e, env).Some? && KeyOf(e, env).value in s.seen
    ensures Agree(Consume(s, e, env), lines + [e], env)
  {
    hide Dispatch, FinePart, Room, Holds, FineSoFar, Parts, FineLine;
    var all, n, key := lines + [e], |lines|, KeyOf(e, env);
    HoldsMeans(s, Parts(lines, env));
    OneMoreLine(lines, e, env);
    PartsGrow(lines, e, env);
    SoFarLines(lines, env);
    SeenOnce(s, lines, e, env);
    var i :| 0 <= i < n && KeyOf(lines[i], env) == key && s.seen[key.value] == lines[i];
    assert all[n] == e && KeyOf(all[i], env) == key && !IsNew(all, n, env);
    assert Parts(all, env) == Parts(lines, env);
    RemembersMore(s, lines, e, env);
  }

  lemma NewLine(s: State, lines: seq<Bytes>, e: Bytes, env: Env)
    requires Holds(s, Parts(lines, env)) && Remembers(s, lines, env) && FineSoFar(lines, env)
    requires env.parse(e).Event? && !env.parse(e).identity.Unhashable?
    requires KeyOf(e, env).Some? ==> KeyOf(e, env).value !in s.seen
    ensures Agree(Consume(s, e, env), lines + [e], env)
  {
    hide Dispatch, FinePart, Room, Holds, FineSoFar, Parts;
    var all, n, parts, p := lines + [e], |lines|, Parts(lines, env), env.parse(e).part;
    OneMoreLine(lines, e, env);
    PartsGrow(lines, e, env);
    SoFarHasRoom(lines, env);
    assert all[n] == e && forall i :: 0 <= i < n ==> all[i] == lines[i];
    assert IsNew(all, n, env) && FineLine(all, n, env);
    RemembersMore(s, lines, e, env);
    hide Remembers, IsNew, FineLine;
    var known := if KeyOf(e, env).Some? then s.(seen := s.seen[KeyOf(e, env).value := e]) else s;
    HoldsStill(s, known, parts);
    DispatchIsFine(known, parts, p, env.limits);
    assert Consume(s, e, env) == Dispatch(known, p, env.limits);
  }

  /** The reader has failed nothing and missed nothing exactly as long as the lines are fine. */
  lemma {:induction false} FoldIsFine(lines: seq<Bytes>, env: Env)
    ensures Agree(Fold(INITIAL, lines, env), lines, env)
    decreases |lines|
  {
    hide Consume, Holds, Remembers, FineSoFar, Parts;
    if lines == [] {
      NothingYet(env);
    } else {
      var n := |lines| - 1;
      var before, e := lines[..n], lines[n];
      assert lines == before + [e];
      var s := Fold(INITIAL, before, env);
      FoldIsFine(before, env);
      FoldConcat(INITIAL, before, [e], env);
      FoldOne(s, e, env);
      OneMoreLine(before, e, env);
      MissingStays(s, e, env);
      if s.code == 0 && s.missing == {} {
        if !env.parse(e).Event? || env.parse(e).identity.Unhashable? {
          BadLine(s, before, e, env);
        } else if KeyOf(e, env).Some? && KeyOf(e, env).value in s.seen {
          OldLine(s, before, e, env);
        } else {
          NewLine(s, before, e, env);
        }
      }
    }
  }

  /** A run within the byte limit succeeds if and only if its output is fine and the process exits with
      status 0; it then holds the counters and the text of the output. */
  lemma SuccessExactly(rounds: seq<Round>, exit: Exit, env: Env)
    requires ReadsToEnd(STARTED.open, rounds) && Volume(rounds) <= env.limits.maxBytes
    ensures var lines := Payload(StdoutBytes(rounds));
            var s := RunStream(rounds, exit, env);
            && (s.code == 0 <==> FineOutput(lines, env) && exit == Exited(0))
            && (s.code == 0 ==>
                  && s.steps == FinishesIn(Parts(lines, env)) && s.toolCalls == ToolsIn(Parts(lines, env))
                  && (forall k :: Get(s.counts, k) == AddedUp(Parts(lines, env), k))
                  && s.text == TextIn(Parts(lines, env)))
  {
    hide RunStream, Fold, Parts, FineSoFar, Remembers;
    var lines := Payload(StdoutBytes(rounds));
    ChunkIndependence(rounds, exit, env);
    FoldIsFine(lines, env);
  }

  /** In a run that succeeds every tool that was used is an allowed one, and was completed. */
  lemma OnlyAllowedTools(rounds: seq<Round>, exit: Exit, env: Env, n: nat)
    requires ReadsToEnd(STARTED.open, rounds) && Volume(rounds) <= env.limits.maxBytes
    requires RunStream(rounds, exit, env).code == 0
    requires n < |Payload(StdoutBytes(rounds))|
    ensures var p := env.parse(Payload(StdoutBytes(rounds))[n]);
            p.Event?
            && (p.part.ToolUse? ==> p.part.tool.Named? && p.part.tool.name in env.limits.allowedTools && p.part.state == Completed)
  {
    hide RunStream, FineOutput, Parts;
    SuccessExactly(rounds, exit, env);
    FineEvents(Payload(StdoutBytes(rounds)), n, env);
  }

  /** Every line of a fine output is an acceptable event, the repeated ones included. */
  lemma FineEvents(lines: seq<Bytes>, n: nat, env: Env)
    requires n < |lines| && FineOutput(lines, env)
    ensures env.parse(lines[n]).Event? && FinePart(env.parse(lines[n]).part, env.limits)
  {
    hide FinePart;
    assert FineLine(lines, n, env);
    EventIsPart(lines, n, env);
  }

  lemma {:induction false} EventIsPart(lines: seq<Bytes>, n: nat, env: Env)
    requires n < |lines| && forall m :: 0 <= m < |lines| ==> FineLine(lines, m, env)
    ensures env.parse(lines[n]).Event? && env.parse(lines[n]).part in Parts(lines, env)
    decreases |lines|
  {
    var last := |lines| - 1;
    var before := lines[..last];
    forall m | 0 <= m < last
      ensures FineLine(before, m, env)
    {
      assert FineLine(lines, m, env);
      SameLine(before, lines[last], m, env);
      assert before + [lines[last]] == lines;
    }
    assert FineLine(lines, last, env);
    if n < last {
      assert before[n] == lines[n];
      EventIsPart(before, n, env);
    } else if !IsNew(lines, last, env) {
      var i :| 0 <= i < last && KeyOf(lines[i], env) == KeyOf(lines[last], env);
      assert before[i] == lines[i] == lines[last];
      EventIsPart(before, i, env);
    }
  }

  // ---------------------------------------------------------------- identities and lines

  predicate SameKind(p: Part, q: Part) {
    || (p.StepStart? && q.StepStart?) || (p.Text? && q.Text?) || (p.ErrorReport? && q.ErrorReport?)
    || (p.ToolUse? && q.ToolUse?) || (p.StepFinish? && q.StepFinish?) || (p.ReasoningNote? && q.ReasoningNote?)
    || (p.Unknown? && q.Unknown? && p.kind == q.kind)
  }

  /** Two identified events share an identity exactly when they are of one kind and carry one id. */
  lemma KeysTell(a: Bytes, b: Bytes, env: Env)
    requires KeyOf(a, env).Some?
    ensures KeyOf(a, env) == KeyOf(b, env) <==>
              && env.parse(b).Event? && env.parse(b).identity == env.parse(a).identity
              && SameKind(env.parse(a).part, env.parse(b).part)
  {
  }

  function JoinLines(lines: seq<Bytes>): Bytes {
    if lines == [] then [] else lines[0] + [10] + JoinLines(lines[1..])
  }

  function NotBlank(lines: seq<Bytes>): seq<Bytes> {
    if lines == [] then [] else (if Blank(lines[0]) then [] else [lines[0]]) + NotBlank(lines[1..])
  }

  lemma {:induction false} NoNewline(bs: Bytes)
    requires forall i :: 0 <= i < |bs| ==> bs[i] != 10
    ensures FirstNewline(bs) == |bs|
  {
  }

  /** What the reader takes from an output are its lines, up to newlines, without the blank ones; a last
      line need not be ended. */
  lemma {:induction false} PayloadIsLines(lines: seq<Bytes>, last: Bytes)
    requires forall n, i :: 0 <= n < |lines| && 0 <= i < |lines[n]| ==> lines[n][i] != 10
    requires forall i :: 0 <= i < |last| ==> last[i] != 10
    ensures Payload(JoinLines(lines) + last) == NotBlank(lines + [last])
    decreases |lines|
  {
    if lines == [] {
      assert JoinLines(lines) + last == last;
      NoNewline(last);
      assert [last][1..] == [];
    } else {
      var line, rest := lines[0], JoinLines(lines[1..]) + last;
      var all := JoinLines(lines) + last;
      assert all == (line + [10]) + rest;
      NoNewline(line);
      FirstNewlineEnds(line, rest);
      assert all[..|line|] == line && all[|line| + 1..] == rest;
      PayloadIsLines(lines[1..], last);
      assert (lines + [last])[1..] == lines[1..] + [last];
    }
  }

  lemma {:induction false} FirstNewlineEnds(line: Bytes, rest: Bytes)
    requires FirstNewline(line) == |line|
    ensures FirstNewline((line + [10]) + rest) == |line|
  {
    if line != [] {
      assert ((line + [10]) + rest)[1..] == (line[1..] + [10]) + rest;
      FirstNewlineEnds(line[1..], rest);
    }
  }

  // ---------------------------------------------------------------- runs of any kind

  /** The turns of a run, up to one after which both pipes are closed, in time and within the byte limit. */
  ghost predicate ReadsAll(rounds: seq<Round>, n: nat, env: Env) {
    n <= |rounds| && ReadsToEnd(STARTED.open, rounds[..n]) && Volume(rounds[..n]) <= env.limits.maxBytes
  }

  lemma {:induction false} ReadsSucceed(l: Loop, ready: seq<Read>, env: Env)
    requires l.s.code == 0 && l.byteCount <= env.limits.maxBytes && DoReads(l, ready, env).s.code == 0
    ensures var l' := DoReads(l, ready, env);
            && l'.byteCount == l.byteCount + SizeOf(ready) <= env.limits.maxBytes
            && l'.open == l.open - Closed(ready)
    decreases |ready|
  {
    hide Drain;
    if ready == [] {
      assert l.open - Closed(ready) == l.open;
    } else {
      var l1 := DoRead(l, ready[0], env);
      if l1.s.code != 0 {
        FailureIsSticky(l1, ready[1..], env);
      }
      ReadsSucceed(l1, ready[1..], env);
      assert l1.open - Closed(ready[1..]) == l.open - Closed(ready);
    }
  }

  /** A polling loop that fails nothing has read both pipes to their end. */
  lemma {:induction false} PollSucceeds(l: Loop, rounds: seq<Round>, env: Env) returns (n: nat)
    requires l.s.code == 0 && l.byteCount <= env.limits.maxBytes && Poll(l, rounds, env).s.code == 0
    ensures n <= |rounds| && ReadsToEnd(l.open, rounds[..n])
    ensures l.byteCount + Volume(rounds[..n]) <= env.limits.maxBytes && Poll(l, rounds[..n], env) == Poll(l, rounds, env)
    decreases |rounds|
  {
    hide DoReads;
    if l.open == {} {
      return 0;
    }
    var l1 := DoReads(l, rounds[0].ready, env);
    ReadsSucceed(l, rounds[0].ready, env);
    var m := PollSucceeds(l1, rounds[1..], env);
    n := m + 1;
    assert rounds[..n][0] == rounds[0] && rounds[..n][1..] == rounds[1..][..m];
  }

  /** Turns after the pipes have closed are not taken. */
  lemma {:induction false} PollEnds(l: Loop, rounds: seq<Round>, n: nat, env: Env)
    requires n <= |rounds| && ReadsToEnd(l.open, rounds[..n])
    requires l.byteCount + Volume(rounds[..n]) <= env.limits.maxBytes && Cut(l)
    ensures Poll(l, rounds, env) == Poll(l, rounds[..n], env)
    decreases n
  {
    if l.open != {} && l.s.code == 0 {
      var first := rounds[..n];
      assert first[0] == rounds[0] && first[1..] == rounds[1..][..n - 1];
      ReadsKeepOutcome(l, rounds[0].ready, [], env);
      PollEnds(DoReads(l, rounds[0].ready, env), rounds[1..], n - 1, env);
    }
  }

  /** What success means for any run, however it is read and whatever happens beside it. */
  ghost predicate Succeeds(rounds: seq<Round>, exit: Exit, env: Env) {
    && exit == Exited(0)
    && exists n: nat :: ReadsAll(rounds, n, env) && FineOutput(Payload(StdoutBytes(rounds[..n])), env)
  }

  /** A run succeeds if and only if both pipes are read to their end in time, with no failing callback and
      within the byte limit, what was read from standard output is fine, and the process exits with 0. */
  lemma SuccessMeans(rounds: seq<Round>, exit: Exit, env: Env)
    ensures RunStream(rounds, exit, env).code == 0 <==> Succeeds(rounds, exit, env)
  {
    hide Poll, FineOutput, Consume, ReadsToEnd;
    if RunStream(rounds, exit, env).code == 0 {
      var n := PollSucceeds(STARTED, rounds, env);
      assert RunStream(rounds[..n], exit, env) == RunStream(rounds, exit, env);
      hide RunStream;
      SuccessExactly(rounds[..n], exit, env);
      assert ReadsAll(rounds, n, env);
    }
    if Succeeds(rounds, exit, env) {
      var n: nat :| ReadsAll(rounds, n, env) && FineOutput(Payload(StdoutBytes(rounds[..n])), env);
      PollEnds(STARTED, rounds, n, env);
      assert RunStream(rounds[..n], exit, env) == RunStream(rounds, exit, env);
      hide RunStream;
      SuccessExactly(rounds[..n], exit, env);
    }
  }

  // ---------------------------------------------------------------- how runs fail

  /** A turn that fails decides the run's code: the callback's own, 4 when it breaks, 124 and a time-out
      when the clock has run out. */
  lemma TurnsFail(l: Loop, rounds: seq<Round>, env: Env)
    requires l.open != {} && l.s.code == 0
    ensures var s := Poll(l, rounds, env).s;
            && (rounds == [] ==> s.code == 124 && s.timedOut)
            && (rounds != [] && rounds[0].tick.Raised? ==> s.code == rounds[0].tick.code && !s.timedOut)
            && (rounds != [] && rounds[0].tick.Broke? ==> s.code == 4 && !s.timedOut)
            && (rounds != [] && rounds[0].tick.Calm? && rounds[0].expired ==> s.code == 124 && s.timedOut)
  {
  }

  /** A counter that was not reported, or is one the reader takes. */
  predicate Sane(f: Field) {
    f == Null || Counted(f)
  }

  /** The counters of a report add up unless one of them is neither missing nor a count. */
  lemma {:induction false} BadExactly(t: Tally, v: Tokens, i: nat)
    requires v.Tokens? && i <= |KEYS| && !t.bad
    ensures AddUpTo(t, v, i).bad <==> exists j :: 0 <= j < i && !Sane(v.At(KEYS[j]))
  {
    if i > 0 {
      BadExactly(t, v, i - 1);
    }
  }

  lemma AllSane(v: Tokens)
    requires v.Tokens?
    ensures (forall j :: 0 <= j < |KEYS| ==> Sane(v.At(KEYS[j]))) <==>
              && Sane(v.input) && Sane(v.output) && Sane(v.reasoning)
              && Sane(v.cacheRead) && Sane(v.cacheWrite) && Sane(v.total)
  {
    assert v.At(KEYS[0]) == v.input && v.At(KEYS[1]) == v.output && v.At(KEYS[2]) == v.reasoning;
    assert v.At(KEYS[3]) == v.cacheRead && v.At(KEYS[4]) == v.cacheWrite && v.At(KEYS[5]) == v.total;
  }

  /** A report whose counters all are sane. */
  predicate SaneReport(v: Tokens) {
    v.Tokens? && Sane(v.input) && Sane(v.output) && Sane(v.reasoning) && Sane(v.cacheRead) && Sane(v.cacheWrite) && Sane(v.total)
  }

  lemma BadMeans(t: Tally, v: Tokens)
    requires v.Tokens? && !t.bad
    ensures AddUpTo(t, v, |KEYS|).bad <==> !SaneReport(v)
  {
    BadExactly(t, v, |KEYS|);
    AllSane(v);
    hide Sane, AddUpTo, Tokens.At;
  }

  /** What is reported of a finished step, whatever else is wrong with it: too many steps before its output,
      then its context, then all tokens so far, by category or by total; and last a total below its categories. */
  function Blame(s: State, v: Tokens, lim: Limits): Reason
    requires v.Tokens?
  {
    var step := Amount(v.input) + Amount(v.output) + Amount(v.reasoning) + Amount(v.cacheRead) + Amount(v.cacheWrite);
    if s.steps + 1 > lim.maxSteps then StepCeiling
    else if Amount(v.output) + Amount(v.reasoning) > lim.maxOutput then OutputCeiling
    else if Amount(v.input) + Amount(v.cacheRead) + Amount(v.cacheWrite) > lim.maxContext then ContextCeiling
    else if Categories(s.counts) + step > lim.maxTokens || Get(s.counts, Total) + Amount(v.total) > lim.maxTokens then TokenCeiling
    else if v.total.Whole? && Amount(v.total) < step then Inconsistent
    else NoReason
  }

  function CodeFor(why: Reason): nat {
    if why == NoReason then 0 else if why == Inconsistent then 4 else 124
  }

  /** A report that is no object, or has a counter that is none, fails with 4. Any other is blamed for one
      thing at most: with 124 for a ceiling, with 4 for a total below its categories. */
  lemma ReportsFail(s: State, v: Tokens, why: StopReason, lim: Limits)
    requires s.code == 0 && s.reason == NoReason
    ensures var s' := FinishStep(s, v, why, lim);
            if !SaneReport(v) then s'.code == 4 && s'.reason == Malformed
            else s'.reason == Blame(s, v, lim) && s'.code == CodeFor(s'.reason)
  {
    hide AddUpTo, Blame, Tallied, SaneReport, AddsUp, CodeFor;
    if v.Tokens? {
      var t0 := Tally(s.counts, s.missing, false);
      BadMeans(t0, v);
      ReportAddsUp(t0, v);
      TalliedIsBlamed(s, s.(steps := s.steps + 1), AddUpTo(t0, v, |KEYS|), v, why, lim);
    } else {
      NoObject(v);
    }
  }

  lemma NoObject(v: Tokens)
    requires !v.Tokens?
    ensures !SaneReport(v)
  {
  }

  /** Every counter has grown by what was reported for it. */
  ghost predicate AddsUp(before: Counts, after: Counts, v: Tokens)
    requires v.Tokens?
  {
    forall k :: Amount(v.At(k)) >= 0 && Get(after, k) == Get(before, k) + Amount(v.At(k))
  }

  lemma ReportAddsUp(t: Tally, v: Tokens)
    requires v.Tokens? && !t.bad
    ensures !AddUpTo(t, v, |KEYS|).bad ==> AddsUp(t.counts, AddUpTo(t, v, |KEYS|).counts, v)
  {
    hide AddUpTo;
    if !AddUpTo(t, v, |KEYS|).bad {
      AddAllFacts(t, v);
    }
  }

  /** What is said of a step once its counters are added. */
  lemma TalliedIsBlamed(s: State, s1: State, t: Tally, v: Tokens, why: StopReason, lim: Limits)
    requires s.code == 0 && s.reason == NoReason && s1 == s.(steps := s.steps + 1) && v.Tokens?
    requires !t.bad ==> AddsUp(s.counts, t.counts, v)
    ensures var s' := Tallied(s1, t, v, why, lim);
            if t.bad then s'.code == 4 && s'.reason == Malformed
            else s'.reason == Blame(s, v, lim)
                 && s'.code == CodeFor(s'.reason)
  {
    if !t.bad {
      assert v.At(Total) == v.total && v.At(Input) == v.input && v.At(Output) == v.output;
      assert v.At(Reasoning) == v.reasoning && v.At(CacheRead) == v.cacheRead && v.At(CacheWrite) == v.cacheWrite;
      assert Categories(t.counts) == Categories(s.counts) + Normalized(v);
      hide Get, Categories;
    }
  }

  /** A forbidden or unfinished tool fails with 4; an allowed one only at the ceiling, with 124. */
  lemma ToolsFail(s: State, tool: Tool, state: ToolState, lim: Limits)
    requires s.code == 0
    ensures var fine := tool.Named? && tool.name in lim.allowedTools && state == Completed;
            && Dispatch(s, ToolUse(tool, state), lim).code
                 == (if !fine then 4 else if s.toolCalls + 1 > lim.maxTools then 124 else 0)
            && (fine && s.toolCalls + 1 > lim.maxTools ==> Dispatch(s, ToolUse(tool, state), lim).reason == ToolCeiling)
            && (tool.Named? && tool.name !in lim.allowedTools ==>
                  Dispatch(s, ToolUse(tool, state), lim).reason == ForbiddenTool)
  {
  }
}
