/** The reader itself: one object whose variables the event handler and the polling loop
    rewrite in place, proved to compute `EventStream.RunStream`. */
module StreamReader {
  import opened Prelude
  import opened EventStream

  class Reader {
    const env: Env
    var code: nat
    var reason: Reason
    var timedOut: bool
    var counts: Counts
    var missing: set<Key>
    var steps: nat
    var starts: nat
    var toolCalls: nat
    var text: string
    var finalReason: StopReason
    var seen: map<EventKey, Bytes>
    var buffered: Bytes
    var byteCount: nat
    var open: set<Pipe>

    /** The event state the fields stand for. */
    ghost function Now(): State
      reads this
    {
      State(code, reason, timedOut, counts, missing, steps, starts, toolCalls, text, finalReason, seen)
    }

    ghost function InLoop(): Loop
      reads this
    {
      Loop(Now(), buffered, byteCount, open)
    }

    constructor (env: Env)
      ensures this.env == env && InLoop() == STARTED
    {
      this.env := env;
      code, reason, timedOut := 0, NoReason, false;
      counts, missing := map[], {};
      steps, starts, toolCalls := 0, 0, 0;
      text, finalReason, seen := "", Unset, map[];
      buffered, byteCount, open := [], 0, {Stdout, Stderr};
    }

    method SetFailure(code: ErrorCode, reason: Reason, timedOut: bool := false)
      modifies this`code, this`reason, this`timedOut
      ensures Now() == Fail(old(Now()), code, reason, timedOut)
    {
      this.code, this.reason, this.timedOut := code, reason, timedOut;
    }

    /** The counter loop of a finished step; `bad` reports the value that stopped it. */
    method AddCounters(v: Tokens) returns (bad: bool)
      requires v.Tokens?
      modifies this`counts, this`missing
      ensures Tally(counts, missing, bad) == AddUpTo(Tally(old(counts), old(missing), false), v, |KEYS|)
    {
      bad := false;
      ghost var t0 := Tally(counts, missing, false);
      var i := 0;
      while i < |KEYS|
        invariant i <= |KEYS|
        invariant Tally(counts, missing, bad) == AddUpTo(t0, v, i)
      {
        var k := KEYS[i];
        if !bad {
          match v.At(k)
          case Null => missing := missing + {k};
          case NotAnInteger => bad := true;
          case Whole(n) =>
            if 0 <= n <= COUNT_LIMIT {
              counts := counts[k := Get(counts, k) + n];
            } else {
              bad := true;
            }
        }
        i := i + 1;
      }
    }

    /** The ceilings a finished step is held to; a later failure replaces an earlier one. */
    method CheckCeilings(v: Tokens)
      requires v.Tokens?
      modifies this`missing, this`code, this`reason, this`timedOut
      ensures Now() == CheckStep(old(Now()), v, env.limits)
    {
      var low := BelowCategories(v);
      var spent := Max(Categories(counts), Get(counts, Total)) > env.limits.maxTokens;
      var context := Amount(v.input) + Amount(v.cacheRead) + Amount(v.cacheWrite) > env.limits.maxContext;
      var output := Amount(v.output) + Amount(v.reasoning) > env.limits.maxOutput;
      if low {
        missing := missing + {Total};
        SetFailure(4, Inconsistent);
      }
      if spent {
        SetFailure(124, TokenCeiling);
      }
      if context {
        SetFailure(124, ContextCeiling);
      }
      if output {
        SetFailure(124, OutputCeiling);
      }
      if steps > env.limits.maxSteps {
        SetFailure(124, StepCeiling);
      }
    }

    /** The counters of a finished step and the checks made once they are added. */
    method OnTokens(v: Tokens, why: StopReason)
      requires v.Tokens?
      modifies this`counts, this`missing, this`code, this`reason, this`timedOut, this`finalReason
      ensures Now() == Tallied(old(Now()), AddUpTo(Tally(old(counts), old(missing), false), v, |KEYS|),
                               v, why, env.limits)
    {
      hide CheckStep, AddUpTo;
      var bad := AddCounters(v);
      if bad {
        SetFailure(4, Malformed);
        return;
      }
      CheckCeilings(v);
      finalReason := why;
    }

    method OnFinish(v: Tokens, why: StopReason)
      modifies this
      ensures InLoop() == old(InLoop()).(s := FinishStep(old(Now()), v, why, env.limits))
    {
      hide Tallied;
      steps := steps + 1;
      if v.NotAnObject? {
        SetFailure(4, Malformed);
      } else {
        OnTokens(v, why);
      }
    }

    method OnTool(tool: Tool, state: ToolState)
      modifies this
      ensures InLoop() == old(InLoop()).(s := UseTool(old(Now()), tool, state, env.limits))
    {
      toolCalls := toolCalls + 1;
      if tool.Unlookable? {
        SetFailure(4, Malformed);
      } else if tool.name !in env.limits.allowedTools {
        SetFailure(4, ForbiddenTool);
      } else if state.StateNotAnObject? {
        SetFailure(4, Malformed);
      } else if state.NotCompleted? {
        SetFailure(4, ForbiddenTool);
      } else if toolCalls > env.limits.maxTools {
        SetFailure(124, ToolCeiling);
      }
    }

    method OnPart(part: Part)
      modifies this
      ensures InLoop() == old(InLoop()).(s := Dispatch(old(Now()), part, env.limits))
    {
      hide FinishStep, UseTool;
      match part
      case StepStart =>
        starts, text, finalReason := starts + 1, "", Unset;
        if starts > env.limits.maxSteps {
          SetFailure(124, StepCeiling);
        }
      case Text(t) =>
        if t.None? {
          SetFailure(4, Malformed);
        } else {
          text := text + t.value;
        }
      case ErrorReport => SetFailure(4, ProviderError);
      case ToolUse(tool, state) => OnTool(tool, state);
      case StepFinish(v, why) => OnFinish(v, why);
      case ReasoningNote =>
      case Unknown(_) => SetFailure(4, Malformed);
    }

    method ConsumeLine(raw: Bytes)
      modifies this
      ensures InLoop() == old(InLoop()).(s := Consume(old(Now()), raw, env))
    {
      hide Dispatch;
      match env.parse(raw)
      case NotAnEvent => SetFailure(4, Malformed);
      case Event(identity, part) =>
        match identity
        case Anonymous => OnPart(part);
        case Unhashable => SetFailure(4, Malformed);
        case Identified(id) =>
          var key := EventKey(KindOf(part), id);
          if key in seen {
            if seen[key] != raw {
              SetFailure(4, Malformed);
            }
            return;
          }
          seen := seen[key := raw];
          OnPart(part);
    }

    /** Cut and consume the complete lines held in the buffer. */
    method DrainBuffer()
      modifies this
      ensures InLoop() == var d := Drain(old(Now()), old(buffered), env);
                          old(InLoop()).(s := d.0, buffered := d.1)
    {
      ghost var goal := Drain(Now(), buffered, env);
      while FirstNewline(buffered) < |buffered| && code == 0
        invariant byteCount == old(byteCount) && open == old(open)
        invariant Drain(Now(), buffered, env) == goal
        decreases |buffered|
      {
        var i := FirstNewline(buffered);
        var line := buffered[..i];
        buffered := buffered[i + 1..];
        if !Blank(line) {
          ConsumeLine(line);
        }
      }
    }

    method ReadPipe(r: Read)
      modifies this
      ensures InLoop() == DoRead(old(InLoop()), r, env)
    {
      if r.data == [] {
        open := open - {r.pipe};
        return;
      }
      byteCount := byteCount + |r.data|;
      if byteCount > env.limits.maxBytes {
        SetFailure(124, ByteCeiling);
        return;
      }
      if r.pipe == Stderr {
        return;
      }
      buffered := buffered + r.data;
      DrainBuffer();
    }

    method ReadAll(ready: seq<Read>)
      modifies this
      ensures InLoop() == DoReads(old(InLoop()), ready, env)
    {
      var j := 0;
      while j < |ready| && byteCount <= env.limits.maxBytes
        invariant j <= |ready|
        invariant DoReads(InLoop(), ready[j..], env) == old(DoReads(InLoop(), ready, env))
      {
        ReadPipe(ready[j]);
        j := j + 1;
      }
    }

    method PollPipes(rounds: seq<Round>)
      modifies this
      ensures InLoop() == Poll(old(InLoop()), rounds, env)
    {
      var n := 0;
      while open != {} && code == 0
        invariant n <= |rounds|
        invariant Poll(InLoop(), rounds[n..], env) == old(Poll(InLoop(), rounds, env))
        decreases |rounds| - n
      {
        if n == |rounds| {
          SetFailure(124, WallClock, true);
          break;
        }
        var r := rounds[n];
        if r.tick.Raised? {
          SetFailure(r.tick.code, BoundaryRaised(r.tick.what));
          break;
        }
        if r.tick.Broke? {
          SetFailure(4, BoundaryFailed);
          break;
        }
        if r.expired {
          SetFailure(124, WallClock, true);
          break;
        }
        ReadAll(r.ready);
        n := n + 1;
      }
    }

    /** One whole run of the process. */
    method Run(rounds: seq<Round>, exit: Exit)
      requires InLoop() == STARTED
      modifies this
      ensures Now() == RunStream(rounds, exit, env)
    {
      hide Poll, Consume;
      PollPipes(rounds);
      if code == 0 && !Blank(buffered) {
        ConsumeLine(buffered);
      }
      if code == 0 {
        match exit
        case Hung => SetFailure(124, WallClock, true);
        case Exited(rc) =>
          if rc != 0 {
            SetFailure(4, BadExit);
          } else if missing != {} || steps == 0 || starts != steps {
            SetFailure(4, IncompleteEvidence);
          } else if finalReason != Stop {
            SetFailure(4, NotFinished);
          }
      }
      if missing != {} {
        counts := counts - {Total};
      }
    }
  }
}
