/** What the event reader guarantees: independence of how the output is cut into reads,
    replay protection, and what a successful stream certifies about its counters. */
module StreamTheorems {
  import opened Prelude
  import opened EventStream

  // ---------------------------------------------------------------- chunk independence

  lemma {:induction false} FirstNewlineConcat(a: Bytes, b: Bytes)
    ensures FirstNewline(a) < |a| ==> FirstNewline(a + b) == FirstNewline(a)
  {
    if a != [] && a[0] != NEWLINE {
      assert (a + b)[1..] == a[1..] + b;
      FirstNewlineConcat(a[1..], b);
    }
  }

  lemma {:induction false} FoldConcat(s: State, xs: seq<Bytes>, ys: seq<Bytes>, env: Env)
    ensures Fold(s, xs + ys, env) == Fold(Fold(s, xs, env), ys, env)
    decreases |xs|
  {
    if xs == [] {
      assert xs + ys == ys;
    } else if s.code == 0 {
      assert (xs + ys)[1..] == xs[1..] + ys;
      FoldConcat(Consume(s, xs[0], env), xs[1..], ys, env);
    }
  }

  lemma FoldOne(s: State, line: Bytes, env: Env)
    ensures Fold(s, [], env) == s
    ensures Fold(s, [line], env) == if s.code != 0 then s else Consume(s, line, env)
  {
    hide Consume;
    assert [line][1..] == [];
  }

  /** Draining a buffer now and reading more later is reading everything at once. */
  lemma {:induction false} DrainThenMore(s: State, buf: Bytes, more: Bytes, env: Env)
    ensures var d := Drain(s, buf, env);
            Fold(s, Payload(buf + more), env) == Fold(d.0, Payload(d.1 + more), env)
    decreases |buf|
  {
    hide Consume;
    var i := FirstNewline(buf);
    if i < |buf| && s.code == 0 {
      FirstNewlineConcat(buf, more);
      assert (buf + more)[..i] == buf[..i];
      assert (buf + more)[i + 1..] == buf[i + 1..] + more;
      var head := if Blank(buf[..i]) then [] else [buf[..i]];
      var rest := Payload(buf[i + 1..] + more);
      FoldConcat(s, head, rest, env);
      var s1 := if Blank(buf[..i]) then s else Consume(s, buf[..i], env);
      DrainThenMore(s1, buf[i + 1..], more, env);
    }
  }

  lemma {:induction false} DrainLeavesNoLine(s: State, buf: Bytes, env: Env)
    ensures var d := Drain(s, buf, env);
            d.0.code == 0 ==> FirstNewline(d.1) == |d.1|
    decreases |buf|
  {
    hide Consume;
    var i := FirstNewline(buf);
    if i < |buf| && s.code == 0 {
      DrainLeavesNoLine(if Blank(buf[..i]) then s else Consume(s, buf[..i], env), buf[i + 1..], env);
    }
  }

  function StdoutOf(ready: seq<Read>): Bytes {
    if ready == [] then []
    else (if ready[0].pipe == Stdout then ready[0].data else []) + StdoutOf(ready[1..])
  }

  function SizeOf(ready: seq<Read>): nat {
    if ready == [] then 0 else |ready[0].data| + SizeOf(ready[1..])
  }

  function Closed(ready: seq<Read>): set<Pipe> {
    if ready == [] then {}
    else (if ready[0].data == [] then {ready[0].pipe} else {}) + Closed(ready[1..])
  }

  function StdoutBytes(rounds: seq<Round>): Bytes {
    if rounds == [] then [] else StdoutOf(rounds[0].ready) + StdoutBytes(rounds[1..])
  }

  function Volume(rounds: seq<Round>): nat {
    if rounds == [] then 0 else SizeOf(rounds[0].ready) + Volume(rounds[1..])
  }

  /** Rounds that read both pipes to their end with no callback failure and time to spare. */
  predicate ReadsToEnd(open: set<Pipe>, rounds: seq<Round>) {
    if open == {} then rounds == []
    else rounds != [] && rounds[0].tick == Calm && !rounds[0].expired
         && ReadsToEnd(open - Closed(rounds[0].ready), rounds[1..])
  }

  /** What the reader would make of its buffer followed by `more`, were it to read on. */
  ghost function Outcome(l: Loop, more: Bytes, env: Env): State {
    Fold(l.s, Payload(l.buffered + more), env)
  }

  ghost predicate Cut(l: Loop) {
    l.s.code == 0 ==> FirstNewline(l.buffered) == |l.buffered|
  }

  lemma ReadKeepsOutcome(l: Loop, r: Read, rest: Bytes, env: Env)
    requires Cut(l) && l.byteCount + |r.data| <= env.limits.maxBytes
    ensures var l' := DoRead(l, r, env);
            && Cut(l') && l'.byteCount == l.byteCount + |r.data|
            && l'.open == (if r.data == [] then l.open - {r.pipe} else l.open)
            && Outcome(l', rest, env) == Outcome(l, (if r.pipe == Stdout then r.data else []) + rest, env)
  {
    hide Drain, Payload, Fold;
    if r.pipe == Stdout && r.data != [] {
      assert l.buffered + (r.data + rest) == (l.buffered + r.data) + rest;
      DrainThenMore(l.s, l.buffered + r.data, rest, env);
      DrainLeavesNoLine(l.s, l.buffered + r.data, env);
    } else {
      assert (if r.pipe == Stdout then r.data else []) + rest == rest;
    }
  }

  lemma {:induction false} ReadsKeepOutcome(l: Loop, ready: seq<Read>, more: Bytes, env: Env)
    requires Cut(l) && l.byteCount + SizeOf(ready) <= env.limits.maxBytes
    ensures var l' := DoReads(l, ready, env);
            && Cut(l') && l'.byteCount == l.byteCount + SizeOf(ready)
            && l'.open == l.open - Closed(ready)
            && Outcome(l', more, env) == Outcome(l, StdoutOf(ready) + more, env)
    decreases |ready|
  {
    hide DoRead, Outcome, Cut;
    if ready == [] {
      assert l.open - Closed(ready) == l.open;
      assert StdoutOf(ready) + more == more;
    } else {
      var rest := StdoutOf(ready[1..]) + more;
      var mine := if ready[0].pipe == Stdout then ready[0].data else [];
      assert StdoutOf(ready) + more == mine + rest;
      ReadKeepsOutcome(l, ready[0], rest, env);
      var l1 := DoRead(l, ready[0], env);
      ReadsKeepOutcome(l1, ready[1..], more, env);
      assert l1.open - Closed(ready[1..]) == l.open - Closed(ready);
    }
  }

  lemma {:induction false} PollKeepsOutcome(l: Loop, rounds: seq<Round>, env: Env)
    requires Cut(l) && ReadsToEnd(l.open, rounds)
    requires l.byteCount + Volume(rounds) <= env.limits.maxBytes
    ensures var l' := Poll(l, rounds, env);
            Cut(l') && Flush(l'.s, l'.buffered, env) == Outcome(l, StdoutBytes(rounds), env)
    decreases |rounds|
  {
    if l.s.code != 0 {
    } else if l.open == {} {
      assert l.buffered + StdoutBytes(rounds) == l.buffered;
      assert Payload(l.buffered) == if Blank(l.buffered) then [] else [l.buffered];
      FoldOne(l.s, l.buffered, env);
    } else {
      var r := rounds[0];
      assert l.buffered + StdoutBytes(rounds) == l.buffered + (StdoutOf(r.ready) + StdoutBytes(rounds[1..]));
      ReadsKeepOutcome(l, r.ready, StdoutBytes(rounds[1..]), env);
      PollKeepsOutcome(DoReads(l, r.ready, env), rounds[1..], env);
    }
  }

  /** However standard output is cut into reads, and whatever the error pipe carries beside it,
      a run inside the byte limit is the fold of its non-blank lines up to the first failure. */
  lemma ChunkIndependence(rounds: seq<Round>, exit: Exit, env: Env)
    requires ReadsToEnd(STARTED.open, rounds) && Volume(rounds) <= env.limits.maxBytes
    ensures RunStream(rounds, exit, env)
         == Withhold(Judge(Fold(INITIAL, Payload(StdoutBytes(rounds)), env), exit))
  {
    PollKeepsOutcome(STARTED, rounds, env);
    assert STARTED.buffered + StdoutBytes(rounds) == StdoutBytes(rounds);
  }

  // ---------------------------------------------------------------- failures are final

  lemma {:induction false} FoldStopsAtFailure(s: State, lines: seq<Bytes>, env: Env)
    ensures Fold(s, lines, env).code == 0 ==> s.code == 0
    decreases |lines|
  {
    if lines != [] && s.code == 0 {
      FoldStopsAtFailure(Consume(s, lines[0], env), lines[1..], env);
    }
  }

  /** Once the polling loop has recorded a failure nothing that follows makes the run succeed. */
  lemma {:induction false} FailureIsSticky(l: Loop, ready: seq<Read>, env: Env)
    requires l.s.code != 0
    ensures DoReads(l, ready, env).s.code != 0
    decreases |ready|
  {
    if ready != [] && l.byteCount <= env.limits.maxBytes {
      FailureIsSticky(DoRead(l, ready[0], env), ready[1..], env);
    }
  }

  /** One of the turns records a failure: the callback raises or breaks, the clock has run out, or what
      is read fails. Turns after the pipes have closed are not taken. */
  ghost predicate RecordsFailure(l: Loop, rounds: seq<Round>, env: Env)
    decreases |rounds|
  {
    || l.s.code != 0
    || (&& l.open != {} && rounds != []
        && (|| rounds[0].tick != Calm || rounds[0].expired
            || RecordsFailure(DoReads(l, rounds[0].ready, env), rounds[1..], env)))
  }

  /** A failure recorded at any turn is the end of the loop, whatever turns would follow, and it fails
      the run whatever is left in the buffer and however the process exits. */
  lemma {:induction false} FailureSurvivesTheRun(l: Loop, before: seq<Round>, after: seq<Round>, exit: Exit, env: Env)
    requires RecordsFailure(l, before, env)
    ensures var l' := Poll(l, before + after, env);
            l' == Poll(l, before, env) && Judge(Flush(l'.s, l'.buffered, env), exit) == l'.s && l'.s.code != 0
    decreases |before|
  {
    if l.open != {} && l.s.code == 0 && before != [] {
      assert (before + after)[0] == before[0] && (before + after)[1..] == before[1..] + after;
      var r := before[0];
      if r.tick == Calm && !r.expired {
        FailureSurvivesTheRun(DoReads(l, r.ready, env), before[1..], after, exit, env);
      }
    }
  }

  // ---------------------------------------------------------------- replay

  function KeyOf(raw: Bytes, env: Env): Option<EventKey> {
    match env.parse(raw)
    case NotAnEvent => None
    case Event(identity, part) =>
      if identity.Identified? then Some(EventKey(KindOf(part), identity.id)) else None
  }

  lemma ConsumeRemembers(s: State, raw: Bytes, env: Env)
    ensures forall k :: k in s.seen ==> k in Consume(s, raw, env).seen && Consume(s, raw, env).seen[k] == s.seen[k]
    ensures var s' := Consume(s, raw, env);
            var key := KeyOf(raw, env);
            s'.code == 0 && key.Some? ==> key.value in s'.seen && s'.seen[key.value] == raw
  {
  }

  lemma {:induction false} FoldRemembers(s: State, lines: seq<Bytes>, k: EventKey, env: Env)
    requires k in s.seen
    ensures k in Fold(s, lines, env).seen && Fold(s, lines, env).seen[k] == s.seen[k]
    decreases |lines|
  {
    if lines != [] && s.code == 0 {
      ConsumeRemembers(s, lines[0], env);
      FoldRemembers(Consume(s, lines[0], env), lines[1..], k, env);
    }
  }

  /** An accepted identified event is remembered in every later state of the stream. */
  lemma AcceptedIsRemembered(s: State, a: seq<Bytes>, e: Bytes, b: seq<Bytes>, env: Env)
    requires KeyOf(e, env).Some? && s.code == 0 && Fold(s, a + [e], env).code == 0
    ensures var s' := Fold(s, a + [e] + b, env);
            KeyOf(e, env).value in s'.seen && s'.seen[KeyOf(e, env).value] == e
  {
    FoldConcat(s, a, [e], env);
    var mid := Fold(s, a, env);
    FoldStopsAtFailure(mid, [e], env);
    FoldOne(mid, e, env);
    ConsumeRemembers(mid, e, env);
    FoldConcat(s, a + [e], b, env);
    FoldRemembers(Fold(s, a + [e], env), b, KeyOf(e, env).value, env);
  }

  /** Repeating an accepted event anywhere later in the stream changes nothing. */
  lemma ReplayChangesNothing(s: State, a: seq<Bytes>, e: Bytes, b: seq<Bytes>, c: seq<Bytes>, env: Env)
    requires KeyOf(e, env).Some? && s.code == 0 && Fold(s, a + [e], env).code == 0
    ensures Fold(s, a + [e] + b + [e] + c, env) == Fold(s, a + [e] + b + c, env)
  {
    var ab := a + [e] + b;
    AcceptedIsRemembered(s, a, e, b, env);
    FoldConcat(s, ab, [e], env);
    FoldConcat(s, ab + [e], c, env);
    FoldConcat(s, ab, c, env);
    FoldOne(Fold(s, ab, env), e, env);
  }

  /** A different event under an accepted identity fails the stream, whatever follows it. */
  lemma ConflictFails(s: State, a: seq<Bytes>, e: Bytes, b: seq<Bytes>, e': Bytes, c: seq<Bytes>, env: Env)
    requires KeyOf(e, env).Some? && s.code == 0 && Fold(s, a + [e], env).code == 0
    requires e' != e && KeyOf(e', env) == KeyOf(e, env)
    ensures Fold(s, a + [e] + b + [e'] + c, env).code != 0
  {
    var ab := a + [e] + b;
    AcceptedIsRemembered(s, a, e, b, env);
    FoldConcat(s, ab, [e'], env);
    FoldConcat(s, ab + [e'], c, env);
    FoldOne(Fold(s, ab, env), e', env);
    FoldStopsAtFailure(Fold(s, ab + [e'], env), c, env);
  }

  // ---------------------------------------------------------------- what success certifies

  /** What adding the counters of one finished step amounts to for one key. */
  lemma {:induction false} AddUpToFacts(t: Tally, v: Tokens, i: nat, k: Key)
    requires v.Tokens? && i <= |KEYS| && !AddUpTo(t, v, i).bad
    ensures var t' := AddUpTo(t, v, i);
            && t.missing <= t'.missing && !t.bad
            && (Index(k) >= i ==> Get(t'.counts, k) == Get(t.counts, k))
            && (Index(k) < i ==>
                  && 0 <= Amount(v.At(k)) <= COUNT_LIMIT
                  && (k !in t'.missing ==> v.At(k).Whole? && k in t'.counts)
                  && Get(t'.counts, k) == Get(t.counts, k) + Amount(v.At(k)))
  {
    if i > 0 {
      AddUpToFacts(t, v, i - 1, k);
      assert Index(KEYS[i - 1]) == i - 1;
    }
  }

  lemma AddAllFacts(t: Tally, v: Tokens)
    requires v.Tokens? && !AddUpTo(t, v, |KEYS|).bad
    ensures var t' := AddUpTo(t, v, |KEYS|);
            && t.missing <= t'.missing
            && forall k :: (&& 0 <= Amount(v.At(k)) <= COUNT_LIMIT
                            && (k !in t'.missing ==> v.At(k).Whole? && k in t'.counts)
                            && Get(t'.counts, k) == Get(t.counts, k) + Amount(v.At(k)))
  {
    hide AddUpTo;
    AddUpToFacts(t, v, |KEYS|, Total);
    forall k
      ensures && 0 <= Amount(v.At(k)) <= COUNT_LIMIT
              && (k !in AddUpTo(t, v, |KEYS|).missing ==> v.At(k).Whole? && k in AddUpTo(t, v, |KEYS|).counts)
              && Get(AddUpTo(t, v, |KEYS|).counts, k) == Get(t.counts, k) + Amount(v.At(k))
    {
      AddUpToFacts(t, v, |KEYS|, k);
    }
  }

  lemma {:induction false} WholeAdds(t: Tally, v: Tokens, i: nat)
    requires v.Tokens? && !t.bad && i <= |KEYS|
    requires forall k :: v.At(k).Whole? && 0 <= v.At(k).n <= COUNT_LIMIT
    ensures !AddUpTo(t, v, i).bad && AddUpTo(t, v, i).missing == t.missing
  {
    if i > 0 {
      WholeAdds(t, v, i - 1);
    }
  }

  /** A step that reports input tokens only. */
  function InputOnly(n: int): Tokens {
    Tokens(Whole(n), Whole(0), Whole(0), Whole(0), Whole(0), Whole(n))
  }

  /** Such a step adds to two counters and fails only at a ceiling. */
  lemma InputOnlyStep(s: State, n: nat, why: StopReason, lim: Limits)
    requires n <= COUNT_LIMIT
    ensures var s' := FinishStep(s, InputOnly(n), why, lim);
            var spent := Max(Categories(s.counts), Get(s.counts, Total)) + n;
            && s'.missing == s.missing && s'.steps == s.steps + 1
            && (forall k :: Get(s'.counts, k) == Get(s.counts, k) + (if k == Input || k == Total then n else 0))
            && (s.missing == {} ==> Total in s'.counts)
            && s'.code == if s'.steps > lim.maxSteps || n > lim.maxContext || spent > lim.maxTokens then 124 else s.code
  {
    hide AddUpTo, Tallied, Get, Categories;
    var v := InputOnly(n);
    var t := Tally(s.counts, s.missing, false);
    WholeAdds(t, v, |KEYS|);
    AddAllFacts(t, v);
    InputOnlyTallied(s, AddUpTo(t, v, |KEYS|), n, why, lim);
  }

  lemma InputOnlyTallied(s: State, t: Tally, n: nat, why: StopReason, lim: Limits)
    requires !t.bad && t.missing == s.missing
    requires forall k :: Get(t.counts, k) == Get(s.counts, k) + Amount(InputOnly(n).At(k))
    ensures var s' := Tallied(s.(steps := s.steps + 1), t, InputOnly(n), why, lim);
            var spent := Max(Categories(s.counts), Get(s.counts, Total)) + n;
            && s'.counts == t.counts && s'.missing == s.missing && s'.steps == s.steps + 1
            && (forall k :: Get(s'.counts, k) == Get(s.counts, k) + (if k == Input || k == Total then n else 0))
            && s'.code == if s'.steps > lim.maxSteps || n > lim.maxContext || spent > lim.maxTokens then 124 else s.code
  {
    hide Get;
    var v := InputOnly(n);
    assert v.At(Input) == v.input && v.At(Output) == v.output && v.At(Reasoning) == v.reasoning;
    assert v.At(CacheRead) == v.cacheRead && v.At(CacheWrite) == v.cacheWrite && v.At(Total) == v.total;
    assert Categories(t.counts) == Categories(s.counts) + n;
  }

  /** Kept by every event. While nothing has failed the sums are within every ceiling; and unless an
      event was malformed they are consistent, as far as no counter was ever missing. Crossing the byte
      ceiling may replace the reason of a malformed event read in the same turn. */
  ghost predicate Sound(s: State, lim: Limits) {
    && Quiet(s) && s.steps <= lim.maxSteps + 1 && s.toolCalls <= lim.maxTools + 1
    && (s.code == 0 ==>
          && s.steps <= lim.maxSteps && s.starts <= lim.maxSteps && s.toolCalls <= lim.maxTools
          && Categories(s.counts) <= lim.maxTokens && Get(s.counts, Total) <= lim.maxTokens
          && (s.missing == {} && s.steps > 0 ==> forall k :: k in s.counts))
    && (s.missing == {} && s.reason != Malformed && s.reason != ByteCeiling ==>
          Categories(s.counts) <= Get(s.counts, Total))
  }

  lemma FinishKeepsSound(s: State, v: Tokens, reason: StopReason, lim: Limits)
    requires Sound(s, lim) && s.code == 0
    ensures Sound(FinishStep(s, v, reason, lim), lim)
  {
    hide AddUpTo, Tallied;
    if v.Tokens? {
      var t := AddUpTo(Tally(s.counts, s.missing, false), v, |KEYS|);
      if !t.bad {
        AddAllFacts(Tally(s.counts, s.missing, false), v);
      }
      TalliedKeepsSound(s, t, v, reason, lim);
    }
  }

  lemma TalliedKeepsSound(s: State, t: Tally, v: Tokens, reason: StopReason, lim: Limits)
    requires Sound(s, lim) && s.code == 0 && v.Tokens?
    requires !t.bad ==>
               && s.missing <= t.missing
               && forall k :: (&& 0 <= Amount(v.At(k)) <= COUNT_LIMIT
                               && (k !in t.missing ==> v.At(k).Whole? && k in t.counts)
                               && Get(t.counts, k) == Get(s.counts, k) + Amount(v.At(k)))
    ensures Sound(Tallied(s.(steps := s.steps + 1), t, v, reason, lim), lim)
  {
    if !t.bad {
      assert v.At(Total) == v.total && v.At(Input) == v.input && v.At(Output) == v.output;
      assert v.At(Reasoning) == v.reasoning && v.At(CacheRead) == v.cacheRead && v.At(CacheWrite) == v.cacheWrite;
      assert Categories(t.counts) == Categories(s.counts) + Normalized(v);
    }
  }

  lemma DispatchKeepsSound(s: State, p: Part, lim: Limits)
    requires Sound(s, lim) && s.code == 0
    ensures Sound(Dispatch(s, p, lim), lim)
  {
    if p.StepFinish? {
      hide FinishStep;
      FinishKeepsSound(s, p.tokens, p.reason, lim);
    }
  }

  lemma ConsumeKeepsSound(s: State, raw: Bytes, env: Env)
    requires Sound(s, env.limits) && s.code == 0
    ensures Sound(Consume(s, raw, env), env.limits)
  {
    hide Dispatch;
    var p := env.parse(raw);
    if p.Event? {
      DispatchKeepsSound(s, p.part, env.limits);
      if p.identity.Identified? {
        DispatchKeepsSound(s.(seen := s.seen[EventKey(KindOf(p.part), p.identity.id) := raw]), p.part, env.limits);
      }
    }
  }

  lemma {:induction false} DrainKeepsSound(s: State, buf: Bytes, env: Env)
    requires Sound(s, env.limits)
    ensures Sound(Drain(s, buf, env).0, env.limits)
    decreases |buf|
  {
    hide Consume;
    var i := FirstNewline(buf);
    if i < |buf| && s.code == 0 {
      if !Blank(buf[..i]) {
        ConsumeKeepsSound(s, buf[..i], env);
      }
      DrainKeepsSound(if Blank(buf[..i]) then s else Consume(s, buf[..i], env), buf[i + 1..], env);
    }
  }

  lemma {:induction false} ReadsKeepSound(l: Loop, ready: seq<Read>, env: Env)
    requires Sound(l.s, env.limits)
    ensures Sound(DoReads(l, ready, env).s, env.limits)
    decreases |ready|
  {
    hide Drain;
    if ready != [] && l.byteCount <= env.limits.maxBytes {
      DrainKeepsSound(l.s, l.buffered + ready[0].data, env);
      ReadsKeepSound(DoRead(l, ready[0], env), ready[1..], env);
    }
  }

  lemma {:induction false} PollKeepsSound(l: Loop, rounds: seq<Round>, env: Env)
    requires Sound(l.s, env.limits)
    ensures Sound(Poll(l, rounds, env).s, env.limits)
    decreases |rounds|
  {
    hide Drain;
    if l.open != {} && l.s.code == 0 && rounds != [] {
      ReadsKeepSound(l, rounds[0].ready, env);
      PollKeepsSound(DoReads(l, rounds[0].ready, env), rounds[1..], env);
    }
  }

  /** What the reader has when the process's output is used up. */
  lemma FlushKeepsSound(rounds: seq<Round>, env: Env)
    ensures var l := Poll(STARTED, rounds, env);
            Sound(Flush(l.s, l.buffered, env), env.limits)
  {
    hide Poll, Consume;
    var l := Poll(STARTED, rounds, env);
    PollKeepsSound(STARTED, rounds, env);
    if l.s.code == 0 && !Blank(l.buffered) {
      ConsumeKeepsSound(l.s, l.buffered, env);
    }
  }

  /** The certificate carried by exit code 0. */
  ghost predicate Certified(s: State, lim: Limits) {
    && s.starts == s.steps && 0 < s.steps <= lim.maxSteps && s.toolCalls <= lim.maxTools
    && (forall k :: k in s.counts)
    && Categories(s.counts) <= Get(s.counts, Total) <= lim.maxTokens
    && s.finalReason == Stop && s.reason == NoReason && !s.timedOut
  }

  /** Exit code 0 certifies the counters, for any bytes, any timing and any callback behaviour. */
  lemma SuccessCertificate(rounds: seq<Round>, exit: Exit, env: Env)
    requires RunStream(rounds, exit, env).code == 0
    ensures Certified(RunStream(rounds, exit, env), env.limits)
  {
    hide Poll, Flush;
    FlushKeepsSound(rounds, env);
  }

  /** What any finished stream is like, failed or not. */
  ghost predicate Plausible(s: State, lim: Limits) {
    && s.steps <= lim.maxSteps + 1 && s.toolCalls <= lim.maxTools + 1
    && (s.code == 0 ==> Certified(s, lim))
  }

  /** Step and tool counts overshoot their ceilings by at most one, even in a failed stream. */
  lemma StreamIsPlausible(rounds: seq<Round>, exit: Exit, env: Env)
    ensures Plausible(RunStream(rounds, exit, env), env.limits)
  {
    hide Poll, Flush, Certified;
    FlushKeepsSound(rounds, env);
    if RunStream(rounds, exit, env).code == 0 {
      SuccessCertificate(rounds, exit, env);
    }
  }

  /** A failed stream may keep its total, but no partial sum has overtaken it unless an event was
      malformed, or the byte ceiling was crossed, which can hide that one was. */
  lemma KeptTotalCoversCategories(rounds: seq<Round>, exit: Exit, env: Env)
    ensures var s := RunStream(rounds, exit, env);
            Total in s.counts && s.reason != Malformed && s.reason != ByteCeiling ==>
              Categories(s.counts) <= s.counts[Total]
  {
    hide Poll, Flush;
    FlushKeepsSound(rounds, env);
  }

  // ---------------------------------------------------------------- an independent count

  /** The counters of the step reports that are not repetitions, in order. `known` holds the
      identities seen so far. */
  function Reports(lines: seq<Bytes>, known: set<EventKey>, env: Env): seq<Tokens> {
    if lines == [] then []
    else
      var key := KeyOf(lines[0], env);
      var known' := if key.Some? then known + {key.value} else known;
      var p := env.parse(lines[0]);
      var first := if key.Some? then key.value !in known else p.Event? && p.identity.Anonymous?;
      (if first && p.Event? && p.part.StepFinish? then [p.part.tokens] else []) + Reports(lines[1..], known', env)
  }

  function SumOf(reports: seq<Tokens>, k: Key): int {
    if reports == [] then 0
    else (if reports[0].Tokens? then Amount(reports[0].At(k)) else 0) + SumOf(reports[1..], k)
  }

  lemma DispatchCounts(s: State, p: Part, k: Key, lim: Limits)
    requires s.code == 0 && Dispatch(s, p, lim).code == 0
    ensures var s' := Dispatch(s, p, lim);
            && s'.steps == s.steps + (if p.StepFinish? then 1 else 0)
            && Get(s'.counts, k) == Get(s.counts, k) + (if p.StepFinish? && p.tokens.Tokens? then Amount(p.tokens.At(k)) else 0)
  {
    if p.StepFinish? {
      hide AddUpTo, Breach;
      AddAllFacts(Tally(s.counts, s.missing, false), p.tokens);
    }
  }

  lemma ConsumeCounts(s: State, raw: Bytes, k: Key, env: Env)
    requires s.code == 0 && Consume(s, raw, env).code == 0
    ensures var s' := Consume(s, raw, env);
            var r := Reports([raw], s.seen.Keys, env);
            && s'.steps == s.steps + |r|
            && Get(s'.counts, k) == Get(s.counts, k) + SumOf(r, k)
            && s'.seen.Keys == (if KeyOf(raw, env).Some? then s.seen.Keys + {KeyOf(raw, env).value} else s.seen.Keys)
  {
    hide Dispatch;
    var p := env.parse(raw);
    assert [raw][1..] == [];
    var key := KeyOf(raw, env);
    if key.None? {
      DispatchCounts(s, p.part, k, env.limits);
    } else if key.value !in s.seen {
      DispatchCounts(s.(seen := s.seen[key.value := raw]), p.part, k, env.limits);
    } else {
      assert s.seen.Keys + {key.value} == s.seen.Keys;
    }
    if p.part.StepFinish? {
      assert [p.part.tokens][1..] == [];
    }
  }

  /** Nothing is counted twice and nothing is dropped: the step count and every counter of an
      unfailed stream are those of its distinct step reports. */
  lemma {:induction false} CountedExactlyOnce(s: State, lines: seq<Bytes>, k: Key, env: Env)
    requires s.code == 0 && Fold(s, lines, env).code == 0
    ensures var s' := Fold(s, lines, env);
            var r := Reports(lines, s.seen.Keys, env);
            s'.steps == s.steps + |r| && Get(s'.counts, k) == Get(s.counts, k) + SumOf(r, k)
    decreases |lines|
  {
    if lines != [] {
      var s1 := Consume(s, lines[0], env);
      FoldStopsAtFailure(s1, lines[1..], env);
      ConsumeCounts(s, lines[0], k, env);
      CountedExactlyOnce(s1, lines[1..], k, env);
      var key := KeyOf(lines[0], env);
      var known' := if key.Some? then s.seen.Keys + {key.value} else s.seen.Keys;
      assert s1.seen.Keys == known';
      var one: seq<Bytes> := [lines[0]];
      assert one[1..] == [];
      SumOfConcat(Reports(one, s.seen.Keys, env), Reports(lines[1..], known', env), k);
    }
  }

  lemma {:induction false} SumOfConcat(a: seq<Tokens>, b: seq<Tokens>, k: Key)
    ensures SumOf(a + b, k) == SumOf(a, k) + SumOf(b, k)
  {
    if a == [] {
      assert a + b == b;
    } else {
      assert (a + b)[1..] == a[1..] + b;
      SumOfConcat(a[1..], b, k);
    }
  }
}
