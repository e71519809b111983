/** The editor's event stream, as a pure state machine: what one event line does, what a
    run of reads does, and what the reader reports when the process has ended.
    JSON parsing is a parameter: a line is classified by `Env.parse`. */
module EventStream {
  import opened Prelude

  type Byte = b: int | 0 <= b < 256
  type Bytes = seq<Byte>

  const NEWLINE: Byte := 10
  const COUNT_LIMIT := 10_000_000

  // ---------------------------------------------------------------- events

  datatype Key = Input | Output | Reasoning | CacheRead | CacheWrite | Total

  const KEYS: seq<Key> := [Input, Output, Reasoning, CacheRead, CacheWrite, Total]

  /** Position of a key in `KEYS`. */
  function Index(k: Key): (i: nat)
    ensures i < |KEYS| && KEYS[i] == k
  {
    match k
    case Input => 0
    case Output => 1
    case Reasoning => 2
    case CacheRead => 3
    case CacheWrite => 4
    case Total => 5
  }

  /** One reported counter: absent or null, an integer, or any other JSON value. */
  datatype Field = Null | Whole(n: int) | NotAnInteger

  datatype Tokens = NotAnObject | Tokens(input: Field, output: Field, reasoning: Field,
                                         cacheRead: Field, cacheWrite: Field, total: Field)
  {
    function At(k: Key): Field
      requires Tokens?
    {
      match k
      case Input => input
      case Output => output
      case Reasoning => reasoning
      case CacheRead => cacheRead
      case CacheWrite => cacheWrite
      case Total => total
    }
  }

  datatype StopReason = Unset | Stop | OtherReason

  /** The tool field: a name, or a value that cannot be looked up in a set. */
  datatype Tool = Named(name: string) | Unlookable
  datatype ToolState = StateNotAnObject | Completed | NotCompleted

  datatype Part =
    | StepStart
    | Text(text: Option<string>)           // None: the field is not a string
    | ErrorReport
    | ToolUse(tool: Tool, state: ToolState)
    | StepFinish(tokens: Tokens, reason: StopReason)
    | ReasoningNote
    | Unknown(kind: string)

  datatype Kind = KStart | KText | KError | KTool | KFinish | KReasoning | KUnknown(kind: string)

  function KindOf(p: Part): Kind {
    match p
    case StepStart => KStart
    case Text(_) => KText
    case ErrorReport => KError
    case ToolUse(_, _) => KTool
    case StepFinish(_, _) => KFinish
    case ReasoningNote => KReasoning
    case Unknown(k) => KUnknown(k)
  }

  /** `Unhashable`: an identity that cannot be a dictionary key. */
  datatype Identity = Anonymous | Identified(id: string) | Unhashable
  datatype Parsed = NotAnEvent | Event(identity: Identity, part: Part)
  datatype EventKey = EventKey(kind: Kind, id: string)

  datatype Limits = Limits(maxTokens: nat, maxSteps: nat, maxTools: nat, maxBytes: nat,
                           maxContext: nat, maxOutput: nat, allowedTools: set<string>)

  datatype Env = Env(limits: Limits, parse: Bytes -> Parsed)

  // ---------------------------------------------------------------- state

  type ErrorCode = n: int | n > 0 witness 4

  datatype Reason =
    | NoReason
    | Malformed | ProviderError | ForbiddenTool | Inconsistent
    | StepCeiling | ToolCeiling | TokenCeiling | ContextCeiling | OutputCeiling
    | ByteCeiling | WallClock | BoundaryRaised(what: string) | BoundaryFailed
    | BadExit | IncompleteEvidence | NotFinished

  type Counts = map<Key, nat>

  datatype State = State(
    code: nat, reason: Reason, timedOut: bool,
    counts: Counts, missing: set<Key>,
    steps: nat, starts: nat, toolCalls: nat,
    text: string, finalReason: StopReason,
    seen: map<EventKey, Bytes>)

  const INITIAL := State(0, NoReason, false, map[], {}, 0, 0, 0, "", Unset, map[])

  function Fail(s: State, code: ErrorCode, reason: Reason, timedOut: bool := false): State {
    s.(code := code, reason := reason, timedOut := timedOut)
  }

  function Get(c: Counts, k: Key): nat {
    if k in c then c[k] else 0
  }

  /** Sum of the disjoint categories; the reported total is not one of them. */
  function Categories(c: Counts): nat {
    Get(c, Input) + Get(c, Output) + Get(c, Reasoning) + Get(c, CacheRead) + Get(c, CacheWrite)
  }

  function Amount(f: Field): int {
    if f.Whole? then f.n else 0
  }

  predicate Quiet(s: State) {
    s.code == 0 ==> s.reason == NoReason && !s.timedOut
  }

  // ---------------------------------------------------------------- one event

  /** What handling the body of an event never does: clear a failure, forget an identity,
      or leave a reason behind without a failure. */
  predicate Keeps(s: State, r: State) {
    && (s.code != 0 ==> r.code != 0)
    && r.seen == s.seen
    && (Quiet(s) ==> Quiet(r))
  }

  datatype Tally = Tally(counts: Counts, missing: set<Key>, bad: bool)

  /** Fold one counter into the running sums; a bad value stops the fold. */
  function AddOne(t: Tally, k: Key, f: Field): Tally {
    if t.bad then t
    else match f
      case Null => t.(missing := t.missing + {k})
      case NotAnInteger => t.(bad := true)
      case Whole(n) =>
        if 0 <= n <= COUNT_LIMIT then t.(counts := t.counts[k := Get(t.counts, k) + n])
        else t.(bad := true)
  }

  function AddUpTo(t: Tally, v: Tokens, i: nat): Tally
    requires v.Tokens? && i <= |KEYS|
  {
    if i == 0 then t else AddOne(AddUpTo(t, v, i - 1), KEYS[i - 1], v.At(KEYS[i - 1]))
  }

  function Normalized(v: Tokens): int
    requires v.Tokens?
  {
    Amount(v.input) + Amount(v.output) + Amount(v.reasoning) + Amount(v.cacheRead) + Amount(v.cacheWrite)
  }

  predicate BelowCategories(v: Tokens)
    requires v.Tokens?
  {
    v.total.Whole? && v.total.n < Normalized(v)
  }

  /** Why a finished step fails, if it does: of the failing checks the last one is reported. */
  function Breach(s: State, v: Tokens, lim: Limits): Reason
    requires v.Tokens?
  {
    if s.steps > lim.maxSteps then StepCeiling
    else if Amount(v.output) + Amount(v.reasoning) > lim.maxOutput then OutputCeiling
    else if Amount(v.input) + Amount(v.cacheRead) + Amount(v.cacheWrite) > lim.maxContext then ContextCeiling
    else if Max(Categories(s.counts), Get(s.counts, Total)) > lim.maxTokens then TokenCeiling
    else if BelowCategories(v) then Inconsistent
    else NoReason
  }

  function CheckStep(s: State, v: Tokens, lim: Limits): (r: State)
    requires v.Tokens?
    ensures Keeps(s, r)
  {
    var b := Breach(s, v, lim);
    var s1 := s.(missing := if BelowCategories(v) then s.missing + {Total} else s.missing);
    if b == NoReason then s1 else Fail(s1, if b == Inconsistent then 4 else 124, b)
  }

  /** A finished step whose counters folded to `t`. */
  function Tallied(s: State, t: Tally, v: Tokens, reason: StopReason, lim: Limits): (r: State)
    requires v.Tokens?
    ensures Keeps(s, r)
  {
    var s1 := s.(counts := t.counts, missing := t.missing);
    if t.bad then Fail(s1, 4, Malformed) else CheckStep(s1, v, lim).(finalReason := reason)
  }

  function FinishStep(s: State, v: Tokens, reason: StopReason, lim: Limits): (r: State)
    ensures Keeps(s, r)
  {
    var s1 := s.(steps := s.steps + 1);
    if v.NotAnObject? then Fail(s1, 4, Malformed)
    else Tallied(s1, AddUpTo(Tally(s.counts, s.missing, false), v, |KEYS|), v, reason, lim)
  }

  function UseTool(s: State, tool: Tool, state: ToolState, lim: Limits): (r: State)
    ensures Keeps(s, r)
  {
    var s1 := s.(toolCalls := s.toolCalls + 1);
    if tool.Unlookable? then Fail(s1, 4, Malformed)
    else if tool.name !in lim.allowedTools then Fail(s1, 4, ForbiddenTool)
    else if state.StateNotAnObject? then Fail(s1, 4, Malformed)
    else if state.NotCompleted? then Fail(s1, 4, ForbiddenTool)
    else if s1.toolCalls > lim.maxTools then Fail(s1, 124, ToolCeiling)
    else s1
  }

  function Dispatch(s: State, p: Part, lim: Limits): (r: State)
    ensures Keeps(s, r)
  {
    match p
    case StepStart =>
      var s1 := s.(starts := s.starts + 1, text := "", finalReason := Unset);
      if s1.starts > lim.maxSteps then Fail(s1, 124, StepCeiling) else s1
    case Text(t) => if t.None? then Fail(s, 4, Malformed) else s.(text := s.text + t.value)
    case ErrorReport => Fail(s, 4, ProviderError)
    case ToolUse(tool, state) => UseTool(s, tool, state, lim)
    case StepFinish(v, reason) => FinishStep(s, v, reason, lim)
    case ReasoningNote => s
    case Unknown(_) => Fail(s, 4, Malformed)
  }

  function Consume(s: State, raw: Bytes, env: Env): (r: State)
    ensures s.code != 0 ==> r.code != 0
    ensures Quiet(s) ==> Quiet(r)
  {
    match env.parse(raw)
    case NotAnEvent => Fail(s, 4, Malformed)
    case Event(identity, part) =>
      match identity
      case Anonymous => Dispatch(s, part, env.limits)
      case Unhashable => Fail(s, 4, Malformed)
      case Identified(id) =>
        var key := EventKey(KindOf(part), id);
        if key !in s.seen then Dispatch(s.(seen := s.seen[key := raw]), part, env.limits)
        else if s.seen[key] == raw then s
        else Fail(s, 4, Malformed)
  }

  /** The reference reading: consume complete lines until the first failure. */
  function Fold(s: State, lines: seq<Bytes>, env: Env): State
    decreases |lines|
  {
    if lines == [] || s.code != 0 then s else Fold(Consume(s, lines[0], env), lines[1..], env)
  }

  // ---------------------------------------------------------------- cutting lines

  predicate Space(b: Byte) {
    9 <= b <= 13 || b == 32
  }

  predicate Blank(line: Bytes) {
    forall i :: 0 <= i < |line| ==> Space(line[i])
  }

  /** Length of the part before the first newline; the whole length when there is none. */
  function FirstNewline(bs: Bytes): (i: nat)
    ensures i <= |bs|
    ensures i < |bs| ==> bs[i] == NEWLINE
    ensures forall j :: 0 <= j < i ==> bs[j] != NEWLINE
  {
    if bs == [] || bs[0] == NEWLINE then 0 else 1 + FirstNewline(bs[1..])
  }

  /** The buffering loop: cut and consume complete lines while nothing has failed. */
  function Drain(s: State, buf: Bytes, env: Env): (State, Bytes)
    decreases |buf|
  {
    var i := FirstNewline(buf);
    if i == |buf| || s.code != 0 then (s, buf)
    else Drain(if Blank(buf[..i]) then s else Consume(s, buf[..i], env), buf[i + 1..], env)
  }

  /** All non-blank lines of a complete output, including an unterminated last one. */
  function Payload(bs: Bytes): seq<Bytes>
    decreases |bs|
  {
    var i := FirstNewline(bs);
    if i == |bs| then (if Blank(bs) then [] else [bs])
    else (if Blank(bs[..i]) then [] else [bs[..i]]) + Payload(bs[i + 1..])
  }

  // ---------------------------------------------------------------- a whole run

  datatype Pipe = Stdout | Stderr
  /** One read of a ready pipe; no data means the pipe was closed. */
  datatype Read = Read(pipe: Pipe, data: Bytes)
  datatype Tick = Calm | Raised(code: ErrorCode, what: string) | Broke
  /** One turn of the polling loop. */
  datatype Round = Round(tick: Tick, expired: bool, ready: seq<Read>)
  datatype Exit = Exited(rc: int) | Hung

  datatype Loop = Loop(s: State, buffered: Bytes, byteCount: nat, open: set<Pipe>)

  const STARTED := Loop(INITIAL, [], 0, {Stdout, Stderr})

  function DoRead(l: Loop, r: Read, env: Env): Loop {
    if r.data == [] then l.(open := l.open - {r.pipe})
    else
      var n := l.byteCount + |r.data|;
      if n > env.limits.maxBytes then l.(byteCount := n, s := Fail(l.s, 124, ByteCeiling))
      else if r.pipe == Stderr then l.(byteCount := n)
      else
        var d := Drain(l.s, l.buffered + r.data, env);
        l.(byteCount := n, s := d.0, buffered := d.1)
  }

  /** The reads of one turn, abandoned when the byte ceiling is crossed. */
  function DoReads(l: Loop, ready: seq<Read>, env: Env): Loop
    decreases |ready|
  {
    if ready == [] || l.byteCount > env.limits.maxBytes then l
    else DoReads(DoRead(l, ready[0], env), ready[1..], env)
  }

  /** The polling loop. A script that is used up while a pipe is open means the clock ran out. */
  function Poll(l: Loop, rounds: seq<Round>, env: Env): Loop
    decreases |rounds|
  {
    if l.open == {} || l.s.code != 0 then l
    else if rounds == [] then l.(s := Fail(l.s, 124, WallClock, true))
    else
      var r := rounds[0];
      match r.tick
      case Raised(code, what) => l.(s := Fail(l.s, code, BoundaryRaised(what)))
      case Broke => l.(s := Fail(l.s, 4, BoundaryFailed))
      case Calm =>
        if r.expired then l.(s := Fail(l.s, 124, WallClock, true))
        else Poll(DoReads(l, r.ready, env), rounds[1..], env)
  }

  /** Consume what is left in the buffer when the pipes have closed. */
  function Flush(s: State, buffered: Bytes, env: Env): State {
    if s.code == 0 && !Blank(buffered) then Consume(s, buffered, env) else s
  }

  function Judge(s: State, exit: Exit): State {
    if s.code != 0 then s
    else match exit
      case Hung => Fail(s, 124, WallClock, true)
      case Exited(rc) =>
        if rc != 0 then Fail(s, 4, BadExit)
        else if s.missing != {} || s.steps == 0 || s.starts != s.steps then Fail(s, 4, IncompleteEvidence)
        else if s.finalReason != Stop then Fail(s, 4, NotFinished)
        else s
  }

  /** A total is unknown as soon as one step omitted a counter. */
  function Withhold(s: State): State {
    if s.missing != {} then s.(counts := s.counts - {Total}) else s
  }

  function RunStream(rounds: seq<Round>, exit: Exit, env: Env): State {
    var l := Poll(STARTED, rounds, env);
    Withhold(Judge(Flush(l.s, l.buffered, env), exit))
  }
}
