/** The quality gate cached on each run, recomputed by every feedback transaction under the run's
    row lock, and the savings that are banked by it. */
module QualityGate {
  import opened Prelude

  datatype Verdict = Accept | Reject

  /** One verdict per finding and user; the latest wins. */
  datatype Vote = Vote(finding: nat, user: nat)

  type Votes = map<Vote, Verdict>

  /** Which run each finding belongs to, and the configured threshold. */
  datatype Setup = Setup(runOf: map<nat, nat>, threshold: real)

  function RunVotes(votes: Votes, run: nat, s: Setup): set<Vote> {
    set v | v in votes && v.finding in s.runOf && s.runOf[v.finding] == run
  }

  function Accepted(votes: Votes, run: nat, s: Setup): set<Vote> {
    set v | v in RunVotes(votes, run, s) && votes[v] == Accept
  }

  /** Accepted over rated verdicts; None when nothing is rated. */
  function AcceptanceRate(votes: Votes, run: nat, s: Setup): Option<real> {
    var rated := |RunVotes(votes, run, s)|;
    if rated == 0 then None else Some(|Accepted(votes, run, s)| as real / rated as real)
  }

  /** The gate computed from all verdicts of a run. */
  function Recompute(votes: Votes, run: nat, s: Setup): Option<bool> {
    var rate := AcceptanceRate(votes, run, s);
    if rate.None? then None else Some(rate.value >= s.threshold)
  }

  /** A run is ungated without verdicts; otherwise it passes exactly when the accepted ones are at least the
      threshold's share of all of them. */
  lemma GateMeans(votes: Votes, run: nat, s: Setup)
    ensures var rated := set v | v in votes && v.finding in s.runOf && s.runOf[v.finding] == run;
            var accepted := set v | v in rated && votes[v] == Accept;
            && (Recompute(votes, run, s) == None <==> rated == {})
            && (Recompute(votes, run, s) == Some(true) <==>
                  rated != {} && |accepted| as real >= s.threshold * |rated| as real)
            && (Recompute(votes, run, s) == Some(false) <==>
                  rated != {} && |accepted| as real < s.threshold * |rated| as real)
  {
    var rated := set v | v in votes && v.finding in s.runOf && s.runOf[v.finding] == run;
    var accepted := set v | v in rated && votes[v] == Accept;
    assert RunVotes(votes, run, s) == rated && Accepted(votes, run, s) == accepted;
    if rated != {} {
      assert |rated| > 0;
      Shares(|accepted| as real, |rated| as real, s.threshold);
    }
  }

  lemma Shares(a: real, n: real, t: real)
    requires n > 0.0
    ensures a / n >= t <==> a >= t * n
  {
    var q := a / n;
    assert q * n == a;
    assert (q - t) * n == a - t * n;
    if q >= t {
      assert (q - t) * n >= 0.0;
    } else {
      assert (q - t) * n < 0.0;
    }
  }

  // ---------------------------------------------------------------- transactions

  /** A feedback transaction: waiting for its run's row, holding it, having upserted its verdict, or
      having computed the gate. Nothing of it is visible to others before it commits. */
  datatype Tx =
    | Waiting(vote: Vote, verdict: Verdict)
    | Locked(vote: Vote, verdict: Verdict)
    | Upserted(vote: Vote, verdict: Verdict)
    | Computed(vote: Vote, verdict: Verdict, gate: Option<bool>)
    | Done

  datatype State = State(votes: Votes, gates: map<nat, Option<bool>>, txs: map<nat, Tx>)

  const EMPTY := State(map[], map[], map[])

  function GateOf(s: State, run: nat): Option<bool> {
    if run in s.gates then s.gates[run] else None
  }

  predicate Holds(t: Tx, run: nat, s: Setup) {
    && !t.Waiting? && !t.Done?
    && t.vote.finding in s.runOf && s.runOf[t.vote.finding] == run
  }

  ghost predicate Unheld(st: State, run: nat, s: Setup) {
    forall t :: t in st.txs ==> !Holds(st.txs[t], run, s)
  }

  datatype Step = Begin(tx: nat, vote: Vote, verdict: Verdict) | Lock(tx: nat) | Upsert(tx: nat) | Compute(tx: nat)
                | Commit(tx: nat) | Rollback(tx: nat)

  ghost predicate Enabled(st: State, a: Step, s: Setup) {
    match a
    case Begin(t, v, _) => t !in st.txs && v.finding in s.runOf
    case Lock(t) => t in st.txs && st.txs[t].Waiting? && st.txs[t].vote.finding in s.runOf
                    && Unheld(st, s.runOf[st.txs[t].vote.finding], s)
    case Upsert(t) => t in st.txs && st.txs[t].Locked?
    case Compute(t) => t in st.txs && st.txs[t].Upserted? && st.txs[t].vote.finding in s.runOf
    case Commit(t) => t in st.txs && st.txs[t].Computed? && st.txs[t].vote.finding in s.runOf
    case Rollback(t) => t in st.txs
  }

  /** The verdicts a transaction reads: what is committed, with its own upsert. */
  function Visible(st: State, vote: Vote, verdict: Verdict): Votes {
    st.votes[vote := verdict]
  }

  ghost function Next(st: State, a: Step, s: Setup): State
    requires Enabled(st, a, s)
  {
    match a
    case Begin(t, v, verdict) => st.(txs := st.txs[t := Waiting(v, verdict)])
    case Lock(t) => st.(txs := st.txs[t := Locked(st.txs[t].vote, st.txs[t].verdict)])
    case Upsert(t) => st.(txs := st.txs[t := Upserted(st.txs[t].vote, st.txs[t].verdict)])
    case Compute(t) =>
      var x := st.txs[t];
      st.(txs := st.txs[t := Computed(x.vote, x.verdict,
                                      Recompute(Visible(st, x.vote, x.verdict), s.runOf[x.vote.finding], s))])
    case Commit(t) =>
      var x := st.txs[t];
      State(Visible(st, x.vote, x.verdict), st.gates[s.runOf[x.vote.finding] := x.gate], st.txs[t := Done])
    case Rollback(t) => st.(txs := st.txs[t := Done])
  }

  /** A verdict on another run's finding does not change a run's gate. */
  lemma OtherRunsUnaffected(votes: Votes, vote: Vote, verdict: Verdict, run: nat, s: Setup)
    requires vote.finding in s.runOf && s.runOf[vote.finding] != run
    ensures Recompute(votes[vote := verdict], run, s) == Recompute(votes, run, s)
  {
    assert RunVotes(votes[vote := verdict], run, s) == RunVotes(votes, run, s);
    assert Accepted(votes[vote := verdict], run, s) == Accepted(votes, run, s);
  }

  /** The committed gate is right; the lock has one holder; a computed gate is what committing now
      would make right. */
  ghost predicate Inv(st: State, s: Setup) {
    && (forall run :: GateOf(st, run) == Recompute(st.votes, run, s))
    && (forall t :: t in st.txs && !st.txs[t].Done? ==> st.txs[t].vote.finding in s.runOf)
    && (forall t, u, run :: t in st.txs && u in st.txs && Holds(st.txs[t], run, s) && Holds(st.txs[u], run, s) ==> t == u)
    && (forall t :: t in st.txs && st.txs[t].Computed? ==>
          st.txs[t].gate == Recompute(Visible(st, st.txs[t].vote, st.txs[t].verdict), s.runOf[st.txs[t].vote.finding], s))
  }

  /** Two verdicts on different runs' findings can be added in either order. */
  lemma ComputedStands(votes: Votes, mine: Vote, v: Verdict, other: Vote, w: Verdict, s: Setup)
    requires mine.finding in s.runOf && other.finding in s.runOf && s.runOf[mine.finding] != s.runOf[other.finding]
    ensures var run := s.runOf[mine.finding];
            Recompute(votes[other := w][mine := v], run, s) == Recompute(votes[mine := v], run, s)
  {
    assert votes[other := w][mine := v] == votes[mine := v][other := w];
    OtherRunsUnaffected(votes[mine := v], other, w, s.runOf[mine.finding], s);
  }

  lemma CommitKeepsInv(st: State, t: nat, s: Setup)
    requires Inv(st, s) && Enabled(st, Commit(t), s)
    ensures Inv(Next(st, Commit(t), s), s)
  {
    hide Recompute;
    var x := st.txs[t];
    var mine := s.runOf[x.vote.finding];
    var st' := Next(st, Commit(t), s);
    forall run
      ensures GateOf(st', run) == Recompute(st'.votes, run, s)
    {
      if run != mine {
        OtherRunsUnaffected(st.votes, x.vote, x.verdict, run, s);
      }
    }
    forall u | u in st'.txs && st'.txs[u].Computed?
      ensures st'.txs[u].gate == Recompute(Visible(st', st'.txs[u].vote, st'.txs[u].verdict), s.runOf[st'.txs[u].vote.finding], s)
    {
      var y := st.txs[u];
      assert Holds(x, mine, s) && Holds(y, s.runOf[y.vote.finding], s);
      ComputedStands(st.votes, y.vote, y.verdict, x.vote, x.verdict, s);
    }
  }

  lemma NextKeepsInv(st: State, a: Step, s: Setup)
    requires Inv(st, s) && Enabled(st, a, s)
    ensures Inv(Next(st, a, s), s)
  {
    hide Recompute, Visible;
    if a.Commit? {
      CommitKeepsInv(st, a.tx, s);
    } else {
      assert Next(st, a, s).votes == st.votes && Next(st, a, s).gates == st.gates;
      assert forall run :: GateOf(Next(st, a, s), run) == GateOf(st, run);
      QuietStep(st, a, s);
    }
  }

  /** Steps before the commit change only the transaction itself. */
  lemma QuietStep(st: State, a: Step, s: Setup)
    requires Inv(st, s) && Enabled(st, a, s) && !a.Commit?
    ensures var st' := Next(st, a, s);
            && (forall t, u, run :: t in st'.txs && u in st'.txs && Holds(st'.txs[t], run, s) && Holds(st'.txs[u], run, s) ==> t == u)
            && (forall t :: t in st'.txs && !st'.txs[t].Done? ==> st'.txs[t].vote.finding in s.runOf)
            && (forall t :: t in st'.txs && st'.txs[t].Computed? ==>
                  st'.txs[t].gate == Recompute(Visible(st', st'.txs[t].vote, st'.txs[t].verdict), s.runOf[st'.txs[t].vote.finding], s))
  {
    hide Recompute;
    var st' := Next(st, a, s);
    assert forall t :: t in st'.txs && t != a.tx ==> t in st.txs && st'.txs[t] == st.txs[t];
    assert a.Lock? ==> forall t :: t in st.txs ==> !Holds(st.txs[t], s.runOf[st.txs[a.tx].vote.finding], s);
    forall run | a.tx in st.txs && Holds(st'.txs[a.tx], run, s)
      ensures Holds(st.txs[a.tx], run, s) || a.Lock?
    {
    }
  }

  ghost predicate Possible(st: State, steps: seq<Step>, s: Setup)
    decreases |steps|
  {
    steps == [] || (Enabled(st, steps[0], s) && Possible(Next(st, steps[0], s), steps[1..], s))
  }

  ghost function After(st: State, steps: seq<Step>, s: Setup): State
    requires Possible(st, steps, s)
    decreases |steps|
  {
    if steps == [] then st else After(Next(st, steps[0], s), steps[1..], s)
  }

  lemma {:induction false} RunKeepsInv(st: State, steps: seq<Step>, s: Setup)
    requires Inv(st, s) && Possible(st, steps, s)
    ensures Inv(After(st, steps, s), s)
    decreases |steps|
  {
    if steps != [] {
      hide Inv;
      NextKeepsInv(st, steps[0], s);
      RunKeepsInv(Next(st, steps[0], s), steps[1..], s);
    }
  }

  lemma EmptyInv(s: Setup)
    ensures Inv(EMPTY, s)
  {
    forall run
      ensures GateOf(EMPTY, run) == Recompute(EMPTY.votes, run, s)
    {
      assert RunVotes(EMPTY.votes, run, s) == {};
    }
  }

  /** In every interleaving of feedback transactions, aborted ones included, the committed gate of
      every run is what recomputing it from all committed verdicts gives. */
  lemma CachedGateIsRecomputed(steps: seq<Step>, s: Setup, run: nat)
    requires Possible(EMPTY, steps, s)
    ensures GateOf(After(EMPTY, steps, s), run) == Recompute(After(EMPTY, steps, s).votes, run, s)
  {
    EmptyInv(s);
    RunKeepsInv(EMPTY, steps, s);
  }

  lemma Onward(st: State, a: Step, rest: seq<Step>, s: Setup)
    requires Enabled(st, a, s) && Possible(Next(st, a, s), rest, s)
    ensures Possible(st, [a] + rest, s) && After(st, [a] + rest, s) == After(Next(st, a, s), rest, s)
  {
    assert ([a] + rest)[1..] == rest;
  }

  /** A verdict on a run that no transaction holds can be given: the steps of its transaction are possible in
      turn, and leave the verdict as the latest of its finding and user, and the run's gate recomputed. */
  lemma VerdictIsStored(st: State, t: nat, vote: Vote, verdict: Verdict, s: Setup)
    requires t !in st.txs && vote.finding in s.runOf && Unheld(st, s.runOf[vote.finding], s)
    ensures var steps := [Begin(t, vote, verdict), Lock(t), Upsert(t), Compute(t), Commit(t)];
            && Possible(st, steps, s)
            && After(st, steps, s).votes == st.votes[vote := verdict]
            && After(st, steps, s).gates
                 == st.gates[s.runOf[vote.finding] := Recompute(st.votes[vote := verdict], s.runOf[vote.finding], s)]
  {
    hide Recompute;
    var s1 := Next(st, Begin(t, vote, verdict), s);
    assert Unheld(s1, s.runOf[vote.finding], s);
    var s2 := Next(s1, Lock(t), s);
    var s3 := Next(s2, Upsert(t), s);
    var s4 := Next(s3, Compute(t), s);
    hide Unheld;
    Onward(s4, Commit(t), [], s);
    Onward(s3, Compute(t), [Commit(t)], s);
    Onward(s2, Upsert(t), [Compute(t), Commit(t)], s);
    Onward(s1, Lock(t), [Upsert(t), Compute(t), Commit(t)], s);
    Onward(st, Begin(t, vote, verdict), [Lock(t), Upsert(t), Compute(t), Commit(t)], s);
    assert [Commit(t)] + [] == [Commit(t)] && [Compute(t)] + [Commit(t)] == [Compute(t), Commit(t)];
    assert [Upsert(t)] + [Compute(t), Commit(t)] == [Upsert(t), Compute(t), Commit(t)];
    assert [Lock(t)] + [Upsert(t), Compute(t), Commit(t)] == [Lock(t), Upsert(t), Compute(t), Commit(t)];
    assert [Begin(t, vote, verdict)] + [Lock(t), Upsert(t), Compute(t), Commit(t)]
        == [Begin(t, vote, verdict), Lock(t), Upsert(t), Compute(t), Commit(t)];
  }

  /** Every stored gate is the one its verdicts give. */
  ghost predicate Cached(votes: Votes, gates: map<nat, Option<bool>>, s: Setup) {
    forall run :: GateOf(State(votes, gates, map[]), run) == Recompute(votes, run, s)
  }

  datatype Refusal = NotFound | Forbidden

  /** The feedback tables as one transaction at a time sees them. */
  class FeedbackTables {
    const setup: Setup
    var votes: Votes
    var gates: map<nat, Option<bool>>

    constructor (setup: Setup)
      ensures this.setup == setup && votes == map[] && gates == map[] && Cached(votes, gates, setup)
    {
      this.setup, votes, gates := setup, map[], map[];
      EmptyInv(setup);
      assert forall run :: GateOf(State(map[], map[], map[]), run) == GateOf(EMPTY, run);
    }

    /** Upsert the caller's verdict and store the gate recomputed from all verdicts of the run. */
    method SubmitFeedback(vote: Vote, verdict: Verdict, owner: bool) returns (r: Result<Option<bool>, Refusal>)
      requires Cached(votes, gates, setup)
      modifies this`votes, this`gates
      ensures Cached(votes, gates, setup)
      ensures r.Err? ==> votes == old(votes) && gates == old(gates)
      ensures r == Err(NotFound) <==> vote.finding !in setup.runOf
      ensures r == Err(Forbidden) <==> vote.finding in setup.runOf && !owner
      ensures r.Ok? ==>
                && votes == old(votes)[vote := verdict]
                && r.value == Recompute(votes, setup.runOf[vote.finding], setup)
                && forall run :: run != setup.runOf[vote.finding] ==>
                     GateOf(State(votes, gates, map[]), run) == old(GateOf(State(votes, gates, map[]), run))
    {
      hide Recompute;
      if vote.finding !in setup.runOf {
        return Err(NotFound);
      }
      if !owner {
        return Err(Forbidden);
      }
      var run := setup.runOf[vote.finding];
      ghost var before := votes;
      votes := votes[vote := verdict];
      var gate := Recompute(votes, run, setup);
      gates := gates[run := gate];
      forall other
        ensures GateOf(State(votes, gates, map[]), other) == Recompute(votes, other, setup)
      {
        if other != run {
          OtherRunsUnaffected(before, vote, verdict, other, setup);
          assert old(GateOf(State(votes, gates, map[]), other)) == Recompute(before, other, setup);
        }
      }
      r := Ok(gate);
    }
  }

  // ---------------------------------------------------------------- savings of one run

  /** Prices per million tokens, in millionths of a dollar; None is an unpriced model. */
  datatype Prices = Prices(input: nat, output: nat)

  const MILLION := 1_000_000

  /** The unrounded cost, in millionths of a millionth of a dollar. */
  function Exact(tokensIn: nat, tokensOut: nat, p: Prices): nat {
    tokensIn * p.input + tokensOut * p.output
  }

  function HalfUp(n: nat): nat {
    n / MILLION + if 2 * (n % MILLION) >= MILLION then 1 else 0
  }

  datatype Costed = Costed(actual: nat, baseline: nat, savings: int)

  /** `compute_savings`, in millionths of a dollar. */
  function ComputeSavings(tokensIn: nat, tokensOut: nat, selected: Option<Prices>, baseline: Option<Prices>): Option<Costed> {
    if selected.None? || baseline.None? then None
    else
      var actual, before := HalfUp(Exact(tokensIn, tokensOut, selected.value)), HalfUp(Exact(tokensIn, tokensOut, baseline.value));
      Some(Costed(actual, before, before - actual))
  }

  lemma HalfUpIsClose(n: nat)
    ensures -MILLION <= 2 * (HalfUp(n) * MILLION - n) <= MILLION
  {
  }

  lemma HalfUpMonotone(m: nat, n: nat)
    requires m <= n
    ensures HalfUp(m) <= HalfUp(n)
  {
    if m / MILLION < n / MILLION {
      assert m / MILLION + 1 <= n / MILLION;
    }
  }

  /** Rounding the two costs never shows a saving where there is none, nor hides an overspend as a
      saving, and the figure is within a millionth of a dollar of the true difference. */
  lemma SavingsKeepTheirSign(tokensIn: nat, tokensOut: nat, selected: Prices, baseline: Prices)
    ensures var c := ComputeSavings(tokensIn, tokensOut, Some(selected), Some(baseline));
            var gap := tokensIn * baseline.input + tokensOut * baseline.output
                       - (tokensIn * selected.input + tokensOut * selected.output);
            && c.Some? && c.value.savings == c.value.baseline - c.value.actual && (c.value.savings > 0 ==> gap > 0) && (c.value.savings < 0 ==> gap < 0)
            && -MILLION <= c.value.savings * MILLION - gap <= MILLION
  {
    var a, b := Exact(tokensIn, tokensOut, selected), Exact(tokensIn, tokensOut, baseline);
    hide HalfUp;
    assert a == tokensIn * selected.input + tokensOut * selected.output;
    assert b == tokensIn * baseline.input + tokensOut * baseline.output;
    hide Exact;
    HalfUpIsClose(a);
    HalfUpIsClose(b);
    if a <= b {
      HalfUpMonotone(a, b);
    }
    if b <= a {
      HalfUpMonotone(b, a);
    }
  }

  // ---------------------------------------------------------------- banked savings

  /** Money in millionths of a dollar; None is a run that could not be costed. */
  datatype Run = Run(savings: Option<int>, gate: Option<bool>)

  function Amount(r: Run): int {
    if r.savings.Some? then r.savings.value else 0
  }

  datatype Honest = Honest(cumulative: int, bankedRuns: nat, atRisk: int, atRiskRuns: nat, unratedRuns: nat)

  function Amounts(rs: seq<Run>): int {
    if rs == [] then 0 else Amounts(rs[..|rs| - 1]) + Amount(rs[|rs| - 1])
  }

  /** The runs whose stored gate has one value. */
  function WithGate(rs: seq<Run>, gate: Option<bool>): seq<Run> {
    if rs == [] then []
    else if rs[|rs| - 1].gate == gate then WithGate(rs[..|rs| - 1], gate) + [rs[|rs| - 1]]
    else WithGate(rs[..|rs| - 1], gate)
  }

  /** The figures of a list of runs, by the gate of each. */
  function HonestOf(rs: seq<Run>): Honest {
    Honest(Amounts(WithGate(rs, Some(true))), |WithGate(rs, Some(true))|,
           Amounts(WithGate(rs, Some(false))), |WithGate(rs, Some(false))|, |WithGate(rs, None)|)
  }

  /** `honest_cumulative_savings`: one pass, three buckets. */
  method HonestCumulative(rs: seq<Run>) returns (h: Honest)
    ensures h == HonestOf(rs)
  {
    var cumulative, atRisk := 0, 0;
    var banked: nat, risky: nat, unrated: nat := 0, 0, 0;
    var i := 0;
    while i < |rs|
      invariant i <= |rs|
      invariant cumulative == Amounts(WithGate(rs[..i], Some(true))) && banked == |WithGate(rs[..i], Some(true))|
      invariant atRisk == Amounts(WithGate(rs[..i], Some(false))) && risky == |WithGate(rs[..i], Some(false))|
      invariant unrated == |WithGate(rs[..i], None)|
    {
      var r := rs[i];
      OneMoreRun(rs, i, Some(true));
      OneMoreRun(rs, i, Some(false));
      OneMoreRun(rs, i, None);
      ThreeGates(r.gate);
      if r.gate == Some(true) {
        cumulative, banked := cumulative + Amount(r), banked + 1;
      } else if r.gate == Some(false) {
        atRisk, risky := atRisk + Amount(r), risky + 1;
      } else {
        unrated := unrated + 1;
      }
      i := i + 1;
    }
    assert rs[..i] == rs;
    h := Honest(cumulative, banked, atRisk, risky, unrated);
  }

  lemma ThreeGates(g: Option<bool>)
    ensures g == None || g == Some(true) || g == Some(false)
  {
    if g.Some? {
      assert g == Some(g.value);
      if g.value {
        assert g == Some(true);
      } else {
        assert g == Some(false);
      }
    }
  }

  /** One more run goes to the bucket of its gate, and to no other. */
  lemma OneMoreRun(rs: seq<Run>, i: nat, gate: Option<bool>)
    requires i < |rs|
    ensures var mine := rs[i].gate == gate;
            && Amounts(WithGate(rs[..i + 1], gate)) == Amounts(WithGate(rs[..i], gate)) + (if mine then Amount(rs[i]) else 0)
            && |WithGate(rs[..i + 1], gate)| == |WithGate(rs[..i], gate)| + (if mine then 1 else 0)
            && Amounts(rs[..i + 1]) == Amounts(rs[..i]) + Amount(rs[i])
  {
    var longer := rs[..i + 1];
    assert longer[..i] == rs[..i] && longer[i] == rs[i];
    var before := WithGate(rs[..i], gate);
    assert (before + [rs[i]])[..|before|] == before;
  }

  /** The three buckets partition the runs and their savings: nothing is dropped or counted twice. */
  lemma {:induction false} BucketsPartition(rs: seq<Run>)
    ensures Amounts(WithGate(rs, Some(true))) + Amounts(WithGate(rs, Some(false))) + Amounts(WithGate(rs, None)) == Amounts(rs)
    ensures |WithGate(rs, Some(true))| + |WithGate(rs, Some(false))| + |WithGate(rs, None)| == |rs|
    decreases |rs|
  {
    if rs != [] {
      var n := |rs| - 1;
      BucketsPartition(rs[..n]);
      OneMoreRun(rs, n, Some(true));
      OneMoreRun(rs, n, Some(false));
      OneMoreRun(rs, n, None);
      assert rs[..n + 1] == rs;
      ThreeGates(rs[n].gate);
    }
  }

  /** The rows of the savings view: each run's savings with its stored gate. */
  ghost function View(savings: seq<Option<int>>, gate: nat -> Option<bool>): seq<Run> {
    seq(|savings|, (i: nat) requires i < |savings| => Run(savings[i], gate(i)))
  }

  /** What the first n runs save together when their verdicts give this gate. */
  function SavedUnder(votes: Votes, savings: seq<Option<int>>, n: nat, gate: Option<bool>, s: Setup): int
    requires n <= |savings|
  {
    if n == 0 then 0
    else SavedUnder(votes, savings, n - 1, gate, s)
         + (if Recompute(votes, n - 1, s) == gate && savings[n - 1].Some? then savings[n - 1].value else 0)
  }

  function CountUnder(votes: Votes, n: nat, gate: Option<bool>, s: Setup): nat {
    if n == 0 then 0 else CountUnder(votes, n - 1, gate, s) + if Recompute(votes, n - 1, s) == gate then 1 else 0
  }

  lemma {:induction false} BucketOfView(votes: Votes, savings: seq<Option<int>>, view: seq<Run>, n: nat, gate: Option<bool>, s: Setup)
    requires n <= |view| == |savings|
    requires forall i :: 0 <= i < n ==> view[i] == Run(savings[i], Recompute(votes, i, s))
    ensures Amounts(WithGate(view[..n], gate)) == SavedUnder(votes, savings, n, gate, s)
    ensures |WithGate(view[..n], gate)| == CountUnder(votes, n, gate, s)
  {
    hide Recompute;
    if n > 0 {
      BucketOfView(votes, savings, view, n - 1, gate, s);
      OneMoreRun(view, n - 1, gate);
    } else {
      assert view[..0] == [];
    }
  }

  /** After any interleaving of feedback, the figures shown over the stored gates are those computed
      from scratch: sums and counts over the runs whose committed verdicts give each gate. */
  lemma BankedFromScratch(steps: seq<Step>, s: Setup, savings: seq<Option<int>>)
    requires Possible(EMPTY, steps, s)
    ensures var st := After(EMPTY, steps, s);
            var n := |savings|;
            HonestOf(View(savings, (run: nat) => GateOf(st, run)))
              == Honest(SavedUnder(st.votes, savings, n, Some(true), s), CountUnder(st.votes, n, Some(true), s),
                        SavedUnder(st.votes, savings, n, Some(false), s), CountUnder(st.votes, n, Some(false), s),
                        CountUnder(st.votes, n, None, s))
  {
    hide Recompute, Amounts, WithGate;
    var st := After(EMPTY, steps, s);
    var view := View(savings, (run: nat) => GateOf(st, run));
    forall i | 0 <= i < |savings|
      ensures view[i] == Run(savings[i], Recompute(st.votes, i, s))
    {
      CachedGateIsRecomputed(steps, s, i);
    }
    BucketOfView(st.votes, savings, view, |view|, Some(true), s);
    BucketOfView(st.votes, savings, view, |view|, Some(false), s);
    BucketOfView(st.votes, savings, view, |view|, None, s);
    assert view[..|view|] == view;
  }
}
