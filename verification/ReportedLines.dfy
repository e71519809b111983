/** When the audit of an output can be reported, read off its event lines: the counters of a stream,
    failed or not, are sums over the step reports among the lines it consumed. */
module ReportedLines {
  import opened Prelude
  import opened EventStream
  import opened StreamTheorems
  import Audit = SecurityExecution

  // ---------------------------------------------------------------- one report

  predicate Bad(f: Field) {
    f.NotAnInteger? || (f.Whole? && !(0 <= f.n <= COUNT_LIMIT))
  }

  /** Position of the first counter that stops the fold; the number of counters when none does. */
  function FirstBad(v: Tokens, from: nat): (i: nat)
    requires v.Tokens? && from <= |KEYS|
    ensures from <= i <= |KEYS|
    decreases |KEYS| - from
  {
    if from == |KEYS| || Bad(v.At(KEYS[from])) then from else FirstBad(v, from + 1)
  }

  /** The counters of a report that are looked at and not bad. */
  predicate Reached(v: Tokens, k: Key) {
    v.Tokens? && Index(k) < FirstBad(v, 0)
  }

  /** What a report adds to a counter. */
  function Adds(v: Tokens, k: Key): int {
    if Reached(v, k) then Amount(v.At(k)) else 0
  }

  predicate Names(v: Tokens, k: Key) {
    Reached(v, k) && v.At(k).Whole?
  }

  /** A report leaves a counter unknown: it is absent, or it is a total below the report's categories. */
  predicate Omits(v: Tokens, k: Key) {
    (Reached(v, k) && v.At(k).Null?) || (k == Total && v.Tokens? && FirstBad(v, 0) == |KEYS| && BelowCategories(v))
  }

  lemma {:induction false} FoldOfReport(t: Tally, v: Tokens, i: nat, k: Key)
    requires v.Tokens? && !t.bad && i <= |KEYS|
    ensures var t' := AddUpTo(t, v, i);
            var n := Min(i, FirstBad(v, 0));
            && (t'.bad <==> FirstBad(v, 0) < i)
            && Get(t'.counts, k) == Get(t.counts, k) + (if Index(k) < n then Amount(v.At(k)) else 0)
            && (k in t'.counts <==> k in t.counts || (Index(k) < n && v.At(k).Whole?))
            && (k in t'.missing <==> k in t.missing || (Index(k) < n && v.At(k).Null?))
  {
    hide FirstBad, AddOne, Get, Amount, Bad;
    if i > 0 {
      FoldOfReport(t, v, i - 1, k);
      OneCounter(AddUpTo(t, v, i - 1), KEYS[i - 1], v.At(KEYS[i - 1]), k);
      GoodBefore(v, 0, i - 1);
      assert Index(KEYS[i - 1]) == i - 1;
    }
  }

  lemma OneCounter(t: Tally, at: Key, f: Field, k: Key)
    ensures var t' := AddOne(t, at, f);
            if t.bad then t' == t
            else
              && (t'.bad <==> Bad(f))
              && Get(t'.counts, k) == Get(t.counts, k) + (if k == at && !Bad(f) then Amount(f) else 0)
              && (k in t'.counts <==> k in t.counts || (k == at && !Bad(f) && f.Whole?))
              && (k in t'.missing <==> k in t.missing || (k == at && f.Null?))
    ensures f.Null? ==> !Bad(f)
  {
  }

  lemma {:induction false} GoodBefore(v: Tokens, from: nat, i: nat)
    requires v.Tokens? && from <= i < |KEYS|
    ensures i < FirstBad(v, from) ==> !Bad(v.At(KEYS[i]))
    ensures i == FirstBad(v, from) ==> Bad(v.At(KEYS[i]))
    decreases i - from
  {
    if from < i && !Bad(v.At(KEYS[from])) {
      GoodBefore(v, from + 1, i);
    }
  }

  /** What handling a finished step does to one counter, whether or not it fails. */
  lemma StepAdds(s: State, v: Tokens, why: StopReason, lim: Limits, k: Key)
    ensures var s' := FinishStep(s, v, why, lim);
            && Get(s'.counts, k) == Get(s.counts, k) + Adds(v, k)
            && (k in s'.counts <==> k in s.counts || Names(v, k))
            && (k in s'.missing <==> k in s.missing || Omits(v, k))
  {
    hide AddUpTo, FirstBad, Tallied, BelowCategories;
    if v.Tokens? {
      var t0 := Tally(s.counts, s.missing, false);
      var t := AddUpTo(t0, v, |KEYS|);
      FoldOfReport(t0, v, |KEYS|, k);
      TalliedKeeps(s.(steps := s.steps + 1), t, v, why, lim);
      assert FinishStep(s, v, why, lim) == Tallied(s.(steps := s.steps + 1), t, v, why, lim);
      hide FinishStep;
      WholeReport(t0, t, v, k);
    }
  }

  lemma WholeReport(t0: Tally, t: Tally, v: Tokens, k: Key)
    requires v.Tokens? && (t.bad <==> FirstBad(v, 0) < |KEYS|)
    requires var n := Min(|KEYS|, FirstBad(v, 0));
             && Get(t.counts, k) == Get(t0.counts, k) + (if Index(k) < n then Amount(v.At(k)) else 0)
             && (k in t.counts <==> k in t0.counts || (Index(k) < n && v.At(k).Whole?))
             && (k in t.missing <==> k in t0.missing || (Index(k) < n && v.At(k).Null?))
    ensures Get(t.counts, k) == Get(t0.counts, k) + Adds(v, k)
    ensures k in t.counts <==> k in t0.counts || Names(v, k)
    ensures var missing := if !t.bad && BelowCategories(v) then t.missing + {Total} else t.missing;
            k in missing <==> k in t0.missing || Omits(v, k)
  {
    hide FirstBad, Get, Amount, BelowCategories;
  }

  lemma TalliedKeeps(s: State, t: Tally, v: Tokens, why: StopReason, lim: Limits)
    requires v.Tokens?
    ensures var s' := Tallied(s, t, v, why, lim);
            s'.counts == t.counts
            && s'.missing == if !t.bad && BelowCategories(v) then t.missing + {Total} else t.missing
  {
    hide Breach, BelowCategories;
  }

  // ---------------------------------------------------------------- all reports

  function Added(reports: seq<Tokens>, k: Key): int {
    if reports == [] then 0 else Adds(reports[0], k) + Added(reports[1..], k)
  }

  predicate Named(reports: seq<Tokens>, k: Key) {
    exists i :: 0 <= i < |reports| && Names(reports[i], k)
  }

  predicate Omitted(reports: seq<Tokens>, k: Key) {
    exists i :: 0 <= i < |reports| && Omits(reports[i], k)
  }

  lemma OneMore(report: Tokens, rest: seq<Tokens>, k: Key)
    ensures Added([report] + rest, k) == Adds(report, k) + Added(rest, k)
    ensures Named([report] + rest, k) <==> Names(report, k) || Named(rest, k)
    ensures Omitted([report] + rest, k) <==> Omits(report, k) || Omitted(rest, k)
  {
    hide Names, Omits, Adds;
    var all := [report] + rest;
    assert all[1..] == rest && all[0] == report;
    forall i | 0 <= i < |rest|
      ensures rest[i] == all[i + 1]
    {
    }
    if Named(rest, k) {
      var i :| 0 <= i < |rest| && Names(rest[i], k);
      assert Names(all[i + 1], k);
    }
    if Omitted(rest, k) {
      var i :| 0 <= i < |rest| && Omits(rest[i], k);
      assert Omits(all[i + 1], k);
    }
  }

  lemma NoReport(k: Key)
    ensures Added([], k) == 0 && !Named([], k) && !Omitted([], k)
  {
  }

  /** The counters and gaps of a state after some reports. */
  ghost predicate Tells(s: State, r: seq<Tokens>, s': State, k: Key) {
    && Get(s'.counts, k) == Get(s.counts, k) + Added(r, k)
    && (k in s'.counts <==> k in s.counts || Named(r, k))
    && (k in s'.missing <==> k in s.missing || Omitted(r, k))
  }

  lemma DispatchTells(s: State, p: Part, lim: Limits, k: Key)
    ensures Tells(s, if p.StepFinish? then [p.tokens] else [], Dispatch(s, p, lim), k)
  {
    NoReport(k);
    if p.StepFinish? {
      hide FinishStep, Added, Named, Omitted;
      StepAdds(s, p.tokens, p.reason, lim, k);
      OneMore(p.tokens, [], k);
      assert [p.tokens] + [] == [p.tokens];
    }
  }

  lemma ConsumeTells(s: State, raw: Bytes, env: Env, k: Key)
    ensures Tells(s, Reports([raw], s.seen.Keys, env), Consume(s, raw, env), k)
    ensures Consume(s, raw, env).code == 0 ==>
              Consume(s, raw, env).seen.Keys
                == (if KeyOf(raw, env).Some? then s.seen.Keys + {KeyOf(raw, env).value} else s.seen.Keys)
  {
    hide Dispatch, Added, Named, Omitted;
    var p := env.parse(raw);
    OneReport(raw, s.seen.Keys, env);
    NothingTold(s, Fail(s, 4, Malformed), k);
    NothingTold(s, s, k);
    hide Reports, Tells;
    if p.Event? {
      DispatchTells(s, p.part, env.limits, k);
      if p.identity.Identified? {
        var key := EventKey(KindOf(p.part), p.identity.id);
        var known := s.(seen := s.seen[key := raw]);
        DispatchTells(known, p.part, env.limits, k);
        SameStart(known, s, if p.part.StepFinish? then [p.part.tokens] else [], Dispatch(known, p.part, env.limits), k);
        assert key in s.seen ==> s.seen.Keys + {key} == s.seen.Keys;
      }
    }
  }

  lemma NothingTold(s: State, s': State, k: Key)
    requires s'.counts == s.counts && s'.missing == s.missing
    ensures Tells(s, [], s', k)
  {
    NoReport(k);
  }

  lemma SameStart(s: State, t: State, r: seq<Tokens>, s': State, k: Key)
    requires Tells(s, r, s', k) && t.counts == s.counts && t.missing == s.missing
    ensures Tells(t, r, s', k)
  {
  }

  lemma OneReport(raw: Bytes, known: set<EventKey>, env: Env)
    ensures var p := env.parse(raw);
            var isNew := p.Event? && (p.identity.Anonymous?
                                      || (p.identity.Identified? && EventKey(KindOf(p.part), p.identity.id) !in known));
            Reports([raw], known, env) == if isNew && p.part.StepFinish? then [p.part.tokens] else []
  {
    assert [raw][1..] == [];
  }

  /** How many lines are consumed: up to and including the first that fails. */
  function Read(s: State, lines: seq<Bytes>, env: Env): (n: nat)
    ensures n <= |lines|
    decreases |lines|
  {
    if lines == [] || s.code != 0 then 0 else 1 + Read(Consume(s, lines[0], env), lines[1..], env)
  }

  lemma {:induction false} FoldTells(s: State, lines: seq<Bytes>, env: Env, k: Key)
    requires s.code == 0
    ensures Tells(s, Reports(lines[..Read(s, lines, env)], s.seen.Keys, env), Fold(s, lines, env), k)
    decreases |lines|
  {
    hide Consume, Added, Named, Omitted;
    NoReport(k);
    if lines != [] {
      var s1 := Consume(s, lines[0], env);
      var n := Read(s, lines, env);
      var first: seq<Bytes> := [lines[0]];
      ConsumeTells(s, lines[0], env, k);
      assert lines[..n][0] == lines[0] && lines[..n][1..] == lines[1..][..n - 1];
      assert first[1..] == [];
      if s1.code == 0 {
        FoldTells(s1, lines[1..], env, k);
        Together(s, lines[0], lines[1..][..n - 1], env, s1, Fold(s1, lines[1..], env), k);
      } else {
        assert lines[..n] == first;
      }
    }
  }

  lemma Together(s: State, raw: Bytes, rest: seq<Bytes>, env: Env, s1: State, s2: State, k: Key)
    requires var known := if KeyOf(raw, env).Some? then s.seen.Keys + {KeyOf(raw, env).value} else s.seen.Keys;
             && s1.seen.Keys == known
             && Tells(s, Reports([raw], s.seen.Keys, env), s1, k) && Tells(s1, Reports(rest, known, env), s2, k)
    ensures Tells(s, Reports([raw] + rest, s.seen.Keys, env), s2, k)
  {
    hide Added, Named, Omitted, Reports;
    var one := Reports([raw], s.seen.Keys, env);
    var more := Reports(rest, s1.seen.Keys, env);
    FirstReport(raw, rest, s.seen.Keys, env);
    NoReport(k);
    if |one| == 1 {
      OneMore(one[0], more, k);
      OneMore(one[0], [], k);
      assert one == [one[0]] + [] && one + more == [one[0]] + more;
    } else {
      assert one == [] && [] + more == more;
    }
  }

  lemma FirstReport(raw: Bytes, rest: seq<Bytes>, known: set<EventKey>, env: Env)
    ensures var known' := if KeyOf(raw, env).Some? then known + {KeyOf(raw, env).value} else known;
            Reports([raw] + rest, known, env) == Reports([raw], known, env) + Reports(rest, known', env)
    ensures |Reports([raw], known, env)| <= 1
  {
    assert ([raw] + rest)[1..] == rest && [raw][1..] == [];
  }

  // ---------------------------------------------------------------- what can be reported

  function CategorySum(reports: seq<Tokens>): int {
    Added(reports, Input) + Added(reports, Output) + Added(reports, Reasoning) + Added(reports, CacheRead) + Added(reports, CacheWrite)
  }

  /** Reports of which a usage record can be built: no category adds up to more than the contract's bound,
      and if some report gave its total and none left a counter unknown, the totals stay within that bound
      and are not overtaken by the categories. */
  predicate CanBeReported(reports: seq<Tokens>) {
    && (forall k :: k != Total ==> Added(reports, k) <= COUNT_LIMIT)
    && (Named(reports, Total) && (forall k :: !Omitted(reports, k)) ==>
          CategorySum(reports) <= Added(reports, Total) <= COUNT_LIMIT)
  }

  /** The audit of an output yields a usage record if and only if the distinct step reports among the
      lines it consumed can be reported, however the output is read and however the process ends. */
  lemma ReportableOnLines(rounds: seq<Round>, exit: Exit, env: Env)
    requires ReadsToEnd(STARTED.open, rounds) && Volume(rounds) <= env.limits.maxBytes
    ensures var lines := Payload(StdoutBytes(rounds));
            var reports := Reports(lines[..Read(INITIAL, lines, env)], {}, env);
            Audit.Reportable(RunStream(rounds, exit, env).counts) <==> CanBeReported(reports)
  {
    hide RunStream, Fold, Added, Named, Omitted, Reports, Read, Payload;
    var lines := Payload(StdoutBytes(rounds));
    var reports := Reports(lines[..Read(INITIAL, lines, env)], {}, env);
    var s := Fold(INITIAL, lines, env);
    ChunkIndependence(rounds, exit, env);
    forall k
      ensures Tells(INITIAL, reports, s, k)
    {
      FoldTells(INITIAL, lines, env, k);
      assert INITIAL.seen.Keys == {};
    }
    KeptCounts(s, exit, reports);
  }

  lemma KeptCounts(s: State, exit: Exit, reports: seq<Tokens>)
    requires forall k :: Tells(INITIAL, reports, s, k)
    ensures Audit.Reportable(Withhold(Judge(s, exit)).counts) <==> CanBeReported(reports)
  {
    hide Added, Named, Omitted;
    forall k
      ensures Get(s.counts, k) == Added(reports, k) && (k in s.counts <==> Named(reports, k))
              && (k in s.missing <==> Omitted(reports, k))
    {
      assert Tells(INITIAL, reports, s, k);
    }
    assert s.missing == {} <==> forall k :: !Omitted(reports, k);
    hide Tells, Judge;
    JudgeKeeps(s, exit);
    assert Categories(s.counts) == CategorySum(reports);
    hide CategorySum, Categories;
    ReportableCounts(s.counts, s.missing != {}, reports);
  }

  lemma JudgeKeeps(s: State, exit: Exit)
    ensures Judge(s, exit).counts == s.counts && Judge(s, exit).missing == s.missing
  {
  }

  lemma ReportableCounts(c: Counts, withheld: bool, reports: seq<Tokens>)
    requires forall k :: Get(c, k) == Added(reports, k) && (k in c <==> Named(reports, k))
    requires withheld <==> exists k :: Omitted(reports, k)
    requires Categories(c) == CategorySum(reports)
    ensures Audit.Reportable(if withheld then c - {Total} else c) <==> CanBeReported(reports)
  {
    hide Added, Named, Omitted, CategorySum;
    var kept := if withheld then c - {Total} else c;
    assert Categories(kept) == Categories(c);
    hide Categories;
    forall k | k != Total
      ensures (k in kept ==> kept[k] <= COUNT_LIMIT) <==> Added(reports, k) <= COUNT_LIMIT
    {
      assert Get(c, k) == Added(reports, k);
    }
    assert Get(c, Total) == Added(reports, Total);
  }
}
