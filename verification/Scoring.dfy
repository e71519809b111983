/** The deterministic recommender score, and the write-time rule it rests on: every task type owns
    exactly one (benchmark, metric) pair. */
module Scoring {
  import opened Prelude
  import opened Ordering

  datatype Group = Group(benchmark: string, metric: string)

  // ---------------------------------------------------------------- ranking

  datatype Input = Input(key: int, model: string, group: Group, score: real, cost: real)

  /** A ranked row, before its 1-based rank is attached by position. */
  datatype Ranked = Ranked(input: Input, quality: real, costNorm: real, rankScore: real)

  /** Decimal rounding: of a division or product to the context precision, and of a result to six
      places. All that matters here is that neither reorders values. */
  datatype Rounding = Rounding(context: real -> real, six: real -> real)

  ghost predicate Monotone(f: real -> real) {
    forall x, y :: x <= y ==> f(x) <= f(y)
  }

  ghost predicate OrderPreserving(r: Rounding) {
    Monotone(r.context) && Monotone(r.six)
  }

  function MaxScore(xs: seq<Input>): real
    requires xs != []
  {
    if |xs| == 1 then xs[0].score
    else
      var m := MaxScore(xs[1..]);
      if xs[0].score > m then xs[0].score else m
  }

  function MaxCost(xs: seq<Input>): real
    requires xs != []
  {
    if |xs| == 1 then xs[0].cost
    else
      var m := MaxCost(xs[1..]);
      if xs[0].cost > m then xs[0].cost else m
  }

  /** A value as a share of the group's largest; 0 when that is not positive. */
  function Share(x: real, most: real, r: Rounding): real {
    if most > 0.0 then r.context(x / most) else 0.0
  }

  function Blend(a: real, b: real, r: Rounding): real {
    r.six(r.context(r.context(a) + r.context(b)))
  }

  function Weighted(quality: real, costNorm: real, w: real, r: Rounding): real {
    Blend(Times(w, quality), Times(1.0 - w, r.context(1.0 - costNorm)), r)
  }

  function Times(a: real, b: real): real {
    a * b
  }

  function ScoreOne(x: Input, maxScore: real, maxCost: real, w: real, r: Rounding): Ranked {
    var quality, costNorm := Share(x.score, maxScore, r), Share(x.cost, maxCost, r);
    Ranked(x, r.six(quality), r.six(costNorm), Weighted(quality, costNorm, w, r))
  }

  /** Best rank score first, then cheaper, then by model name, then by key. */
  predicate Ahead(a: Ranked, b: Ranked) {
    || a.rankScore > b.rankScore
    || (a.rankScore == b.rankScore && a.input.cost < b.input.cost)
    || (a.rankScore == b.rankScore && a.input.cost == b.input.cost && TextLess(a.input.model, b.input.model))
    || (a.rankScore == b.rankScore && a.input.cost == b.input.cost && a.input.model == b.input.model
        && a.input.key <= b.input.key)
  }

  datatype Outcome = Empty | SeveralGroups | Ranking(group: Group, rows: seq<Ranked>)

  function Scored(xs: seq<Input>, maxScore: real, maxCost: real, w: real, r: Rounding): seq<Ranked> {
    seq(|xs|, i requires 0 <= i < |xs| => ScoreOne(xs[i], maxScore, maxCost, w, r))
  }

  /** `score_and_rank`: the rows in an order that `Ahead` allows. */
  method ScoreAndRank(xs: seq<Input>, w: real, r: Rounding) returns (out: Outcome)
    ensures out.Empty? <==> xs == []
    ensures out.SeveralGroups? <==> exists i, j :: 0 <= i < j < |xs| && xs[i].group != xs[j].group
    ensures out.Ranking? ==>
              && (forall i :: 0 <= i < |xs| ==> xs[i].group == out.group)
              && multiset(out.rows) == multiset(Scored(xs, MaxScore(xs), MaxCost(xs), w, r))
              && SortedBy(out.rows, Ahead)
  {
    if xs == [] {
      return Empty;
    }
    var i := 1;
    while i < |xs|
      invariant 1 <= i <= |xs|
      invariant forall k :: 0 <= k < i ==> xs[k].group == xs[0].group
    {
      if xs[i].group != xs[0].group {
        return SeveralGroups;
      }
      i := i + 1;
    }
    var rows := ScoreAll(xs, w, r);
    out := Ranking(xs[0].group, rows);
  }

  /** Score every row and put it in its place. */
  method ScoreAll(xs: seq<Input>, w: real, r: Rounding) returns (rows: seq<Ranked>)
    requires xs != []
    ensures multiset(rows) == multiset(Scored(xs, MaxScore(xs), MaxCost(xs), w, r)) && SortedBy(rows, Ahead)
  {
    hide Ahead, ScoreOne, Insert;
    var maxScore, maxCost := MaxScore(xs), MaxCost(xs);
    ghost var all := Scored(xs, maxScore, maxCost, w, r);
    rows := [];
    var i := 0;
    while i < |xs|
      invariant i <= |xs| && SortedBy(rows, Ahead)
      invariant multiset(rows) == multiset(all[..i])
    {
      var scored := ScoreOne(xs[i], maxScore, maxCost, w, r);
      InsertAhead(scored, rows);
      assert all[..i + 1] == all[..i] + [scored];
      rows := Insert(scored, rows, Ahead);
      i := i + 1;
    }
    assert all[..i] == all;
  }

  lemma AheadLinear(a: Ranked, b: Ranked, c: Ranked)
    ensures Ahead(a, a) && (Ahead(a, b) || Ahead(b, a))
    ensures Ahead(a, b) && Ahead(b, c) ==> Ahead(a, c)
    ensures Ahead(a, b) && Ahead(b, a) ==> a.rankScore == b.rankScore && a.input.key == b.input.key
                                           && a.input.model == b.input.model && a.input.cost == b.input.cost
  {
    TextLessTotal(a.input.model, b.input.model);
    TextLessTotal(a.input.model, a.input.model);
    if TextLess(a.input.model, b.input.model) && TextLess(b.input.model, c.input.model) {
      TextLessTransitive(a.input.model, b.input.model, c.input.model);
    }
  }

  lemma {:induction false} InsertAhead(x: Ranked, xs: seq<Ranked>)
    requires SortedBy(xs, Ahead)
    ensures SortedBy(Insert(x, xs, Ahead), Ahead)
    ensures multiset(Insert(x, xs, Ahead)) == multiset{x} + multiset(xs)
  {
    hide Ahead;
    if xs == [] || Ahead(x, xs[0]) {
      assert multiset([x] + xs) == multiset{x} + multiset(xs);
      forall j | 0 <= j < |xs|
        ensures Ahead(x, xs[j])
      {
        if j > 0 {
          AheadLinear(x, xs[0], xs[j]);
        }
      }
    } else {
      var rest := Insert(x, xs[1..], Ahead);
      InsertAhead(x, xs[1..]);
      assert xs == [xs[0]] + xs[1..];
      forall j | 0 <= j < |rest|
        ensures Ahead(xs[0], rest[j])
      {
        AheadLinear(x, xs[0], x);
        assert rest[j] in multiset(rest);
        if rest[j] != x {
          assert rest[j] in multiset(xs[1..]);
        }
      }
    }
  }

  /** Keys are row identities. */
  ghost predicate DistinctKeys(rows: seq<Ranked>) {
    forall i, j :: 0 <= i < j < |rows| ==> rows[i].input.key != rows[j].input.key
  }

  lemma SameHead(xs: seq<Ranked>, ys: seq<Ranked>)
    requires xs != [] && ys != [] && SortedBy(xs, Ahead) && SortedBy(ys, Ahead)
    requires multiset(xs) == multiset(ys) && DistinctKeys(xs)
    ensures xs[0] == ys[0]
  {
    hide Ahead;
    assert xs[0] in multiset(ys) && ys[0] in multiset(xs);
    var i :| 0 <= i < |ys| && ys[i] == xs[0];
    var j :| 0 <= j < |xs| && xs[j] == ys[0];
    AheadLinear(xs[0], ys[0], xs[0]);
    AheadLinear(xs[0], xs[0], xs[0]);
    AheadLinear(ys[0], ys[0], ys[0]);
    assert Ahead(ys[0], ys[i]) && Ahead(xs[0], xs[j]);
    assert xs[0].input.key == xs[j].input.key;
  }

  /** Sorted arrangements of the same rows are equal: the ranking does not depend on input order. */
  lemma {:induction false} ArrangementUnique(xs: seq<Ranked>, ys: seq<Ranked>)
    requires SortedBy(xs, Ahead) && SortedBy(ys, Ahead) && multiset(xs) == multiset(ys) && DistinctKeys(xs)
    ensures xs == ys
  {
    hide Ahead;
    assert |multiset(xs)| == |multiset(ys)|;
    if xs != [] {
      SameHead(xs, ys);
      TailMultiset(xs);
      TailMultiset(ys);
      ArrangementUnique(xs[1..], ys[1..]);
    }
  }

  lemma TailMultiset(xs: seq<Ranked>)
    requires xs != []
    ensures multiset(xs[1..]) == multiset(xs) - multiset{xs[0]}
  {
    assert xs == [xs[0]] + xs[1..];
  }

  lemma MaxScoreBounds(xs: seq<Input>)
    requires xs != []
    ensures forall i :: 0 <= i < |xs| ==> xs[i].score <= MaxScore(xs)
    ensures exists i :: 0 <= i < |xs| && xs[i].score == MaxScore(xs)
  {
    assert |xs| == 1 ==> xs[0].score == MaxScore(xs);
    if |xs| > 1 {
      MaxScoreBounds(xs[1..]);
      var m := MaxScore(xs[1..]);
      var k :| 0 <= k < |xs[1..]| && xs[1..][k].score == m;
      assert xs[k + 1].score == m && (xs[0].score == MaxScore(xs) || m == MaxScore(xs));
      forall i | 0 <= i < |xs|
        ensures xs[i].score <= MaxScore(xs)
      {
        if i > 0 {
          assert xs[i] == xs[1..][i - 1];
        }
      }
    }
  }

  lemma MaxCostBounds(xs: seq<Input>)
    requires xs != []
    ensures forall i :: 0 <= i < |xs| ==> xs[i].cost <= MaxCost(xs)
    ensures exists i :: 0 <= i < |xs| && xs[i].cost == MaxCost(xs)
  {
    assert |xs| == 1 ==> xs[0].cost == MaxCost(xs);
    if |xs| > 1 {
      MaxCostBounds(xs[1..]);
      var m := MaxCost(xs[1..]);
      var k :| 0 <= k < |xs[1..]| && xs[1..][k].cost == m;
      assert xs[k + 1].cost == m && (xs[0].cost == MaxCost(xs) || m == MaxCost(xs));
      forall i | 0 <= i < |xs|
        ensures xs[i].cost <= MaxCost(xs)
      {
        if i > 0 {
          assert xs[i] == xs[1..][i - 1];
        }
      }
    }
  }

  lemma MaximaBelow(xs: seq<Input>, ys: seq<Input>)
    requires xs != [] && ys != [] && multiset(xs) == multiset(ys)
    ensures MaxScore(xs) <= MaxScore(ys) && MaxCost(xs) <= MaxCost(ys)
  {
    hide MaxScore, MaxCost;
    MaxScoreBounds(xs);
    MaxScoreBounds(ys);
    MaxCostBounds(xs);
    MaxCostBounds(ys);
    var i :| 0 <= i < |xs| && xs[i].score == MaxScore(xs);
    var k :| 0 <= k < |xs| && xs[k].cost == MaxCost(xs);
    assert xs[i] in multiset(ys) && xs[k] in multiset(ys);
    var j :| 0 <= j < |ys| && ys[j] == xs[i];
    var l :| 0 <= l < |ys| && ys[l] == xs[k];
  }

  lemma WithoutOne(ys: seq<Input>, k: nat)
    requires k < |ys|
    ensures multiset(ys[..k] + ys[k + 1..]) == multiset(ys) - multiset{ys[k]}
  {
    assert ys == ys[..k] + [ys[k]] + ys[k + 1..];
    assert multiset(ys) == multiset(ys[..k]) + multiset{ys[k]} + multiset(ys[k + 1..]);
  }

  lemma ScoredWithout(ys: seq<Input>, k: nat, maxScore: real, maxCost: real, w: real, r: Rounding)
    requires k < |ys|
    ensures multiset(Scored(ys, maxScore, maxCost, w, r))
         == multiset(Scored(ys[..k] + ys[k + 1..], maxScore, maxCost, w, r)) + multiset{ScoreOne(ys[k], maxScore, maxCost, w, r)}
  {
    hide ScoreOne;
    var t := Scored(ys, maxScore, maxCost, w, r);
    assert t == t[..k] + [t[k]] + t[k + 1..];
    assert multiset(t) == multiset(t[..k]) + multiset{t[k]} + multiset(t[k + 1..]);
    assert multiset(t[..k] + t[k + 1..]) == multiset(t[..k]) + multiset(t[k + 1..]);
    assert Scored(ys[..k] + ys[k + 1..], maxScore, maxCost, w, r) == t[..k] + t[k + 1..];
  }

  lemma WithoutFirst(xs: seq<Input>, maxScore: real, maxCost: real, w: real, r: Rounding)
    requires xs != []
    ensures multiset(xs[1..]) == multiset(xs) - multiset{xs[0]}
    ensures multiset(Scored(xs, maxScore, maxCost, w, r))
         == multiset(Scored(xs[1..], maxScore, maxCost, w, r)) + multiset{ScoreOne(xs[0], maxScore, maxCost, w, r)}
  {
    WithoutOne(xs, 0);
    ScoredWithout(xs, 0, maxScore, maxCost, w, r);
    assert xs[..0] + xs[1..] == xs[1..];
  }

  lemma {:induction false} ScoredMultiset(xs: seq<Input>, ys: seq<Input>, maxScore: real, maxCost: real, w: real, r: Rounding)
    requires multiset(xs) == multiset(ys)
    ensures multiset(Scored(xs, maxScore, maxCost, w, r)) == multiset(Scored(ys, maxScore, maxCost, w, r))
    decreases |xs|
  {
    hide ScoreOne, Scored;
    if xs == [] {
      assert |multiset(ys)| == 0;
      assert ys == [];
    } else {
      assert xs[0] in multiset(ys);
      var k :| 0 <= k < |ys| && ys[k] == xs[0];
      var ys' := ys[..k] + ys[k + 1..];
      WithoutOne(ys, k);
      WithoutFirst(xs, maxScore, maxCost, w, r);
      ScoredMultiset(xs[1..], ys', maxScore, maxCost, w, r);
      ScoredWithout(ys, k, maxScore, maxCost, w, r);
    }
  }

  /** Two rankings of the same rows, given in any order, are the same. */
  lemma RankingIgnoresOrder(xs: seq<Input>, ys: seq<Input>, a: seq<Ranked>, b: seq<Ranked>, w: real, r: Rounding)
    requires xs != [] && ys != [] && multiset(xs) == multiset(ys)
    requires SortedBy(a, Ahead) && multiset(a) == multiset(Scored(xs, MaxScore(xs), MaxCost(xs), w, r)) && DistinctKeys(a)
    requires SortedBy(b, Ahead) && multiset(b) == multiset(Scored(ys, MaxScore(ys), MaxCost(ys), w, r))
    ensures a == b
  {
    MaximaBelow(xs, ys);
    MaximaBelow(ys, xs);
    ScoredMultiset(xs, ys, MaxScore(xs), MaxCost(xs), w, r);
    ArrangementUnique(a, b);
  }

  lemma Quotient(x: real, y: real, most: real)
    requires most > 0.0 && x <= y
    ensures x / most <= y / most
  {
    var a, b := x / most, y / most;
    assert a * most == x && b * most == y;
    assert (b - a) * most == y - x;
    assert b - a < 0.0 ==> (b - a) * most < 0.0;
  }

  lemma ShareMonotone(x: real, y: real, most: real, r: Rounding)
    requires OrderPreserving(r) && x <= y
    ensures Share(x, most, r) <= Share(y, most, r)
  {
    if most > 0.0 {
      Quotient(x, y, most);
    }
  }

  lemma Product(w: real, x: real, y: real)
    requires w >= 0.0 && x <= y
    ensures Times(w, x) <= Times(w, y)
  {
    assert w * (y - x) >= 0.0;
    assert w * y == w * x + w * (y - x);
  }

  lemma Applied(f: real -> real, x: real, y: real)
    requires Monotone(f) && x <= y
    ensures f(x) <= f(y)
  {
  }

  lemma WeightedMonotone(q: real, q': real, c: real, c': real, w: real, r: Rounding)
    requires OrderPreserving(r) && 0.0 <= w <= 1.0 && q >= q' && c <= c'
    ensures Weighted(q, c, w, r) >= Weighted(q', c', w, r)
  {
    hide Monotone, Blend, Times;
    var d, d' := r.context(1.0 - c), r.context(1.0 - c');
    Applied(r.context, 1.0 - c', 1.0 - c);
    Product(w, q', q);
    Product(1.0 - w, d', d);
    BlendMonotone(Times(w, q), Times(w, q'), Times(1.0 - w, d), Times(1.0 - w, d'), r);
  }

  lemma BlendMonotone(a: real, a': real, b: real, b': real, r: Rounding)
    requires OrderPreserving(r) && a >= a' && b >= b'
    ensures Blend(a, b, r) >= Blend(a', b', r)
  {
    Applied(r.context, a', a);
    Applied(r.context, b', b);
    Applied(r.context, r.context(a') + r.context(b'), r.context(a) + r.context(b));
    Applied(r.six, r.context(r.context(a') + r.context(b')), r.context(r.context(a) + r.context(b)));
  }

  /** The score of a row, written out: the weight goes to the score's share of the best score, and the rest
      to what is left of the cost's share of the highest cost; a share of nothing is none. Each operation is
      rounded to the context, and what is shown to six places. */
  lemma ScoreSpelledOut(x: Input, maxScore: real, maxCost: real, w: real, r: Rounding)
    ensures var quality := if maxScore > 0.0 then r.context(x.score / maxScore) else 0.0;
            var cost := if maxCost > 0.0 then r.context(x.cost / maxCost) else 0.0;
            var gain, saved := Times(w, quality), Times(1.0 - w, r.context(1.0 - cost));
            && ScoreOne(x, maxScore, maxCost, w, r)
                 == Ranked(x, r.six(quality), r.six(cost), r.six(r.context(r.context(gain) + r.context(saved))))
            && gain == w * quality && saved == (1.0 - w) * r.context(1.0 - cost)
  {
  }

  /** A ranking is in order: the best rank score first, then the lower cost, then the model's name, then the
      key. */
  lemma RankingIsInOrder(rows: seq<Ranked>, i: nat, j: nat)
    requires SortedBy(rows, Ahead) && i < j < |rows|
    ensures var a, b := rows[i], rows[j];
            && a.rankScore >= b.rankScore
            && (a.rankScore == b.rankScore ==> a.input.cost <= b.input.cost)
            && (a.rankScore == b.rankScore && a.input.cost == b.input.cost ==> TextLeq(a.input.model, b.input.model))
            && ((a.rankScore, a.input.cost, a.input.model) == (b.rankScore, b.input.cost, b.input.model) ==>
                  a.input.key <= b.input.key)
  {
    assert Ahead(rows[i], rows[j]);
    TextLessTotal(rows[i].input.model, rows[j].input.model);
  }

  /** A row with no lower score and a strictly lower cost always ranks ahead, whatever the weight
      and however the arithmetic rounds. */
  lemma DominantRanksAhead(x: Input, y: Input, maxScore: real, maxCost: real, w: real, r: Rounding)
    requires OrderPreserving(r) && 0.0 <= w <= 1.0 && x.score >= y.score && x.cost < y.cost
    ensures var a, b := ScoreOne(x, maxScore, maxCost, w, r), ScoreOne(y, maxScore, maxCost, w, r);
            Ahead(a, b) && !Ahead(b, a)
  {
    hide Weighted, Share;
    ShareMonotone(y.score, x.score, maxScore, r);
    ShareMonotone(x.cost, y.cost, maxCost, r);
    WeightedMonotone(Share(x.score, maxScore, r), Share(y.score, maxScore, r),
                     Share(x.cost, maxCost, r), Share(y.cost, maxCost, r), w, r);
  }

  /** ... so in a ranking it stands before the dominated row. */
  lemma DominantPrecedes(rows: seq<Ranked>, i: nat, j: nat, maxScore: real, maxCost: real, w: real, r: Rounding)
    requires SortedBy(rows, Ahead) && i < |rows| && j < |rows| && OrderPreserving(r) && 0.0 <= w <= 1.0
    requires rows[i] == ScoreOne(rows[i].input, maxScore, maxCost, w, r)
    requires rows[j] == ScoreOne(rows[j].input, maxScore, maxCost, w, r)
    requires rows[i].input.score >= rows[j].input.score && rows[i].input.cost < rows[j].input.cost
    ensures i < j
  {
    hide ScoreOne;
    DominantRanksAhead(rows[i].input, rows[j].input, maxScore, maxCost, w, r);
  }

  // ---------------------------------------------------------------- the write-time rule

  datatype RowKey = RowKey(model: string, benchmark: string, harness: Option<string>, metric: string)

  /** The task of each stored row; an absent or empty task belongs to none. */
  type Catalog = map<RowKey, Option<string>>

  predicate Tasked(t: Option<string>) {
    t.Some? && t.value != ""
  }

  function GroupOf(k: RowKey): Group {
    Group(k.benchmark, k.metric)
  }

  /** Every non-empty task owns at most one (benchmark, metric) pair. */
  ghost predicate OneGroupPerTask(c: Catalog) {
    forall k, l :: k in c && l in c && Tasked(c[k]) && c[k] == c[l] ==> GroupOf(k) == GroupOf(l)
  }

  /** The guard looks at one row of the task, whichever the database returns first. */
  predicate GuardAllows(c: Catalog, k: RowKey, task: Option<string>, sample: Option<RowKey>) {
    !Tasked(task) || sample.None? || GroupOf(sample.value) == GroupOf(k)
  }

  ghost predicate SampleOf(c: Catalog, task: Option<string>, sample: Option<RowKey>) {
    if sample.Some? then sample.value in c && c[sample.value] == task
    else forall k :: k in c ==> c[k] != task
  }

  datatype Upsert = Upsert(key: RowKey, task: Option<string>, sample: Option<RowKey>)

  /** A guarded upsert: refused by the guard, or inserted, or moved to the given task. */
  function AfterUpsert(c: Catalog, u: Upsert): Catalog {
    if GuardAllows(c, u.key, u.task, u.sample) then c[u.key := u.task] else c
  }

  ghost predicate Samples(c: Catalog, us: seq<Upsert>)
    decreases |us|
  {
    us == [] || (SampleOf(c, us[0].task, us[0].sample) && Samples(AfterUpsert(c, us[0]), us[1..]))
  }

  function AfterAll(c: Catalog, us: seq<Upsert>): Catalog
    decreases |us|
  {
    if us == [] then c else AfterAll(AfterUpsert(c, us[0]), us[1..])
  }

  lemma UpsertKeepsRule(c: Catalog, u: Upsert)
    requires OneGroupPerTask(c) && SampleOf(c, u.task, u.sample)
    ensures OneGroupPerTask(AfterUpsert(c, u))
  {
  }

  /** Looking at a single row is enough: over every sequence of upserts, including ones that move a
      row to another task, each task keeps one pair, so ranking one task never meets two groups. */
  lemma {:induction false} RuleHoldsThroughout(c: Catalog, us: seq<Upsert>)
    requires OneGroupPerTask(c) && Samples(c, us)
    ensures OneGroupPerTask(AfterAll(c, us))
    decreases |us|
  {
    if us != [] {
      UpsertKeepsRule(c, us[0]);
      RuleHoldsThroughout(AfterUpsert(c, us[0]), us[1..]);
    }
  }

  ghost predicate HasRow(c: Catalog, task: Option<string>, g: Group) {
    exists k :: k in c && c[k] == task && GroupOf(k) == g
  }

  /** The rows handed to the scorer for a request about one task. */
  ghost predicate RowsOfTask(xs: seq<Input>, c: Catalog, task: Option<string>) {
    forall i :: 0 <= i < |xs| ==> HasRow(c, task, xs[i].group)
  }

  lemma SingleTaskNeverMixes(xs: seq<Input>, c: Catalog, task: Option<string>)
    requires OneGroupPerTask(c) && Tasked(task) && RowsOfTask(xs, c, task)
    ensures !(exists i, j :: 0 <= i < j < |xs| && xs[i].group != xs[j].group)
  {
    forall i, j | 0 <= i < j < |xs|
      ensures xs[i].group == xs[j].group
    {
      assert HasRow(c, task, xs[i].group) && HasRow(c, task, xs[j].group);
      var k :| k in c && c[k] == task && GroupOf(k) == xs[i].group;
      var l :| l in c && c[l] == task && GroupOf(l) == xs[j].group;
    }
  }

  /** The guard and the write are separate statements. Two upserts that both passed the guard on the
      same catalog keep the rule exactly unless they give one task two different pairs. */
  lemma OverlappingUpserts(c: Catalog, a: Upsert, b: Upsert)
    requires OneGroupPerTask(c) && SampleOf(c, a.task, a.sample) && SampleOf(c, b.task, b.sample)
    requires GuardAllows(c, a.key, a.task, a.sample) && GuardAllows(c, b.key, b.task, b.sample)
    ensures OneGroupPerTask(c[a.key := a.task][b.key := b.task])
       <==> !(Tasked(a.task) && a.task == b.task && GroupOf(a.key) != GroupOf(b.key))
  {
    var after := c[a.key := a.task][b.key := b.task];
    if Tasked(a.task) && a.task == b.task && GroupOf(a.key) != GroupOf(b.key) {
      assert after[a.key] == after[b.key];
    }
  }

  /** The smallest case: two upserts on an empty catalog, of two metrics for one task. Each is allowed
      on its own, and together they leave the task with two pairs. */
  lemma OverlapBreaksRule(model: string, benchmark: string, task: string)
    requires task != ""
    ensures var a := Upsert(RowKey(model, benchmark, None, "accuracy"), Some(task), None);
            var b := Upsert(RowKey(model, benchmark, None, "latency"), Some(task), None);
            var c: Catalog := map[];
            && OneGroupPerTask(c) && SampleOf(c, a.task, a.sample) && SampleOf(c, b.task, b.sample)
            && GuardAllows(c, a.key, a.task, a.sample) && GuardAllows(c, b.key, b.task, b.sample)
            && !OneGroupPerTask(c[a.key := a.task][b.key := b.task])
            && (forall sample :: SampleOf(AfterUpsert(c, a), b.task, sample) ==> !GuardAllows(AfterUpsert(c, a), b.key, b.task, sample))
  {
    var a := Upsert(RowKey(model, benchmark, None, "accuracy"), Some(task), None);
    var b := Upsert(RowKey(model, benchmark, None, "latency"), Some(task), None);
    var c: Catalog := map[];
    assert "accuracy"[0] != "latency"[0];
    OverlappingUpserts(c, a, b);
    assert AfterUpsert(c, a)[a.key] == b.task;
  }

  // ---------------------------------------------------------------- the catalog as an object

  class CatalogTable {
    var rows: Catalog

    constructor ()
      ensures rows == map[] && OneGroupPerTask(rows)
    {
      rows := map[];
    }

    /** `_assert_task_owns_one_group` and the upsert; `sample` is the row the guard's query returned. */
    method UpsertRow(key: RowKey, task: Option<string>, sample: Option<RowKey>) returns (accepted: bool)
      requires OneGroupPerTask(rows) && SampleOf(rows, task, sample)
      modifies this`rows
      ensures OneGroupPerTask(rows) && rows == AfterUpsert(old(rows), Upsert(key, task, sample))
      ensures rows == if accepted then old(rows)[key := task] else old(rows)
      ensures accepted <==> !Tasked(task) || forall k :: k in old(rows) && old(rows)[k] == task ==> GroupOf(k) == GroupOf(key)
    {
      UpsertKeepsRule(rows, Upsert(key, task, sample));
      if task.Some? && task.value != "" && sample.Some? && GroupOf(sample.value) != GroupOf(key) {
        return false;
      }
      rows := rows[key := task];
      accepted := true;
    }
  }
}
