/** Competition ranks (1, 1, 3) over benchmark scores, which observations may be ranked at all, and
    how the ranking of the eligible ones relates to the source's own. */
module Ranking {
  import opened Prelude
  import opened Ordering

  datatype Direction = Higher | Lower | Unranked

  predicate Better(d: Direction, a: real, b: real) {
    if d == Higher then a > b else a < b
  }

  datatype Scored = Scored(key: int, score: real)

  /** Best first; the key makes the order of ties stable and never breaks them in rank. */
  function Precedes(d: Direction): (Scored, Scored) -> bool {
    (a: Scored, b: Scored) => Better(d, a.score, b.score) || (a.score == b.score && a.key <= b.key)
  }

  lemma PrecedesIsTotal(d: Direction)
    ensures TotalOrder(Precedes(d))
  {
  }

  /** How many scores are strictly better. */
  function BetterThan(d: Direction, s: real, xs: seq<Scored>): nat {
    if xs == [] then 0 else (if Better(d, xs[0].score, s) then 1 else 0) + BetterThan(d, s, xs[1..])
  }

  lemma {:induction false} BetterThanInsert(d: Direction, s: real, x: Scored, xs: seq<Scored>)
    ensures BetterThan(d, s, Insert(x, xs, Precedes(d)))
         == (if Better(d, x.score, s) then 1 else 0) + BetterThan(d, s, xs)
  {
    if xs == [] || Precedes(d)(x, xs[0]) {
      assert ([x] + xs)[1..] == xs;
    } else {
      BetterThanInsert(d, s, x, xs[1..]);
      assert ([xs[0]] + Insert(x, xs[1..], Precedes(d)))[1..] == Insert(x, xs[1..], Precedes(d));
    }
  }

  lemma {:induction false} BetterThanSorted(d: Direction, s: real, xs: seq<Scored>)
    ensures BetterThan(d, s, Sort(xs, Precedes(d))) == BetterThan(d, s, xs)
  {
    if xs != [] {
      BetterThanSorted(d, s, xs[1..]);
      BetterThanInsert(d, s, xs[0], Sort(xs[1..], Precedes(d)));
    }
  }

  lemma {:induction false} BetterThanConcat(d: Direction, s: real, xs: seq<Scored>, ys: seq<Scored>)
    ensures BetterThan(d, s, xs + ys) == BetterThan(d, s, xs) + BetterThan(d, s, ys)
  {
    if xs == [] {
      assert xs + ys == ys;
    } else {
      assert (xs + ys)[1..] == xs[1..] + ys;
      BetterThanConcat(d, s, xs[1..], ys);
    }
  }

  lemma {:induction false} AllOrNothing(d: Direction, s: real, xs: seq<Scored>)
    ensures (forall i :: 0 <= i < |xs| ==> Better(d, xs[i].score, s)) ==> BetterThan(d, s, xs) == |xs|
    ensures (forall i :: 0 <= i < |xs| ==> !Better(d, xs[i].score, s)) ==> BetterThan(d, s, xs) == 0
  {
    if xs != [] {
      AllOrNothing(d, s, xs[1..]);
    }
  }

  /** `first` is where the score of position `i` begins. */
  ghost predicate Begins(xs: seq<Scored>, first: nat, i: nat) {
    && first <= i < |xs| && xs[first].score == xs[i].score
    && (first > 0 ==> xs[first - 1].score != xs[i].score)
  }

  lemma AllBefore(d: Direction, xs: seq<Scored>, first: nat, j: nat)
    requires SortedBy(xs, Precedes(d)) && j < first < |xs| && xs[first - 1].score != xs[first].score
    ensures Better(d, xs[j].score, xs[first].score)
  {
    assert Precedes(d)(xs[first - 1], xs[first]);
    assert j < first - 1 ==> Precedes(d)(xs[j], xs[first - 1]);
  }

  lemma NoneAfter(d: Direction, xs: seq<Scored>, first: nat, j: nat)
    requires SortedBy(xs, Precedes(d)) && first + j < |xs|
    ensures !Better(d, xs[first + j].score, xs[first].score)
  {
    assert j > 0 ==> Precedes(d)(xs[first], xs[first + j]);
  }

  /** In a sorted list the strictly better scores are those before the first equal one. */
  lemma BetterThanInSorted(d: Direction, xs: seq<Scored>, first: nat, i: nat)
    requires SortedBy(xs, Precedes(d)) && Begins(xs, first, i)
    ensures BetterThan(d, xs[i].score, xs) == first
  {
    hide BetterThan, Precedes, Better;
    var s := xs[i].score;
    var before, rest := xs[..first], xs[first..];
    assert xs == before + rest;
    BetterThanConcat(d, s, before, rest);
    forall j | 0 <= j < first
      ensures Better(d, before[j].score, s)
    {
      AllBefore(d, xs, first, j);
    }
    forall j | 0 <= j < |rest|
      ensures !Better(d, rest[j].score, s)
    {
      NoneAfter(d, xs, first, j);
    }
    hide SortedBy, BetterThan, Precedes, Better;
    AllOrNothing(d, s, before);
    AllOrNothing(d, s, rest);
  }

  /** Ranks of a sorted list: a new rank is the position at which the score changed. */
  method AssignRanks(d: Direction, xs: seq<Scored>) returns (ranks: seq<nat>)
    requires SortedBy(xs, Precedes(d))
    ensures |ranks| == |xs| && forall i :: 0 <= i < |xs| ==> ranks[i] == 1 + BetterThan(d, xs[i].score, xs)
  {
    hide SortedBy, BetterThan, Precedes;
    ranks := [];
    var previous: Option<real> := None;
    var rank: nat := 0;
    var i := 0;
    while i < |xs|
      invariant i <= |xs| && |ranks| == i
      invariant previous == if i == 0 then None else Some(xs[i - 1].score)
      invariant i > 0 ==> rank > 0 && Begins(xs, rank - 1, i - 1)
      invariant forall k :: 0 <= k < i ==> ranks[k] == 1 + BetterThan(d, xs[k].score, xs)
    {
      if previous != Some(xs[i].score) {
        rank := i + 1;
      }
      assert Begins(xs, rank - 1, i);
      BetterThanInSorted(d, xs, rank - 1, i);
      ranks := ranks + [rank];
      previous := Some(xs[i].score);
      i := i + 1;
    }
  }

  datatype Ranked = Ranked(key: int, rank: nat)

  /** Rows without a score are left out. */
  function Known(rows: seq<(int, Option<real>)>): seq<Scored> {
    if rows == [] then []
    else (if rows[0].1.Some? then [Scored(rows[0].0, rows[0].1.value)] else []) + Known(rows[1..])
  }

  /** The ranking: sorted, and each key with one more than the number of strictly better scores. */
  function Ranking(d: Direction, xs: seq<Scored>): seq<Ranked> {
    var sorted := Sort(xs, Precedes(d));
    seq(|sorted|, i requires 0 <= i < |sorted| => Ranked(sorted[i].key, 1 + BetterThan(d, sorted[i].score, xs)))
  }

  /** `order_scores`; None for a metric that does not rank. */
  method OrderScores(rows: seq<(int, Option<real>)>, d: Direction) returns (r: Option<seq<Ranked>>)
    ensures r.None? <==> d == Unranked
    ensures r.Some? ==> r.value == Ranking(d, Known(rows))
  {
    hide BetterThan, Known, Sort;
    if d == Unranked {
      return None;
    }
    var known := Known(rows);
    var sorted := Sort(known, Precedes(d));
    PrecedesIsTotal(d);
    SortSorts(known, Precedes(d));
    var ranks := AssignRanks(d, sorted);
    var result: seq<Ranked> := [];
    var i := 0;
    while i < |sorted|
      invariant i <= |sorted| && |result| == i
      invariant forall k :: 0 <= k < i ==> result[k] == Ranked(sorted[k].key, 1 + BetterThan(d, sorted[k].score, known))
    {
      BetterThanSorted(d, sorted[i].score, known);
      result := result + [Ranked(sorted[i].key, ranks[i])];
      i := i + 1;
    }
    r := Some(result);
  }

  lemma {:induction false} KnownMultiset(rows: seq<(int, Option<real>)>, s: Scored)
    ensures multiset(Known(rows))[s] == multiset(rows)[(s.key, Some(s.score))]
  {
    if rows != [] {
      KnownMultiset(rows[1..], s);
      assert rows == [rows[0]] + rows[1..];
    }
  }

  /** Every scored key is ranked one more than the number of strictly better scores, and the whole
      result does not depend on the order of the input. */
  lemma RanksAreCompetitionRanks(d: Direction, rows: seq<(int, Option<real>)>, rows': seq<(int, Option<real>)>)
    requires multiset(rows) == multiset(rows')
    ensures Ranking(d, Known(rows)) == Ranking(d, Known(rows'))
    ensures |Ranking(d, Known(rows))| == |Known(rows)|
    ensures forall x :: x in Known(rows) ==> Ranked(x.key, 1 + BetterThan(d, x.score, Known(rows))) in Ranking(d, Known(rows))
  {
    hide Ranking, Sort, BetterThan, Known;
    var xs, ys := Known(rows), Known(rows');
    forall s: Scored
      ensures multiset(xs)[s] == multiset(ys)[s]
    {
      KnownMultiset(rows, s);
      KnownMultiset(rows', s);
    }
    assert multiset(xs) == multiset(ys);
    RankingIgnoresOrder(d, xs, ys);
    RankingCovers(d, xs);
  }

  lemma RankingIgnoresOrder(d: Direction, xs: seq<Scored>, ys: seq<Scored>)
    requires multiset(xs) == multiset(ys)
    ensures Ranking(d, xs) == Ranking(d, ys)
  {
    hide Sort, BetterThan;
    PrecedesIsTotal(d);
    SortIgnoresOrder(xs, ys, Precedes(d));
    var sorted := Sort(xs, Precedes(d));
    forall i | 0 <= i < |sorted|
      ensures Ranking(d, xs)[i] == Ranking(d, ys)[i]
    {
      BetterThanSorted(d, sorted[i].score, xs);
      BetterThanSorted(d, sorted[i].score, ys);
    }
  }

  lemma RankingCovers(d: Direction, xs: seq<Scored>)
    ensures |Ranking(d, xs)| == |xs|
    ensures forall x :: x in xs ==> Ranked(x.key, 1 + BetterThan(d, x.score, xs)) in Ranking(d, xs)
  {
    hide Sort, BetterThan, Precedes, TotalOrder, SortedBy;
    PrecedesIsTotal(d);
    SortSorts(xs, Precedes(d));
    var sorted := Sort(xs, Precedes(d));
    forall x | x in xs
      ensures Ranked(x.key, 1 + BetterThan(d, x.score, xs)) in Ranking(d, xs)
    {
      assert x in multiset(xs) && x in multiset(sorted);
      var i :| 0 <= i < |sorted| && sorted[i] == x;
      assert Ranking(d, xs)[i] == Ranked(x.key, 1 + BetterThan(d, x.score, xs));
    }
  }

  /** The rows with a better score than a given one: a higher or a lower score, as the metric has it. */
  ghost function BetterRows(d: Direction, rows: seq<(int, Option<real>)>, s: real): set<nat> {
    set i: nat | i < |rows| && rows[i].1.Some? && (if d == Higher then rows[i].1.value > s else rows[i].1.value < s)
  }

  lemma {:induction false} KnownConcat(a: seq<(int, Option<real>)>, b: seq<(int, Option<real>)>)
    ensures Known(a + b) == Known(a) + Known(b)
  {
    if a == [] {
      assert a + b == b;
    } else {
      var first := if a[0].1.Some? then [Scored(a[0].0, a[0].1.value)] else [];
      assert (a + b)[0] == a[0] && (a + b)[1..] == a[1..] + b;
      KnownConcat(a[1..], b);
      assert Known(a + b) == first + (Known(a[1..]) + Known(b)) && Known(a) == first + Known(a[1..]);
    }
  }

  lemma {:induction false} BetterRowsCounted(d: Direction, rows: seq<(int, Option<real>)>, s: real)
    ensures |BetterRows(d, rows, s)| == BetterThan(d, s, Known(rows))
    decreases |rows|
  {
    if rows != [] {
      var n := |rows| - 1;
      var before, last := rows[..n], [rows[n]];
      assert rows == before + last && last[1..] == [];
      BetterRowsCounted(d, before, s);
      KnownConcat(before, last);
      BetterThanConcat(d, s, Known(before), Known(last));
      var better := BetterRows(d, before, s);
      if n in BetterRows(d, rows, s) {
        assert BetterRows(d, rows, s) == better + {n};
      } else {
        assert BetterRows(d, rows, s) == better;
      }
    }
  }

  /** The ranking, row by row: a row with a score has a rank one more than the number of rows with a better
      one, and the ranking lists nothing else. */
  lemma RanksOfRows(d: Direction, rows: seq<(int, Option<real>)>, k: nat)
    requires k < |rows| && rows[k].1.Some?
    ensures Ranked(rows[k].0, 1 + |BetterRows(d, rows, rows[k].1.value)|) in Ranking(d, Known(rows))
  {
    hide BetterThan, Ranking, BetterRows;
    var x := Scored(rows[k].0, rows[k].1.value);
    KnownMultiset(rows, x);
    assert rows[k] in multiset(rows) && x in multiset(Known(rows));
    BetterRowsCounted(d, rows, x.score);
    RankingCovers(d, Known(rows));
  }

  /** The ranking is listed best rank first, and tied keys in order. */
  lemma RankingIsInOrder(d: Direction, xs: seq<Scored>, i: nat, j: nat)
    requires i < j < |Ranking(d, xs)|
    ensures var r := Ranking(d, xs);
            r[i].rank < r[j].rank || (r[i].rank == r[j].rank && r[i].key <= r[j].key)
  {
    hide Sort, BetterThan;
    PrecedesIsTotal(d);
    SortSorts(xs, Precedes(d));
    var sorted := Sort(xs, Precedes(d));
    assert Precedes(d)(sorted[i], sorted[j]);
    assert sorted[i] in multiset(xs);
    var x :| 0 <= x < |xs| && xs[x] == sorted[i];
    RankReflectsScore(d, xs, sorted[i].score, sorted[j].score);
  }

  /** Within one list, ranks compare exactly as the scores do. */
  lemma {:induction false} RankReflectsScore(d: Direction, xs: seq<Scored>, a: real, b: real)
    ensures a == b ==> BetterThan(d, a, xs) == BetterThan(d, b, xs)
    ensures Better(d, a, b) ==> BetterThan(d, a, xs) <= BetterThan(d, b, xs)
    ensures Better(d, a, b) && (exists i :: 0 <= i < |xs| && xs[i].score == a) ==> BetterThan(d, a, xs) < BetterThan(d, b, xs)
  {
    if xs != [] {
      RankReflectsScore(d, xs[1..], a, b);
      if exists i :: 0 <= i < |xs| && xs[i].score == a {
        var i :| 0 <= i < |xs| && xs[i].score == a;
        if i > 0 {
          assert xs[1..][i - 1].score == a;
        }
      }
    }
  }

  /** Two scores of one list compare in rank exactly as in value. */
  lemma RankDecides(d: Direction, xs: seq<Scored>, i: nat, j: nat)
    requires i < |xs| && j < |xs|
    ensures BetterThan(d, xs[i].score, xs) < BetterThan(d, xs[j].score, xs) <==> Better(d, xs[i].score, xs[j].score)
    ensures BetterThan(d, xs[i].score, xs) == BetterThan(d, xs[j].score, xs) <==> xs[i].score == xs[j].score
  {
    RankReflectsScore(d, xs, xs[i].score, xs[j].score);
    RankReflectsScore(d, xs, xs[j].score, xs[i].score);
  }

  // ---------------------------------------------------------------- eligible candidates

  /** One source-backed metric of an observation, with its comparison group if it has one. */
  datatype Evidence = Evidence(observation: int, group: Option<string>, value: real)

  type Scores = map<int, (string, real)>
  type Groups = map<string, map<int, real>>

  /** How many comparable metrics an observation has. */
  function Comparable(rows: seq<Evidence>, o: int): nat {
    if rows == [] then 0
    else Comparable(rows[..|rows| - 1], o)
         + (if rows[|rows| - 1].observation == o && rows[|rows| - 1].group.Some? then 1 else 0)
  }

  function ValueIn(groups: Groups, g: string, o: int): Option<real> {
    if g in groups && o in groups[g] then Some(groups[g][o]) else None
  }

  /** What has been collected from a prefix of the evidence. */
  ghost predicate Collected(rows: seq<Evidence>, scores: Scores, groups: Groups, ambiguous: set<int>) {
    && (forall o :: o in scores <==> Comparable(rows, o) >= 1)
    && (forall o :: o in ambiguous <==> Comparable(rows, o) >= 2)
    && (forall o, g :: ValueIn(groups, g, o).Some? ==> o in scores)
    && (forall o :: o in scores && o !in ambiguous ==> IsOnlyScore(scores, groups, o))
  }

  /** The one score of an observation is in its group, and in no other. */
  ghost predicate IsOnlyScore(scores: Scores, groups: Groups, o: int)
    requires o in scores
  {
    forall g :: ValueIn(groups, g, o) == if g == scores[o].0 then Some(scores[o].1) else None
  }

  lemma CollectOne(rows: seq<Evidence>, e: Evidence, scores: Scores, groups: Groups, ambiguous: set<int>)
    requires Collected(rows, scores, groups, ambiguous) && e.group.Some?
    ensures var g, o := e.group.value, e.observation;
            var members := if g in groups then groups[g] else map[];
            Collected(rows + [e], scores[o := (g, e.value)], groups[g := members[o := e.value]],
                      if o in scores then ambiguous + {o} else ambiguous)
  {
    hide IsOnlyScore;
    var g, o := e.group.value, e.observation;
    var members := if g in groups then groups[g] else map[];
    var scores', groups' := scores[o := (g, e.value)], groups[g := members[o := e.value]];
    assert (rows + [e])[..|rows|] == rows;
    assert forall x :: Comparable(rows + [e], x) == Comparable(rows, x) + if x == o then 1 else 0;
    forall x, h
      ensures ValueIn(groups', h, x) == if x == o && h == g then Some(e.value) else ValueIn(groups, h, x)
    {
    }
    forall x | x in scores' && Comparable(rows + [e], x) < 2
      ensures IsOnlyScore(scores', groups', x)
    {
      OnlyScoreStep(scores, groups, scores', groups', x, o, g, e.value);
    }
  }

  lemma OnlyScoreStep(scores: Scores, groups: Groups, scores': Scores, groups': Groups, x: int, o: int, g: string, v: real)
    requires scores' == scores[o := (g, v)] && x in scores'
    requires forall y, h :: ValueIn(groups', h, y) == if y == o && h == g then Some(v) else ValueIn(groups, h, y)
    requires if x == o then o !in scores && (forall h :: ValueIn(groups, h, o).None?) else x in scores && IsOnlyScore(scores, groups, x)
    ensures IsOnlyScore(scores', groups', x)
  {
    hide ValueIn;
  }

  /** Scan the evidence, then drop every observation with several comparable metrics, from the
      scores and from all groups. */
  method CollectScores(rows: seq<Evidence>) returns (scores: Scores, groups: Groups)
    ensures forall o :: o in scores <==> Comparable(rows, o) == 1
    ensures forall o, g :: ValueIn(groups, g, o)
                           == if o in scores && scores[o].0 == g then Some(scores[o].1) else None
    ensures forall o :: o in scores ==>
              exists i :: 0 <= i < |rows| && rows[i].observation == o
                          && rows[i].group == Some(scores[o].0) && rows[i].value == scores[o].1
  {
    hide IsOnlyScore;
    scores, groups := map[], map[];
    var ambiguous: set<int> := {};
    var i := 0;
    while i < |rows|
      invariant i <= |rows| && Collected(rows[..i], scores, groups, ambiguous)
      invariant forall o :: o in scores ==> IsRow(rows, i, o, scores[o])
    {
      var e := rows[i];
      assert rows[..i + 1] == rows[..i] + [e];
      assert rows[..i + 1][..i] == rows[..i];
      if e.group.Some? {
        CollectOne(rows[..i], e, scores, groups, ambiguous);
        var g, o := e.group.value, e.observation;
        if o in scores {
          ambiguous := ambiguous + {o};
        }
        assert IsRow(rows, i + 1, o, (g, e.value));
        scores := scores[o := (g, e.value)];
        groups := groups[g := (if g in groups then groups[g] else map[])[o := e.value]];
      } else {
        assert forall x :: Comparable(rows[..i + 1], x) == Comparable(rows[..i], x);
      }
      i := i + 1;
    }
    assert rows[..i] == rows;
    ghost var before, beforeGroups := scores, groups;
    scores := scores - ambiguous;
    groups := map g | g in groups :: groups[g] - ambiguous;
    forall o, g
      ensures ValueIn(groups, g, o) == if o in scores && scores[o].0 == g then Some(scores[o].1) else None
    {
      Pruned(before, beforeGroups, ambiguous, o, g);
    }
    forall o | o in scores
      ensures exists k :: 0 <= k < |rows| && rows[k].observation == o
                          && rows[k].group == Some(scores[o].0) && rows[k].value == scores[o].1
    {
      assert IsRow(rows, |rows|, o, before[o]);
    }
  }

  /** One of the first n rows of the evidence gives an observation this score in this group. */
  ghost predicate IsRow(rows: seq<Evidence>, n: nat, o: int, score: (string, real)) {
    exists i :: 0 <= i < n && i < |rows| && rows[i].observation == o && rows[i].group == Some(score.0) && rows[i].value == score.1
  }

  lemma Pruned(scores: Scores, groups: Groups, ambiguous: set<int>, o: int, g: string)
    requires o in scores && o !in ambiguous ==> IsOnlyScore(scores, groups, o)
    requires ValueIn(groups, g, o).Some? ==> o in scores
    ensures var groups' := map h | h in groups :: groups[h] - ambiguous;
            ValueIn(groups', g, o) == if o in scores && o !in ambiguous && scores[o].0 == g then Some(scores[o].1) else None
  {
    var groups' := map h | h in groups :: groups[h] - ambiguous;
    assert ValueIn(groups', g, o) == if o in ambiguous then None else ValueIn(groups, g, o);
  }

  /** An eligible item of the chosen group, by the score of its observation. Several runtimes may
      offer the same observation. */
  datatype Item = Item(model: int, runtime: int, observation: int, score: real)

  function Scoring(items: seq<Item>): seq<Scored> {
    seq(|items|, i requires 0 <= i < |items| => Scored(items[i].observation, items[i].score))
  }

  /** The rank shown for an eligible item, and the rank of its observation in the source's group. */
  function EligibleRank(d: Direction, items: seq<Item>, i: nat): nat
    requires i < |items|
  {
    1 + BetterThan(d, items[i].score, Scoring(items))
  }

  function SourceRank(d: Direction, group: seq<Scored>, x: Scored): nat {
    1 + BetterThan(d, x.score, group)
  }

  /** Restricting a group to what the project can run keeps the source's order: two eligible items
      compare in the shown ranking exactly as their observations do in the source's, ties included. */
  lemma EligibleOrderIsSourceOrder(d: Direction, items: seq<Item>, group: seq<Scored>, i: nat, j: nat)
    requires i < |items| && j < |items|
    requires forall k :: 0 <= k < |items| ==> Scored(items[k].observation, items[k].score) in group
    ensures var a, b := Scored(items[i].observation, items[i].score), Scored(items[j].observation, items[j].score);
            && (EligibleRank(d, items, i) < EligibleRank(d, items, j) <==> SourceRank(d, group, a) < SourceRank(d, group, b))
            && (EligibleRank(d, items, i) == EligibleRank(d, items, j) <==> SourceRank(d, group, a) == SourceRank(d, group, b))
            && (EligibleRank(d, items, i) == EligibleRank(d, items, j) <==> items[i].score == items[j].score)
  {
    var a, b := items[i].score, items[j].score;
    assert Scoring(items)[i].score == a && Scoring(items)[j].score == b;
    var x :| 0 <= x < |group| && group[x] == Scored(items[i].observation, a);
    var y :| 0 <= y < |group| && group[y] == Scored(items[j].observation, b);
    RankDecides(d, Scoring(items), i, j);
    RankDecides(d, Scoring(items), j, i);
    RankDecides(d, group, x, y);
    RankDecides(d, group, y, x);
  }

  predicate ItemBefore(d: Direction, a: Item, b: Item) {
    || Better(d, a.score, b.score)
    || (a.score == b.score && a.model < b.model)
    || (a.score == b.score && a.model == b.model && a.runtime < b.runtime)
    || (a.score == b.score && a.model == b.model && a.runtime == b.runtime && a.observation <= b.observation)
  }

  /** The ranking loop of the candidate list, over items already sorted. */
  method RankItems(d: Direction, items: seq<Item>) returns (ranks: seq<nat>)
    requires SortedBy(items, (a: Item, b: Item) => ItemBefore(d, a, b))
    ensures |ranks| == |items| && forall i :: 0 <= i < |items| ==> ranks[i] == EligibleRank(d, items, i)
  {
    hide SortedBy, ItemBefore, EligibleRank;
    ranks := [];
    var previous: Option<real> := None;
    var rank: nat := 0;
    var i := 0;
    while i < |items|
      invariant i <= |items| && |ranks| == i
      invariant previous == if i == 0 then None else Some(items[i - 1].score)
      invariant i > 0 ==> 1 <= rank <= i && items[rank - 1].score == items[i - 1].score
                          && (rank > 1 ==> items[rank - 2].score != items[i - 1].score)
      invariant forall k :: 0 <= k < i ==> ranks[k] == EligibleRank(d, items, k)
    {
      if previous != Some(items[i].score) {
        rank := i + 1;
      }
      SortedItems(d, items, rank - 1, i);
      ranks := ranks + [rank];
      previous := Some(items[i].score);
      i := i + 1;
    }
  }

  lemma SortedItems(d: Direction, items: seq<Item>, first: nat, i: nat)
    requires SortedBy(items, (a: Item, b: Item) => ItemBefore(d, a, b)) && first <= i < |items|
    requires items[first].score == items[i].score && (first > 0 ==> items[first - 1].score != items[i].score)
    ensures EligibleRank(d, items, i) == first + 1
  {
    var xs := Scoring(items);
    var s := items[i].score;
    assert xs == xs[..first] + xs[first..];
    BetterThanConcat(d, s, xs[..first], xs[first..]);
    assert forall j, k :: 0 <= j < k < |items| ==> ItemBefore(d, items[j], items[k]);
    forall j | 0 <= j < first
      ensures Better(d, xs[..first][j].score, s)
    {
      assert ItemBefore(d, items[first - 1], items[first]);
      assert j < first - 1 ==> ItemBefore(d, items[j], items[first - 1]);
    }
    forall j | 0 <= j < |xs[first..]|
      ensures !Better(d, xs[first..][j].score, s)
    {
      assert j > 0 ==> ItemBefore(d, items[first], items[first + j]);
    }
    AllOrNothing(d, s, xs[..first]);
    AllOrNothing(d, s, xs[first..]);
  }

  /** The rank shown for an eligible item is one more than the number of items with a better score. */
  lemma {:induction false} EligibleRankCounts(d: Direction, items: seq<Item>, i: nat)
    requires i < |items|
    ensures EligibleRank(d, items, i)
         == 1 + |set j: nat | j < |items| && (if d == Higher then items[j].score > items[i].score
                                              else items[j].score < items[i].score)|
  {
    var rows := seq(|items|, (j: nat) requires j < |items| => (items[j].observation, Some(items[j].score)));
    KnownOfItems(items, rows);
    BetterRowsCounted(d, rows, items[i].score);
    assert BetterRows(d, rows, items[i].score)
        == set j: nat | j < |items| && (if d == Higher then items[j].score > items[i].score else items[j].score < items[i].score);
  }

  lemma {:induction false} KnownOfItems(items: seq<Item>, rows: seq<(int, Option<real>)>)
    requires |rows| == |items| && forall j :: 0 <= j < |items| ==> rows[j] == (items[j].observation, Some(items[j].score))
    ensures Known(rows) == Scoring(items)
  {
    if rows != [] {
      KnownOfItems(items[1..], rows[1..]);
      assert Scoring(items) == [Scored(items[0].observation, items[0].score)] + Scoring(items[1..]);
    }
  }
}
