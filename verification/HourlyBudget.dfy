/** The hourly token tally shared by all replicas: reserve an estimate, call the provider, then
    reconcile to the actual usage or release. Every change of the tally is one atomic statement;
    everything between two statements may interleave, and a replica may die at any point. */
module HourlyBudget {
  import opened Prelude

  type Hour = int

  /** One provider call and what its replica has done about the tally so far. */
  datatype Call =
    | Held(hour: Hour, estimate: nat)               // admitted: the estimate is reserved
    | Refusing(hour: Hour, estimate: nat)           // over the cap: reserved, not yet given back
    | Refused
    | Settled(hour: Hour, estimate: nat, actual: nat)
    | Released

  datatype State = State(tally: map<Hour, nat>, calls: seq<Call>)

  const EMPTY := State(map[], [])

  function Used(s: State, h: Hour): nat {
    if h in s.tally then s.tally[h] else 0
  }

  /** The tally row after the upsert: a first row ignores a negative delta, a later change is
      floored at 0. */
  function Add(tally: map<Hour, nat>, h: Hour, delta: int): map<Hour, nat> {
    tally[h := if h in tally then Max(tally[h] + delta, 0) else Max(delta, 0)]
  }

  datatype Step =
    | Reserve(hour: Hour, estimate: nat)
    | GiveBack(i: nat)                              // second half of a refused reservation
    | Reconcile(i: nat, actual: nat)
    | Release(i: nat)

  predicate Enabled(s: State, st: Step) {
    match st
    case Reserve(_, _) => true
    case GiveBack(i) => i < |s.calls| && s.calls[i].Refusing?
    case Reconcile(i, _) => i < |s.calls| && s.calls[i].Held?
    case Release(i) => i < |s.calls| && s.calls[i].Held?
  }

  function Next(s: State, st: Step, cap: nat): State
    requires Enabled(s, st)
  {
    match st
    case Reserve(h, e) =>
      var tally := Add(s.tally, h, e);
      State(tally, s.calls + [if tally[h] > cap then Refusing(h, e) else Held(h, e)])
    case GiveBack(i) => State(Add(s.tally, s.calls[i].hour, 0 - s.calls[i].estimate), s.calls[i := Refused])
    case Reconcile(i, actual) =>
      State(Add(s.tally, s.calls[i].hour, actual - s.calls[i].estimate),
            s.calls[i := Settled(s.calls[i].hour, s.calls[i].estimate, actual)])
    case Release(i) => State(Add(s.tally, s.calls[i].hour, 0 - s.calls[i].estimate), s.calls[i := Released])
  }

  // ---------------------------------------------------------------- what a call stands for

  /** What a call contributes to the tally of an hour. */
  function Weight(c: Call, h: Hour): nat {
    match c
    case Held(g, e) => if g == h then e else 0
    case Refusing(g, e) => if g == h then e else 0
    case Settled(g, _, a) => if g == h then a else 0
    case _ => 0
  }

  /** What it has been admitted to spend: its hold, or what it really used. */
  function Spend(c: Call, h: Hour): nat {
    match c
    case Held(g, e) => if g == h then e else 0
    case Settled(g, _, a) => if g == h then a else 0
    case _ => 0
  }

  /** By how much a settled call exceeded the estimate it was admitted with. */
  function Overrun(c: Call, h: Hour): nat {
    if c.Settled? && c.hour == h && c.actual > c.estimate then c.actual - c.estimate else 0
  }

  function Weights(calls: seq<Call>, h: Hour): seq<int> {
    seq(|calls|, i requires 0 <= i < |calls| => Weight(calls[i], h))
  }

  function Spends(calls: seq<Call>, h: Hour): seq<int> {
    seq(|calls|, i requires 0 <= i < |calls| => Spend(calls[i], h))
  }

  function Overruns(calls: seq<Call>, h: Hour): seq<int> {
    seq(|calls|, i requires 0 <= i < |calls| => Overrun(calls[i], h))
  }

  /** Spend without the overrun: never more than the estimate the call was admitted with. */
  function Excess(calls: seq<Call>, h: Hour): int {
    Sum(Spends(calls, h)) - Sum(Overruns(calls, h))
  }

  ghost predicate Inv(s: State, cap: nat) {
    forall h :: Used(s, h) == Sum(Weights(s.calls, h)) && Excess(s.calls, h) <= cap
  }

  lemma SumsAppend(calls: seq<Call>, c: Call, h: Hour)
    ensures Sum(Weights(calls + [c], h)) == Sum(Weights(calls, h)) + Weight(c, h)
    ensures Sum(Spends(calls + [c], h)) == Sum(Spends(calls, h)) + Spend(c, h)
    ensures Sum(Overruns(calls + [c], h)) == Sum(Overruns(calls, h)) + Overrun(c, h)
  {
    assert Weights(calls + [c], h) == Weights(calls, h) + [Weight(c, h)];
    assert Spends(calls + [c], h) == Spends(calls, h) + [Spend(c, h)];
    assert Overruns(calls + [c], h) == Overruns(calls, h) + [Overrun(c, h)];
    SumConcat(Weights(calls, h), [Weight(c, h)]);
    SumConcat(Spends(calls, h), [Spend(c, h)]);
    SumConcat(Overruns(calls, h), [Overrun(c, h)]);
  }

  lemma SumsReplace(calls: seq<Call>, i: nat, c: Call, h: Hour)
    requires i < |calls|
    ensures Sum(Weights(calls[i := c], h)) == Sum(Weights(calls, h)) - Weight(calls[i], h) + Weight(c, h)
    ensures Sum(Spends(calls[i := c], h)) == Sum(Spends(calls, h)) - Spend(calls[i], h) + Spend(c, h)
    ensures Sum(Overruns(calls[i := c], h)) == Sum(Overruns(calls, h)) - Overrun(calls[i], h) + Overrun(c, h)
  {
    assert Weights(calls[i := c], h) == Weights(calls, h)[i := Weight(c, h)];
    assert Spends(calls[i := c], h) == Spends(calls, h)[i := Spend(c, h)];
    assert Overruns(calls[i := c], h) == Overruns(calls, h)[i := Overrun(c, h)];
    SumUpdate(Weights(calls, h), i, Weight(c, h));
    SumUpdate(Spends(calls, h), i, Spend(c, h));
    SumUpdate(Overruns(calls, h), i, Overrun(c, h));
  }

  /** A part of the weights never exceeds all of them. */
  lemma SpendsWithinWeights(calls: seq<Call>, h: Hour)
    ensures 0 <= Sum(Overruns(calls, h)) && Sum(Spends(calls, h)) <= Sum(Weights(calls, h))
    ensures forall i :: 0 <= i < |calls| ==> Weight(calls[i], h) <= Sum(Weights(calls, h))
  {
    SumMonotone(Spends(calls, h), Weights(calls, h));
    var zeros := seq(|calls|, i => 0);
    Zeros(zeros);
    SumMonotone(zeros, Overruns(calls, h));
    forall i | 0 <= i < |calls|
      ensures Weight(calls[i], h) <= Sum(Weights(calls, h))
    {
      var one := zeros[i := Weight(calls[i], h)];
      SumUpdate(zeros, i, Weight(calls[i], h));
      SumMonotone(one, Weights(calls, h));
    }
  }

  lemma {:induction false} Zeros(xs: seq<int>)
    requires forall i :: 0 <= i < |xs| ==> xs[i] == 0
    ensures Sum(xs) == 0
  {
    if xs != [] {
      Zeros(xs[1..]);
    }
  }

  /** Taking back what a call has reserved never meets the floor. */
  lemma FloorUnused(s: State, i: nat, cap: nat)
    requires Inv(s, cap) && i < |s.calls| && (s.calls[i].Held? || s.calls[i].Refusing?)
    ensures s.calls[i].hour in s.tally || s.calls[i].estimate == 0
    ensures Used(s, s.calls[i].hour) >= s.calls[i].estimate
  {
    SpendsWithinWeights(s.calls, s.calls[i].hour);
  }

  lemma ReserveKeepsInv(s: State, h: Hour, e: nat, cap: nat)
    requires Inv(s, cap)
    ensures Inv(Next(s, Reserve(h, e), cap), cap)
  {
    var s' := Next(s, Reserve(h, e), cap);
    var c := s'.calls[|s.calls|];
    forall g
      ensures Used(s', g) == Sum(Weights(s'.calls, g)) && Excess(s'.calls, g) <= cap
    {
      SumsAppend(s.calls, c, g);
      SpendsWithinWeights(s'.calls, g);
    }
  }

  lemma SettleKeepsInv(s: State, st: Step, cap: nat)
    requires Inv(s, cap) && !st.Reserve? && Enabled(s, st)
    ensures Inv(Next(s, st, cap), cap)
  {
    var s' := Next(s, st, cap);
    FloorUnused(s, st.i, cap);
    forall g
      ensures Used(s', g) == Sum(Weights(s'.calls, g)) && Excess(s'.calls, g) <= cap
    {
      SumsReplace(s.calls, st.i, s'.calls[st.i], g);
    }
  }

  ghost predicate Possible(s: State, steps: seq<Step>, cap: nat)
    decreases |steps|
  {
    steps == [] || (Enabled(s, steps[0]) && Possible(Next(s, steps[0], cap), steps[1..], cap))
  }

  function After(s: State, steps: seq<Step>, cap: nat): State
    requires Possible(s, steps, cap)
    decreases |steps|
  {
    if steps == [] then s else After(Next(s, steps[0], cap), steps[1..], cap)
  }

  lemma {:induction false} RunKeepsInv(s: State, steps: seq<Step>, cap: nat)
    requires Inv(s, cap) && Possible(s, steps, cap)
    ensures Inv(After(s, steps, cap), cap)
    decreases |steps|
  {
    if steps != [] {
      hide Inv;
      if steps[0].Reserve? {
        ReserveKeepsInv(s, steps[0].hour, steps[0].estimate, cap);
      } else {
        SettleKeepsInv(s, steps[0], cap);
      }
      RunKeepsInv(Next(s, steps[0], cap), steps[1..], cap);
    }
  }

  lemma EmptyInv(cap: nat)
    ensures Inv(EMPTY, cap)
  {
    forall h
      ensures Used(EMPTY, h) == Sum(Weights(EMPTY.calls, h)) && Excess(EMPTY.calls, h) <= cap
    {
      assert Weights(EMPTY.calls, h) == [] && Spends(EMPTY.calls, h) == [] && Overruns(EMPTY.calls, h) == [];
    }
  }

  /** In every interleaving, with replicas that die before settling, the tally of an hour is exactly
      its outstanding reservations plus what its settled calls used. */
  lemma TallyIsExact(steps: seq<Step>, cap: nat, h: Hour)
    requires Possible(EMPTY, steps, cap)
    ensures var s := After(EMPTY, steps, cap);
            Used(s, h) == Sum(Weights(s.calls, h))
  {
    EmptyInv(cap);
    RunKeepsInv(EMPTY, steps, cap);
  }

  /** ... and what was admitted in an hour, held or really used, exceeds the cap by no more than
      the admitted calls used beyond their own estimates. */
  lemma CapHolds(steps: seq<Step>, cap: nat, h: Hour)
    requires Possible(EMPTY, steps, cap)
    ensures var s := After(EMPTY, steps, cap);
            Sum(Spends(s.calls, h)) <= cap + Sum(Overruns(s.calls, h))
  {
    EmptyInv(cap);
    RunKeepsInv(EMPTY, steps, cap);
    assert Excess(After(EMPTY, steps, cap).calls, h) <= cap;
  }

  /** The floor at 0 and the ignored negative first row are never what decides a change. */
  lemma FloorNeverDecides(steps: seq<Step>, st: Step, cap: nat)
    requires Possible(EMPTY, steps, cap) && Enabled(After(EMPTY, steps, cap), st) && !st.Reserve?
    ensures var s := After(EMPTY, steps, cap);
            var c := s.calls[st.i];
            var delta := if st.Reconcile? then st.actual - c.estimate else 0 - c.estimate;
            Used(s, c.hour) + delta >= 0 && Used(Next(s, st, cap), c.hour) == Used(s, c.hour) + delta
  {
    EmptyInv(cap);
    RunKeepsInv(EMPTY, steps, cap);
    FloorUnused(After(EMPTY, steps, cap), st.i, cap);
  }

  // ---------------------------------------------------------------- the code that changes the tally

  /** The shared table, with the calls it has served as history. */
  class TallyTable {
    const cap: nat
    var rows: map<Hour, nat>
    ghost var calls: seq<Call>

    ghost function Now(): State
      reads this
    {
      State(rows, calls)
    }

    constructor (cap: nat)
      ensures this.cap == cap && Now() == EMPTY
    {
      this.cap, rows, calls := cap, map[], [];
    }

    /** One atomic upsert; returns the new total. */
    method AddTo(h: Hour, delta: int) returns (total: nat)
      modifies this`rows
      ensures rows == Add(old(rows), h, delta) && h in rows && total == rows[h]
      // the row moves by the delta, to no less than 0, and no other row moves
      ensures rows.Keys == old(rows).Keys + {h} && forall g :: g in rows && g != h ==> rows[g] == old(rows)[g]
      ensures var used := if h in old(rows) then old(rows)[h] else 0;
              if used + delta >= 0 then total == used + delta else total == 0
    {
      if h in rows {
        rows := rows[h := Max(rows[h] + delta, 0)];
      } else {
        rows := rows[h := Max(delta, 0)];
      }
      total := rows[h];
    }

    /** Reserve, and when the new total is over the cap give the estimate back. */
    method ReserveTokens(h: Hour, estimate: nat) returns (admitted: bool)
      requires Inv(Now(), cap)
      modifies this
      ensures Inv(Now(), cap) && |calls| == |old(calls)| + 1
      ensures admitted <==> Used(old(Now()), h) + estimate <= cap
      ensures admitted ==> Now() == Next(old(Now()), Reserve(h, estimate), cap) && calls == old(calls) + [Held(h, estimate)]
      ensures !admitted ==> calls == old(calls) + [Refused] && forall g :: Used(Now(), g) == Used(old(Now()), g)
    {
      hide Inv;
      ghost var s := Now();
      ReserveKeepsInv(s, h, estimate, cap);
      var total := AddTo(h, estimate);
      calls := calls + [if total > cap then Refusing(h, estimate) else Held(h, estimate)];
      admitted := total <= cap;
      if !admitted {
        ghost var mid := Now();
        SettleKeepsInv(mid, GiveBack(|s.calls|), cap);
        FloorUnused(mid, |s.calls|, cap);
        var _ := AddTo(h, 0 - estimate);
        calls := calls[|s.calls| := Refused];
      }
    }

    /** The capped client: reserve, call, then settle to what the provider reports, or release the
        whole hold when it fails. */
    method Complete(h: Hour, estimate: nat, outcome: Option<nat>) returns (admitted: bool)
      requires Inv(Now(), cap)
      modifies this
      ensures Inv(Now(), cap)
      ensures admitted <==> Used(old(Now()), h) + estimate <= cap
      ensures forall g :: Used(Now(), g) ==
                Used(old(Now()), g) + (if admitted && outcome.Some? && g == h then outcome.value else 0)
    {
      hide Inv;
      ghost var s := Now();
      admitted := ReserveTokens(h, estimate);
      if admitted {
        ghost var i := |s.calls|;
        FloorUnused(Now(), i, cap);
        ghost var st := if outcome.Some? then Reconcile(i, outcome.value) else Release(i);
        SettleKeepsInv(Now(), st, cap);
        var _ := AddTo(h, (if outcome.Some? then outcome.value else 0) - estimate);
        calls := calls[i := if outcome.Some? then Settled(h, estimate, outcome.value) else Released];
      }
    }
  }
}
