/** Keyset pagination of the public catalog: each page asks for the rows after the last one seen.
    Names are the normalized (lower-cased) ones, compared by code point. */
module Pagination {
  import opened Prelude
  import opened Ordering
  import opened Cursor

  /** A matching row: its identity, its normalized name and its match rank. */
  datatype Row = Row(id: int, name: string, rank: int)

  datatype Order = ByName | ById | ByRank

  function PositionOf(o: Order, r: Row): seq<Atom> {
    match o
    case ByName => [Text(r.name), Number(r.id)]
    case ById => [Number(r.id)]
    case ByRank => [Number(r.rank), Text(r.name), Number(r.id)]
  }

  function PositionSize(o: Order): nat {
    match o case ByName => 2 case ById => 1 case ByRank => 3
  }

  /** The types each endpoint requires of a decoded position. */
  predicate WellTyped(o: Order, p: seq<Atom>) {
    && |p| == PositionSize(o)
    && match o
       case ByName => p[0].Text? && p[1].Number?
       case ById => p[0].Number?
       case ByRank => p[0].Number? && p[1].Text? && p[2].Number?
  }

  /** The continuation condition of each query. */
  predicate Beyond(o: Order, r: Row, p: seq<Atom>)
    requires WellTyped(o, p)
  {
    match o
    case ByName => TextLess(p[0].text, r.name) || (r.name == p[0].text && r.id > p[1].number)
    case ById => r.id > p[0].number
    case ByRank =>
      || r.rank > p[0].number
      || (r.rank == p[0].number && TextLess(p[1].text, r.name))
      || (r.rank == p[0].number && r.name == p[1].text && r.id > p[2].number)
  }

  /** `a` comes before `b`. */
  predicate Before(o: Order, a: Row, b: Row) {
    Beyond(o, b, PositionOf(o, a))
  }

  lemma BeforeIsStrict(o: Order, a: Row, b: Row)
    ensures !Before(o, a, a)
    ensures !(Before(o, a, b) && Before(o, b, a))
    ensures a.id != b.id ==> Before(o, a, b) || Before(o, b, a)
  {
    TextLessTotal(a.name, b.name);
    TextLessTotal(a.name, a.name);
  }

  /** What lies beyond something beyond a position is beyond that position. */
  lemma BeyondTransitive(o: Order, p: seq<Atom>, b: Row, c: Row)
    requires WellTyped(o, p) && Beyond(o, b, p) && Before(o, b, c)
    ensures Beyond(o, c, p)
  {
    var name := match o case ByName => p[0].text case ById => "" case ByRank => p[1].text;
    if TextLess(name, b.name) && TextLess(b.name, c.name) {
      TextLessTransitive(name, b.name, c.name);
    }
  }

  /** The order each listing is sorted in: by name and identity, by identity, or by rank, name and identity. */
  predicate SortsBefore(o: Order, a: Row, b: Row) {
    match o
    case ById => a.id < b.id
    case ByName => if a.name == b.name then a.id < b.id else TextLess(a.name, b.name)
    case ByRank =>
      if a.rank != b.rank then a.rank < b.rank
      else if a.name != b.name then TextLess(a.name, b.name)
      else a.id < b.id
  }

  /** The continuation condition of each listing selects exactly what its order puts later. */
  lemma ConditionAgreesWithOrder(o: Order, a: Row, b: Row)
    ensures Beyond(o, b, PositionOf(o, a)) <==> SortsBefore(o, a, b)
  {
    TextLessTotal(a.name, b.name);
    TextLessTotal(a.name, a.name);
  }

  /** A table holds one row per identity. */
  ghost predicate Keyed(rows: set<Row>) {
    forall a, b :: a in rows && b in rows && a.id == b.id ==> a == b
  }

  /** Where a page starts: at the beginning, or after a position. */
  type Start = Option<seq<Atom>>

  predicate Valid(o: Order, from: Start) {
    from.Some? ==> WellTyped(o, from.value)
  }

  /** After a row. */
  function AfterRow(o: Order, r: Row): (from: Start)
    ensures Valid(o, from)
  {
    Some(PositionOf(o, r))
  }

  predicate Follows(o: Order, r: Row, from: Start)
    requires Valid(o, from)
  {
    from.None? || Beyond(o, r, from.value)
  }

  ghost function Rest(o: Order, rows: set<Row>, from: Start): set<Row>
    requires Valid(o, from)
  {
    set r | r in rows && Follows(o, r, from)
  }

  ghost predicate IsFirst(o: Order, r: Row, rows: set<Row>) {
    r in rows && forall x :: x in rows && x != r ==> Before(o, r, x)
  }

  lemma {:induction false} FirstExists(o: Order, rows: set<Row>)
    requires Keyed(rows) && rows != {}
    ensures exists f :: IsFirst(o, f, rows)
    decreases rows
  {
    hide Beyond;
    var r :| r in rows;
    var others := rows - {r};
    assert rows == others + {r};
    if others == {} {
      assert IsFirst(o, r, rows);
    } else {
      FirstExists(o, others);
      var f :| IsFirst(o, f, others);
      BeforeIsStrict(o, r, f);
      if Before(o, r, f) {
        forall x | x in others && x != f
          ensures Before(o, r, x)
        {
          BeyondTransitive(o, PositionOf(o, r), f, x);
        }
        assert IsFirst(o, r, rows);
      } else {
        assert IsFirst(o, f, rows);
      }
    }
  }

  ghost function First(o: Order, rows: set<Row>): (f: Row)
    requires Keyed(rows) && rows != {}
    ensures IsFirst(o, f, rows)
  {
    FirstExists(o, rows);
    var f :| IsFirst(o, f, rows);
    f
  }

  /** What one sorted query returns: the matching rows after a starting point, in order. */
  ghost function Listing(o: Order, rows: set<Row>, from: Start): seq<Row>
    requires Keyed(rows) && Valid(o, from)
    decreases |Rest(o, rows, from)|
  {
    var rest := Rest(o, rows, from);
    if rest == {} then []
    else
      var f := First(o, rest);
      RestShrinks(o, rows, from, f);
      [f] + Listing(o, rows, AfterRow(o, f))
  }

  lemma RestShrinks(o: Order, rows: set<Row>, from: Start, f: Row)
    requires Keyed(rows) && Valid(o, from) && IsFirst(o, f, Rest(o, rows, from))
    ensures Rest(o, rows, AfterRow(o, f)) == Rest(o, rows, from) - {f}
    ensures |Rest(o, rows, AfterRow(o, f))| < |Rest(o, rows, from)|
  {
    hide Beyond;
    var rest, after := Rest(o, rows, from), Rest(o, rows, AfterRow(o, f));
    forall r
      ensures r in after <==> r in rest - {f}
    {
      BeforeIsStrict(o, f, f);
      if r in after && from.Some? {
        BeyondTransitive(o, from.value, f, r);
      }
    }
    assert after == rest - {f};
  }

  lemma ListingUnfolds(o: Order, rows: set<Row>, from: Start)
    requires Keyed(rows) && Valid(o, from)
    ensures var rest := Rest(o, rows, from);
            var l := Listing(o, rows, from);
            if rest == {} then l == []
            else
              var f := First(o, rest);
              l == [f] + Listing(o, rows, AfterRow(o, f)) && Rest(o, rows, AfterRow(o, f)) == rest - {f}
              && |Rest(o, rows, AfterRow(o, f))| < |rest|
  {
    hide Beyond;
    if Rest(o, rows, from) != {} {
      RestShrinks(o, rows, from, First(o, Rest(o, rows, from)));
    }
  }

  /** One sorted query lists exactly the rows after its starting point, in strictly rising order. */
  lemma {:induction false} ListingIsSortedAndComplete(o: Order, rows: set<Row>, from: Start)
    requires Keyed(rows) && Valid(o, from)
    ensures var l := Listing(o, rows, from);
            && (forall r :: r in l <==> r in rows && Follows(o, r, from))
            && (forall i, j :: 0 <= i < j < |l| ==> Before(o, l[i], l[j]))
    decreases |Rest(o, rows, from)|
  {
    hide Beyond, Listing;
    var rest := Rest(o, rows, from);
    ListingUnfolds(o, rows, from);
    assert forall r :: r in rest <==> r in rows && Follows(o, r, from);
    if rest != {} {
      var f := First(o, rest);
      ListingIsSortedAndComplete(o, rows, AfterRow(o, f));
      FirstThenRest(o, f, Listing(o, rows, AfterRow(o, f)), rest);
    }
  }

  /** One sorted query is sorted, by the order of its kind. */
  lemma ListingIsInOrder(o: Order, rows: set<Row>, from: Start, i: nat, j: nat)
    requires Keyed(rows) && Valid(o, from) && i < j < |Listing(o, rows, from)|
    ensures SortsBefore(o, Listing(o, rows, from)[i], Listing(o, rows, from)[j])
  {
    hide Beyond, SortsBefore;
    ListingIsSortedAndComplete(o, rows, from);
    var l := Listing(o, rows, from);
    ConditionAgreesWithOrder(o, l[i], l[j]);
  }

  lemma FirstThenRest(o: Order, f: Row, tail: seq<Row>, rest: set<Row>)
    requires IsFirst(o, f, rest)
    requires forall r :: r in tail <==> r in rest - {f}
    requires forall i, j :: 0 <= i < j < |tail| ==> Before(o, tail[i], tail[j])
    ensures forall r :: r in [f] + tail <==> r in rest
    ensures forall i, j :: 0 <= i < j < |[f] + tail| ==> Before(o, ([f] + tail)[i], ([f] + tail)[j])
  {
    hide Before;
    var l := [f] + tail;
    forall i, j | 0 <= i < j < |l|
      ensures Before(o, l[i], l[j])
    {
      assert l[j] == tail[j - 1] && tail[j - 1] in tail;
      if i > 0 {
        assert l[i] == tail[i - 1];
      }
    }
  }

  // ---------------------------------------------------------------- pages

  /** What an endpoint continues from: the decoded position, if it has the required types. */
  function Resume(c: Codec, q: Query, o: Order, token: string): (p: Start)
    ensures Valid(o, p)
  {
    var p := DecodeCursor(c, q, token, PositionSize(o));
    if p.None? || !WellTyped(o, p.value) then None else p
  }

  /** The start a request asks for, None when its cursor is refused; no cursor, or an empty one, is
      the beginning. */
  function StartOf(c: Codec, q: Query, o: Order, cursor: Option<string>): (s: Option<Start>)
    ensures s.Some? ==> Valid(o, s.value)
  {
    if cursor.None? || cursor.value == "" then Some(None)
    else
      var p := Resume(c, q, o, cursor.value);
      if p.None? then None else Some(p)
  }

  /** A refused cursor; or at most `limit` rows, with a cursor when there is more. */
  datatype Reply = BadCursor | Page(items: seq<Row>, next: Option<string>)

  /** Ask for one row more than the limit, drop it, and encode the position of the last row kept. */
  ghost function PageFrom(c: Codec, q: Query, o: Order, rows: set<Row>, from: Start, limit: nat): (p: Reply)
    requires Keyed(rows) && Valid(o, from) && limit >= 1
    ensures p.Page? && |p.items| <= limit && (p.next.Some? ==> |p.items| == limit)
  {
    var l := Listing(o, rows, from);
    if |l| > limit then Page(l[..limit], Some(EncodeCursor(c, q, PositionOf(o, l[limit - 1])))) else Page(l, None)
  }

  /** One request. */
  ghost function Serve(c: Codec, q: Query, o: Order, rows: set<Row>, cursor: Option<string>, limit: nat): (p: Reply)
    requires Keyed(rows) && limit >= 1
    ensures p.Page? && p.next.Some? ==> |p.items| == limit
  {
    var s := StartOf(c, q, o, cursor);
    if s.None? then BadCursor else PageFrom(c, q, o, rows, s.value, limit)
  }

  /** The cursor of a row is one the endpoint accepts. */
  predicate Fits(q: Query, o: Order, r: Row) {
    PayloadSize(q, PositionOf(o, r)) <= PAYLOAD_LIMIT
  }

  /** The cursor of a page resumes after its last row, exactly when the row's position is small enough. */
  lemma CursorResumes(c: Codec, q: Query, o: Order, r: Row)
    requires Json(c, q)
    ensures StartOf(c, q, o, Some(EncodeCursor(c, q, PositionOf(o, r))))
         == if Fits(q, o, r) then Some(AfterRow(o, r)) else None
  {
    CursorDecodes(c, q, PositionOf(o, r));
  }

  /** Restarting after the n-th listed row continues the listing there. */
  lemma {:induction false} ListingContinues(o: Order, rows: set<Row>, from: Start, n: nat)
    requires Keyed(rows) && Valid(o, from) && 1 <= n <= |Listing(o, rows, from)|
    ensures var l := Listing(o, rows, from); Listing(o, rows, AfterRow(o, l[n - 1])) == l[n..]
    decreases n
  {
    hide Beyond;
    var rest := Rest(o, rows, from);
    var f := First(o, rest);
    var l := Listing(o, rows, from);
    assert l[0] == f && l[1..] == Listing(o, rows, AfterRow(o, f));
    if n > 1 {
      ListingContinues(o, rows, AfterRow(o, f), n - 1);
      assert l[1..][n - 2] == l[n - 1] && l[1..][n - 1..] == l[n..];
    }
  }

  // ---------------------------------------------------------------- following the cursors

  /** What a client has seen, and whether the last page it read was the last one there is. */
  datatype Trip = Trip(items: seq<Row>, finished: bool)

  /** How much there is to read from a cursor. */
  ghost function Left(c: Codec, q: Query, o: Order, rows: set<Row>, cursor: Option<string>): nat
    requires Keyed(rows)
  {
    var s := StartOf(c, q, o, cursor);
    if s.None? then 0 else 1 + |Listing(o, rows, s.value)|
  }

  lemma NextIsLess(c: Codec, q: Query, o: Order, rows: set<Row>, cursor: Option<string>, limit: nat)
    requires Keyed(rows) && limit >= 1 && Json(c, q)
    requires var p := Serve(c, q, o, rows, cursor, limit); p.Page? && p.next.Some?
    ensures Left(c, q, o, rows, Serve(c, q, o, rows, cursor, limit).next) < Left(c, q, o, rows, cursor)
  {
    hide Json, StartOf, Listing;
    ServeFirst(c, q, o, rows, cursor, limit);
  }

  /** Follow the cursors of an unchanged table until there are none, or one is refused. */
  ghost function Traverse(c: Codec, q: Query, o: Order, rows: set<Row>, cursor: Option<string>, limit: nat): Trip
    requires Keyed(rows) && limit >= 1 && Json(c, q)
    decreases Left(c, q, o, rows, cursor)
  {
    var p := Serve(c, q, o, rows, cursor, limit);
    if p.BadCursor? then Trip([], false)
    else if p.next.None? then Trip(p.items, true)
    else
      NextIsLess(c, q, o, rows, cursor, limit);
      var t := Traverse(c, q, o, rows, p.next, limit);
      Trip(p.items + t.items, t.finished)
  }

  /** How far a listing is read: to its end, or to the first page end whose cursor is refused. */
  function Reach(q: Query, o: Order, l: seq<Row>, limit: nat): (n: nat)
    requires limit >= 1
    ensures n <= |l|
    decreases |l|
  {
    if |l| <= limit then |l|
    else if !Fits(q, o, l[limit - 1]) then limit
    else limit + Reach(q, o, l[limit..], limit)
  }

  lemma {:induction false} TraverseReaches(c: Codec, q: Query, o: Order, rows: set<Row>, cursor: Option<string>, limit: nat)
    requires Keyed(rows) && limit >= 1 && Json(c, q) && StartOf(c, q, o, cursor).Some?
    ensures var l := Listing(o, rows, StartOf(c, q, o, cursor).value);
            var n := Reach(q, o, l, limit);
            Traverse(c, q, o, rows, cursor, limit) == Trip(l[..n], n == |l|)
    decreases Left(c, q, o, rows, cursor)
  {
    hide Json, StartOf, Listing, Serve, Left, Reach;
    var from := StartOf(c, q, o, cursor).value;
    var l := Listing(o, rows, from);
    ServeFirst(c, q, o, rows, cursor, limit);
    ReachUnfolds(q, o, l, limit);
    if |l| > limit {
      var next := Serve(c, q, o, rows, cursor, limit).next;
      NextIsLess(c, q, o, rows, cursor, limit);
      if Fits(q, o, l[limit - 1]) {
        TraverseReaches(c, q, o, rows, next, limit);
        var n := Reach(q, o, l[limit..], limit);
        assert l[..limit + n] == l[..limit] + l[limit..][..n];
      } else {
        RefusedTrip(c, q, o, rows, next, limit);
        assert l[..limit] + [] == l[..limit];
      }
    }
  }

  /** The first page from a start, and where its cursor leads. */
  lemma ServeFirst(c: Codec, q: Query, o: Order, rows: set<Row>, cursor: Option<string>, limit: nat)
    requires Keyed(rows) && limit >= 1 && Json(c, q) && StartOf(c, q, o, cursor).Some?
    ensures var l := Listing(o, rows, StartOf(c, q, o, cursor).value);
            var p := Serve(c, q, o, rows, cursor, limit);
            && p.Page? && (p.next.Some? <==> |l| > limit) && p.items == (if |l| > limit then l[..limit] else l)
            && (|l| > limit ==>
                  var s := StartOf(c, q, o, p.next);
                  (s.Some? <==> Fits(q, o, l[limit - 1])) && (s.Some? ==> Listing(o, rows, s.value) == l[limit..]))
  {
    hide Json, StartOf, Listing, EncodeCursor, Fits;
    var from := StartOf(c, q, o, cursor).value;
    var l := Listing(o, rows, from);
    if |l| > limit {
      ListingContinues(o, rows, from, limit);
      CursorResumes(c, q, o, l[limit - 1]);
    }
  }

  lemma ReachUnfolds(q: Query, o: Order, l: seq<Row>, limit: nat)
    requires limit >= 1
    ensures Reach(q, o, l, limit) == if |l| <= limit then |l|
                                     else if !Fits(q, o, l[limit - 1]) then limit
                                     else limit + Reach(q, o, l[limit..], limit)
  {
  }

  lemma RefusedTrip(c: Codec, q: Query, o: Order, rows: set<Row>, cursor: Option<string>, limit: nat)
    requires Keyed(rows) && limit >= 1 && Json(c, q) && StartOf(c, q, o, cursor).None?
    ensures Traverse(c, q, o, rows, cursor, limit) == Trip([], false)
  {
  }

  predicate Multiple(x: nat, m: nat)
    requires m >= 1
  {
    x == 0 || (x >= m && Multiple(x - m, m))
  }

  /** The i-th of n listed rows ends a page that is not the last. */
  predicate EndsPage(i: nat, n: nat, limit: nat)
    requires limit >= 1
  {
    i + 1 < n && Multiple(i + 1, limit)
  }

  lemma FirstEnd(i: nat, n: nat, limit: nat)
    requires i < limit
    ensures EndsPage(i, n, limit) <==> i == limit - 1 && i + 1 < n
  {
    assert Multiple(limit - limit, limit);
  }

  lemma LaterEnd(i: nat, n: nat, limit: nat)
    requires 1 <= limit <= i < n
    ensures EndsPage(i, n, limit) <==> EndsPage(i - limit, n - limit, limit)
  {
  }

  /** Every page end among the first n rows has a cursor that is accepted. */
  predicate Clear(q: Query, o: Order, l: seq<Row>, limit: nat, n: nat)
    requires limit >= 1 && n <= |l|
  {
    forall i: nat :: i < n && EndsPage(i, |l|, limit) ==> Fits(q, o, l[i])
  }

  lemma ClearLater(q: Query, o: Order, l: seq<Row>, limit: nat, n: nat)
    requires 1 <= limit < |l| && n <= |l[limit..]|
    requires Fits(q, o, l[limit - 1]) && Clear(q, o, l[limit..], limit, n)
    ensures Clear(q, o, l, limit, limit + n)
  {
    hide Fits, EndsPage;
    forall i: nat | i < limit + n && EndsPage(i, |l|, limit)
      ensures Fits(q, o, l[i])
    {
      if i < limit {
        FirstEnd(i, |l|, limit);
      } else {
        LaterEnd(i, |l|, limit);
        assert l[limit..][i - limit] == l[i];
      }
    }
  }

  /** Reading stops at the first page end whose cursor is refused, and nowhere else. */
  lemma {:induction false} ReachIsFirstRefusal(q: Query, o: Order, l: seq<Row>, limit: nat)
    requires limit >= 1
    ensures var n := Reach(q, o, l, limit);
            if n == |l| then Clear(q, o, l, limit, n)
            else n >= 1 && EndsPage(n - 1, |l|, limit) && !Fits(q, o, l[n - 1]) && Clear(q, o, l, limit, n - 1)
    decreases |l|
  {
    hide Fits, EndsPage, Clear;
    var n := Reach(q, o, l, limit);
    if |l| <= limit {
      ClearFirst(q, o, l, limit, |l|);
    } else if !Fits(q, o, l[limit - 1]) {
      FirstEnd(limit - 1, |l|, limit);
      ClearFirst(q, o, l, limit, limit - 1);
    } else {
      ReachIsFirstRefusal(q, o, l[limit..], limit);
      if n == |l| {
        ClearLater(q, o, l, limit, n - limit);
      } else {
        LaterEnd(n - 1, |l|, limit);
        ClearLater(q, o, l, limit, n - limit - 1);
      }
    }
  }

  lemma ClearFirst(q: Query, o: Order, l: seq<Row>, limit: nat, n: nat)
    requires limit >= 1 && n <= |l| && (n < limit || n == |l| <= limit)
    ensures Clear(q, o, l, limit, n)
  {
    hide Fits, EndsPage;
    forall i: nat | i < n
      ensures !EndsPage(i, |l|, limit)
    {
      FirstEnd(i, |l|, limit);
    }
  }

  /** Following the cursors of an unchanged table always ends, having read the beginning of what one
      sorted query returns. It returns all of it, every matching row once and in order, if and only if
      the position of every row that ends a page before the last has a payload of at most 1536 bytes. */
  lemma CursorsReachEverything(c: Codec, q: Query, o: Order, rows: set<Row>, limit: nat)
    requires Keyed(rows) && limit >= 1 && Json(c, q)
    ensures var l := Listing(o, rows, None);
            var t := Traverse(c, q, o, rows, None, limit);
            && t.items <= l && (t.finished <==> t.items == l)
            && (t.items == l <==> forall i: nat :: EndsPage(i, |l|, limit) ==> Fits(q, o, l[i]))
            && (t.items != l ==> t.items != [] && !Fits(q, o, t.items[|t.items| - 1]))
  {
    hide Fits, Json, Listing, Traverse, Reach, Multiple;
    var l := Listing(o, rows, None);
    TraverseReaches(c, q, o, rows, None, limit);
    ReachIsFirstRefusal(q, o, l, limit);
  }

  /** A database identity or match rank. */
  predicate Wide(n: int) {
    -0x8000_0000_0000_0000 <= n < 0x8000_0000_0000_0000
  }

  lemma SizeOfPosition(o: Order, r: Row)
    ensures var id, name, rank := NumberSize(r.id), 2 + TextSize(r.name), NumberSize(r.rank);
            ListSize(PositionOf(o, r)) == match o case ByName => name + 1 + id
                                                  case ById => id
                                                  case ByRank => rank + 1 + name + 1 + id
  {
    var p, id := PositionOf(o, r), [Number(r.id)];
    assert ListSize(id) == AtomSize(id[0]);
    if o == ByName {
      assert p[1..] == id;
    } else if o == ByRank {
      var named := [Text(r.name), Number(r.id)];
      assert p[1..] == named && named[1..] == id;
      assert ListSize(named) == AtomSize(named[0]) + 1 + ListSize(id);
    }
  }

  /** Listings by identity never stop early, nor do those by name when no name that ends a page needs
      more than 1300 bytes. */
  lemma SmallPositionsFit(q: Query, o: Order, r: Row)
    requires TextSize(q.resource) + TextSize(q.order) <= 64 && Wide(r.id) && Wide(r.rank)
    requires o == ById || TextSize(r.name) <= 1300
    ensures Fits(q, o, r)
  {
    WideNumber(r.id);
    WideNumber(r.rank);
    SizeOfPosition(o, r);
  }

  /** Two rows with the same long name, one on each page: the first page is served, its cursor is not,
      and the second row is never seen. */
  lemma LongNamesStopEarly(c: Codec, q: Query, o: Order, name: string)
    requires Json(c, q) && o != ById && TextSize(name) >= 1412
    ensures var a, b := Row(1, name, 0), Row(2, name, 0);
            && Listing(o, {a, b}, None) == [a, b]
            && Traverse(c, q, o, {a, b}, None, 1) == Trip([a], false)
  {
    var a, b := Row(1, name, 0), Row(2, name, 0);
    TwoListed(o, a, b);
    SizeOfPosition(o, a);
    hide Json, ListSize, TextSize, Beyond;
    assert !Fits(q, o, a);
    TraverseReaches(c, q, o, {a, b}, None, 1);
    assert [a, b][..1] == [a];
  }

  lemma FirstIs(o: Order, rows: set<Row>, f: Row)
    requires Keyed(rows) && IsFirst(o, f, rows)
    ensures First(o, rows) == f
  {
    hide Beyond;
    BeforeIsStrict(o, f, First(o, rows));
  }

  lemma TwoListed(o: Order, a: Row, b: Row)
    requires a.id != b.id && Before(o, a, b)
    ensures Keyed({a, b}) && Listing(o, {a, b}, None) == [a, b]
  {
    hide Beyond;
    var rows := {a, b};
    BeforeIsStrict(o, a, b);
    BeforeIsStrict(o, a, a);
    BeforeIsStrict(o, b, b);
    assert Rest(o, rows, None) == rows && IsFirst(o, a, rows);
    FirstIs(o, rows, a);
    assert Rest(o, rows, AfterRow(o, a)) == {b} && IsFirst(o, b, {b});
    FirstIs(o, {b}, b);
    assert Rest(o, rows, AfterRow(o, b)) == {};
    assert Listing(o, rows, AfterRow(o, b)) == [];
    assert Listing(o, rows, AfterRow(o, a)) == [b];
  }

  /** A name of 240 to 255 characters, none of them ASCII, is that long. */
  lemma ForeignNameIsLong(name: string)
    requires 240 <= |name| <= 255 && forall i :: 0 <= i < |name| ==> name[i] > '~'
    ensures TextSize(name) >= 1412
  {
    TextSizeBounds(name, 6, 12);
  }

  // ---------------------------------------------------------------- changing tables

  datatype Ending = Finished | Refused | Ongoing

  /** What a client sees of a changing table: the rows, the rows whose cursors it was given, and how
      it ended. */
  datatype Visit = Visit(items: seq<Row>, ends: seq<Row>, ending: Ending)

  ghost predicate AllKeyed(tables: seq<set<Row>>) {
    forall i :: 0 <= i < |tables| ==> Keyed(tables[i])
  }

  /** Follow the cursors where the i-th request is served from the i-th table. */
  ghost function Visits(c: Codec, q: Query, o: Order, tables: seq<set<Row>>, cursor: Option<string>, limit: nat): Visit
    requires limit >= 1 && AllKeyed(tables)
    decreases |tables|
  {
    if tables == [] then Visit([], [], Ongoing)
    else
      var p := Serve(c, q, o, tables[0], cursor, limit);
      if p.BadCursor? then Visit([], [], Refused)
      else if p.next.None? then Visit(p.items, [], Finished)
      else
        var v := Visits(c, q, o, tables[1..], p.next, limit);
        Visit(p.items + v.items, [p.items[limit - 1]] + v.ends, v.ending)
  }

  /** The rows of a page, and of what follows it: everything up to its last row is on it. */
  lemma PageCovers(c: Codec, q: Query, o: Order, rows: set<Row>, from: Start, limit: nat, r: Row)
    requires Keyed(rows) && Valid(o, from) && limit >= 1 && r in rows && Follows(o, r, from)
    ensures var p := PageFrom(c, q, o, rows, from, limit);
            r in p.items || (p.next.Some? && Before(o, p.items[limit - 1], r))
  {
    hide Beyond, EncodeCursor, Listing;
    ListingIsSortedAndComplete(o, rows, from);
    var l := Listing(o, rows, from);
    var p := PageFrom(c, q, o, rows, from, limit);
    var i :| 0 <= i < |l| && l[i] == r;
    if i < |p.items| {
      assert p.items[i] == r;
    }
  }

  lemma PageRises(c: Codec, q: Query, o: Order, rows: set<Row>, from: Start, limit: nat)
    requires Keyed(rows) && Valid(o, from) && limit >= 1
    ensures Rises(o, PageFrom(c, q, o, rows, from, limit).items, from)
  {
    hide Beyond, EncodeCursor, Listing;
    ListingIsSortedAndComplete(o, rows, from);
    var l := Listing(o, rows, from);
    forall i | 0 <= i < |l|
      ensures Follows(o, l[i], from)
    {
      assert l[i] in l;
    }
  }

  /** Strictly rising rows, all after the starting point. */
  ghost predicate Rises(o: Order, v: seq<Row>, from: Start)
    requires Valid(o, from)
  {
    && (forall i :: 0 <= i < |v| ==> Follows(o, v[i], from))
    && (forall i, j :: 0 <= i < j < |v| ==> Before(o, v[i], v[j]))
  }

  /** Rising rows followed by rows rising from their last one. */
  lemma RisesOn(o: Order, a: seq<Row>, b: seq<Row>, from: Start)
    requires Valid(o, from) && a != [] && Rises(o, a, from) && Rises(o, b, AfterRow(o, a[|a| - 1]))
    ensures Rises(o, a + b, from)
  {
    hide Beyond;
    var v, last := a + b, a[|a| - 1];
    forall i, j | 0 <= i < |a| <= j < |v|
      ensures Before(o, v[i], v[j])
    {
      assert Follows(o, b[j - |a|], AfterRow(o, last));
      if i < |a| - 1 {
        BeyondTransitive(o, PositionOf(o, v[i]), last, v[j]);
      }
    }
    forall j | |a| <= j < |v|
      ensures Follows(o, v[j], from)
    {
      assert Follows(o, b[j - |a|], AfterRow(o, last)) && Follows(o, last, from);
      if from.Some? {
        BeyondTransitive(o, from.value, last, v[j]);
      }
    }
  }

  lemma {:induction false} VisitsRise(c: Codec, q: Query, o: Order, tables: seq<set<Row>>, cursor: Option<string>, limit: nat)
    requires limit >= 1 && AllKeyed(tables) && Json(c, q) && StartOf(c, q, o, cursor).Some?
    ensures Rises(o, Visits(c, q, o, tables, cursor, limit).items, StartOf(c, q, o, cursor).value)
    decreases |tables|
  {
    hide Beyond, Json, StartOf, EncodeCursor, Fits, Rises;
    var from := StartOf(c, q, o, cursor).value;
    if tables == [] {
      NoneRise(o, from);
    } else {
      var p := Serve(c, q, o, tables[0], cursor, limit);
      PageRises(c, q, o, tables[0], from, limit);
      if p.next.Some? {
        var last := p.items[limit - 1];
        NoneRise(o, AfterRow(o, last));
        CursorResumes(c, q, o, last);
        if Fits(q, o, last) {
          VisitsRise(c, q, o, tables[1..], p.next, limit);
        }
        RisesOn(o, p.items, Visits(c, q, o, tables[1..], p.next, limit).items, from);
      }
    }
  }

  lemma NoneRise(o: Order, from: Start)
    requires Valid(o, from)
    ensures Rises(o, [], from)
  {
  }

  lemma {:induction false} PresentIsVisited(c: Codec, q: Query, o: Order, tables: seq<set<Row>>, cursor: Option<string>,
                                            limit: nat, r: Row)
    requires limit >= 1 && AllKeyed(tables) && Json(c, q) && StartOf(c, q, o, cursor).Some?
    requires Follows(o, r, StartOf(c, q, o, cursor).value) && forall i :: 0 <= i < |tables| ==> r in tables[i]
    requires Visits(c, q, o, tables, cursor, limit).ending == Finished
    ensures r in Visits(c, q, o, tables, cursor, limit).items
    decreases |tables|
  {
    hide Beyond, Json, StartOf, EncodeCursor, Fits, Rises;
    var from := StartOf(c, q, o, cursor).value;
    var p := Serve(c, q, o, tables[0], cursor, limit);
    PageCovers(c, q, o, tables[0], from, limit, r);
    if p.next.Some? && r !in p.items {
      CursorResumes(c, q, o, p.items[limit - 1]);
      PresentIsVisited(c, q, o, tables[1..], p.next, limit, r);
    }
  }

  /** Cursors are used in the order they are given, and the first that does not fit ends the visit. */
  lemma {:induction false} RefusedAtLongPosition(c: Codec, q: Query, o: Order, tables: seq<set<Row>>, cursor: Option<string>,
                                                 limit: nat)
    requires limit >= 1 && AllKeyed(tables) && Json(c, q) && StartOf(c, q, o, cursor).Some?
    ensures var v := Visits(c, q, o, tables, cursor, limit);
            && |v.ends| <= |tables|
            && (v.ending == Refused <==> v.ends != [] && |v.ends| < |tables| && !Fits(q, o, v.ends[|v.ends| - 1]))
            && (forall i :: 0 <= i < |v.ends| - 1 ==> Fits(q, o, v.ends[i]))
            && (v.ending == Ongoing <==> |v.ends| == |tables|)
    decreases |tables|
  {
    hide Json, StartOf, EncodeCursor, Fits, Listing;
    if tables != [] {
      var p := Serve(c, q, o, tables[0], cursor, limit);
      if p.next.Some? {
        var last := p.items[limit - 1];
        CursorResumes(c, q, o, last);
        var v := Visits(c, q, o, tables[1..], p.next, limit);
        if Fits(q, o, last) {
          RefusedAtLongPosition(c, q, o, tables[1..], p.next, limit);
        } else if tables[1..] != [] {
          assert v == Visit([], [], Refused);
        }
      }
    }
  }

  /** While other rows are inserted, deleted or renamed between pages: no position is visited twice;
      the visit is refused exactly at a cursor whose position is too large; and if it finishes, a row
      that keeps its position throughout has been visited exactly once. */
  lemma StableRowsVisitedOnce(c: Codec, q: Query, o: Order, tables: seq<set<Row>>, limit: nat, r: Row)
    requires limit >= 1 && AllKeyed(tables) && Json(c, q)
    requires forall i :: 0 <= i < |tables| ==> r in tables[i]
    ensures var v := Visits(c, q, o, tables, None, limit);
            && (forall i, j :: 0 <= i < j < |v.items| ==> PositionOf(o, v.items[i]) != PositionOf(o, v.items[j]))
            && (v.ending == Refused <==> v.ends != [] && |v.ends| < |tables| && !Fits(q, o, v.ends[|v.ends| - 1]))
            && (v.ending == Finished ==> exists i :: 0 <= i < |v.items| && v.items[i] == r)
  {
    hide Json, EncodeCursor, Fits, Visits;
    VisitsRise(c, q, o, tables, None, limit);
    RefusedAtLongPosition(c, q, o, tables, None, limit);
    var v := Visits(c, q, o, tables, None, limit);
    forall i, j | 0 <= i < j < |v.items|
      ensures PositionOf(o, v.items[i]) != PositionOf(o, v.items[j])
    {
      BeforeIsStrict(o, v.items[i], v.items[i]);
    }
    if v.ending == Finished {
      PresentIsVisited(c, q, o, tables, None, limit, r);
    }
  }
}
