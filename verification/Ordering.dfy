/** Total orders, sorting, and the order of strings by code point. */
module Ordering {

  ghost predicate TotalOrder<T(!new)>(le: (T, T) -> bool) {
    && (forall a :: le(a, a))
    && (forall a, b :: le(a, b) || le(b, a))
    && (forall a, b :: le(a, b) && le(b, a) ==> a == b)
    && (forall a, b, c :: le(a, b) && le(b, c) ==> le(a, c))
  }

  ghost predicate SortedBy<T>(xs: seq<T>, le: (T, T) -> bool) {
    forall i, j :: 0 <= i < j < |xs| ==> le(xs[i], xs[j])
  }

  function Insert<T>(x: T, xs: seq<T>, le: (T, T) -> bool): seq<T> {
    if xs == [] || le(x, xs[0]) then [x] + xs else [xs[0]] + Insert(x, xs[1..], le)
  }

  function Sort<T>(xs: seq<T>, le: (T, T) -> bool): seq<T> {
    if xs == [] then [] else Insert(xs[0], Sort(xs[1..], le), le)
  }

  lemma {:induction false} InsertKeeps<T(!new)>(x: T, xs: seq<T>, le: (T, T) -> bool)
    requires TotalOrder(le) && SortedBy(xs, le)
    ensures SortedBy(Insert(x, xs, le), le)
    ensures multiset(Insert(x, xs, le)) == multiset{x} + multiset(xs)
  {
    hide TotalOrder, SortedBy;
    if xs == [] || le(x, xs[0]) {
      PutFirst(x, xs, le);
    } else {
      var rest := Insert(x, xs[1..], le);
      Split(xs, le);
      InsertKeeps(x, xs[1..], le);
      Either(x, xs[0], le);
      FirstIsLeast(x, xs, rest, le);
      Prepend(xs[0], rest, le);
      assert multiset(xs) == multiset([xs[0]] + xs[1..]);
    }
  }

  lemma Either<T(!new)>(a: T, b: T, le: (T, T) -> bool)
    requires TotalOrder(le) && !le(a, b)
    ensures le(b, a)
  {
  }

  lemma Split<T(!new)>(xs: seq<T>, le: (T, T) -> bool)
    requires xs != [] && SortedBy(xs, le)
    ensures SortedBy(xs[1..], le) && xs == [xs[0]] + xs[1..]
  {
  }

  lemma Prepend<T(!new)>(a: T, rest: seq<T>, le: (T, T) -> bool)
    requires SortedBy(rest, le) && forall j :: 0 <= j < |rest| ==> le(a, rest[j])
    ensures SortedBy([a] + rest, le)
  {
  }

  lemma PutFirst<T(!new)>(x: T, xs: seq<T>, le: (T, T) -> bool)
    requires TotalOrder(le) && SortedBy(xs, le) && (xs == [] || le(x, xs[0]))
    ensures SortedBy([x] + xs, le) && multiset([x] + xs) == multiset{x} + multiset(xs)
  {
    forall j | 0 <= j < |xs|
      ensures le(x, xs[j])
    {
      assert j > 0 ==> le(xs[0], xs[j]);
    }
    hide TotalOrder;
    Prepend(x, xs, le);
  }

  /** The first of a sorted sequence is least also among an inserted value that does not come before it. */
  lemma FirstIsLeast<T(!new)>(x: T, xs: seq<T>, rest: seq<T>, le: (T, T) -> bool)
    requires xs != [] && SortedBy(xs, le) && le(xs[0], x)
    requires multiset(rest) == multiset{x} + multiset(xs[1..])
    ensures forall j :: 0 <= j < |rest| ==> le(xs[0], rest[j])
  {
    forall j | 0 <= j < |rest|
      ensures le(xs[0], rest[j])
    {
      assert rest[j] in multiset(rest);
      if rest[j] != x {
        assert rest[j] in xs[1..];
      }
    }
  }

  lemma {:induction false} SortSorts<T(!new)>(xs: seq<T>, le: (T, T) -> bool)
    requires TotalOrder(le)
    ensures SortedBy(Sort(xs, le), le) && multiset(Sort(xs, le)) == multiset(xs)
    ensures |Sort(xs, le)| == |xs|
  {
    if xs != [] {
      SortSorts(xs[1..], le);
      InsertKeeps(xs[0], Sort(xs[1..], le), le);
      assert xs == [xs[0]] + xs[1..];
    }
    assert |multiset(Sort(xs, le))| == |multiset(xs)|;
  }

  /** A sorted arrangement is unique, so sorting does not depend on the order of its input. */
  lemma {:induction false} SortedUnique<T(!new)>(xs: seq<T>, ys: seq<T>, le: (T, T) -> bool)
    requires TotalOrder(le) && SortedBy(xs, le) && SortedBy(ys, le) && multiset(xs) == multiset(ys)
    ensures xs == ys
  {
    assert |multiset(xs)| == |multiset(ys)|;
    if xs != [] {
      FirstIsShared(xs, ys, le);
      SharedFirst(xs, ys);
      SortedUnique(xs[1..], ys[1..], le);
      assert xs == [xs[0]] + xs[1..] && ys == [ys[0]] + ys[1..];
    }
  }

  lemma FirstIsShared<T(!new)>(xs: seq<T>, ys: seq<T>, le: (T, T) -> bool)
    requires TotalOrder(le) && SortedBy(xs, le) && SortedBy(ys, le) && multiset(xs) == multiset(ys)
    requires xs != [] && ys != []
    ensures xs[0] == ys[0]
  {
    assert xs[0] in multiset(ys) && ys[0] in multiset(xs);
    assert le(xs[0], ys[0]) && le(ys[0], xs[0]);
  }

  lemma SharedFirst<T(!new)>(xs: seq<T>, ys: seq<T>)
    requires multiset(xs) == multiset(ys) && xs != [] && ys != [] && xs[0] == ys[0]
    ensures multiset(xs[1..]) == multiset(ys[1..])
  {
    assert xs == [xs[0]] + xs[1..] && ys == [ys[0]] + ys[1..];
    assert multiset(xs[1..]) == multiset(xs) - multiset{xs[0]};
    assert multiset(ys[1..]) == multiset(ys) - multiset{ys[0]};
  }

  lemma SortIgnoresOrder<T(!new)>(xs: seq<T>, ys: seq<T>, le: (T, T) -> bool)
    requires TotalOrder(le) && multiset(xs) == multiset(ys)
    ensures Sort(xs, le) == Sort(ys, le)
  {
    SortSorts(xs, le);
    SortSorts(ys, le);
    SortedUnique(Sort(xs, le), Sort(ys, le), le);
  }

  // ---------------------------------------------------------------- strings

  predicate TextLess(a: string, b: string) {
    b != "" && (a == "" || a[0] < b[0] || (a[0] == b[0] && TextLess(a[1..], b[1..])))
  }

  predicate TextLeq(a: string, b: string) {
    a == b || TextLess(a, b)
  }

  lemma {:induction false} TextLessTotal(a: string, b: string)
    ensures a == b || TextLess(a, b) || TextLess(b, a)
    ensures !(TextLess(a, b) && TextLess(b, a))
    ensures !TextLess(a, a)
  {
    if a != "" && b != "" {
      if a[0] == b[0] {
        TextLessTotal(a[1..], b[1..]);
        if a[1..] == b[1..] {
          assert a == [a[0]] + a[1..] && b == [b[0]] + b[1..];
        }
      }
      TextLessIrreflexive(a);
    } else if a != "" {
      TextLessIrreflexive(a);
    }
  }

  lemma {:induction false} TextLessIrreflexive(a: string)
    ensures !TextLess(a, a)
  {
    if a != "" {
      TextLessIrreflexive(a[1..]);
    }
  }

  lemma {:induction false} TextLessTransitive(a: string, b: string, c: string)
    requires TextLess(a, b) && TextLess(b, c)
    ensures TextLess(a, c)
  {
    if a != "" && a[0] == b[0] && b[0] == c[0] {
      TextLessTransitive(a[1..], b[1..], c[1..]);
    }
  }

  lemma TextOrder()
    ensures TotalOrder(TextLeq)
  {
    forall a: string, b: string
      ensures (TextLeq(a, b) || TextLeq(b, a)) && (TextLeq(a, b) && TextLeq(b, a) ==> a == b)
    {
      TextLessTotal(a, b);
    }
    forall a: string, b: string, c: string | TextLeq(a, b) && TextLeq(b, c)
      ensures TextLeq(a, c)
    {
      if a != b && b != c {
        TextLessTransitive(a, b, c);
      }
    }
  }

  /** The order of strings: one is less when it is a proper beginning of the other, or has the smaller
      character at the first place where they differ. */
  lemma {:induction false} TextLessMeans(a: string, b: string)
    ensures TextLess(a, b) <==>
              || (|a| < |b| && b[..|a|] == a)
              || (exists k :: 0 <= k < |a| && k < |b| && a[..k] == b[..k] && a[k] < b[k])
  {
    if a != "" && b != "" {
      if a[0] == b[0] {
        TextLessMeans(a[1..], b[1..]);
        assert a == [a[0]] + a[1..];
        if |a| < |b| {
          assert b[..|a|] == [b[0]] + b[1..][..|a[1..]|];
        }
        forall k | 0 <= k < |a[1..]| && k < |b[1..]|
          ensures a[1..][..k] == b[1..][..k] <==> a[..k + 1] == b[..k + 1]
        {
          SameBeginning(a, b, k);
        }
        LaterDifference(a, b);
      } else {
        FirstDifference(a, b);
      }
    }
  }

  lemma SameBeginning(a: string, b: string, k: nat)
    requires a != "" && b != "" && a[0] == b[0] && k < |a| && k < |b|
    ensures a[1..][..k] == b[1..][..k] <==> a[..k + 1] == b[..k + 1]
  {
    assert a[..k + 1] == [a[0]] + a[1..][..k] && b[..k + 1] == [b[0]] + b[1..][..k];
    assert a[..k + 1][1..] == a[1..][..k] && b[..k + 1][1..] == b[1..][..k];
  }

  /** Strings that begin differently are ordered by their first characters. */
  lemma FirstDifference(a: string, b: string)
    requires a != "" && b != "" && a[0] != b[0]
    ensures !(|a| < |b| && b[..|a|] == a)
    ensures (exists k :: 0 <= k < |a| && k < |b| && a[..k] == b[..k] && a[k] < b[k]) <==> a[0] < b[0]
  {
    assert a[..0] == b[..0];
    forall k | 0 < k <= |a| && k <= |b|
      ensures a[..k] != b[..k]
    {
      assert a[..k][0] == a[0] && b[..k][0] == b[0];
    }
    assert a[..|a|] == a;
  }

  /** Strings that begin alike differ first where their rests do. */
  lemma LaterDifference(a: string, b: string)
    requires a != "" && b != "" && a[0] == b[0]
    requires forall k :: 0 <= k < |a[1..]| && k < |b[1..]| ==> (a[1..][..k] == b[1..][..k] <==> a[..k + 1] == b[..k + 1])
    ensures (exists k :: 0 <= k < |a| && k < |b| && a[..k] == b[..k] && a[k] < b[k]) <==>
              exists k :: 0 <= k < |a[1..]| && k < |b[1..]| && a[1..][..k] == b[1..][..k] && a[1..][k] < b[1..][k]
  {
    var x, y := a[1..], b[1..];
    if exists k :: 0 <= k < |a| && k < |b| && a[..k] == b[..k] && a[k] < b[k] {
      var k :| 0 <= k < |a| && k < |b| && a[..k] == b[..k] && a[k] < b[k];
      assert x[..k - 1] == y[..k - 1] && x[k - 1] < y[k - 1];
    }
    if exists k :: 0 <= k < |x| && k < |y| && x[..k] == y[..k] && x[k] < y[k] {
      var k :| 0 <= k < |x| && k < |y| && x[..k] == y[..k] && x[k] < y[k];
      assert a[..k + 1] == b[..k + 1] && a[k + 1] < b[k + 1];
    }
  }
}
