/**
 What the statistics of durations say (src/statistic/analysis_stats.py), for any list that is not empty.
 */
module StatsMeaning {
  import opened Basics
  import opened DurationStats

  /** Minimum and maximum are durations, and no duration lies outside. */
  lemma {:induction false} ExtremesAre(s: seq<real>)
    requires s != []
    ensures StatsOf(s).min in s && StatsOf(s).max in s
    ensures forall x :: x in s ==> StatsOf(s).min <= x <= StatsOf(s).max
    decreases |s|
  {
    if |s| > 1 {
      ExtremesAre(s[1..]);
      assert forall x :: x in s <==> x == s[0] || x in s[1..];
    }
  }

  /** The sum of the distances from a value. */
  function Distances(s: seq<real>, v: real): real {
    if s == [] then 0.0 else s[0] - v + Distances(s[1..], v)
  }

  lemma OneMore(n: nat, v: real)
    ensures (n + 1) as real * v == v + n as real * v
  {
    assert (n + 1) as real == 1.0 + n as real;
    assert (1.0 + n as real) * v == 1.0 * v + n as real * v;
  }

  lemma {:induction false} DistancesAre(s: seq<real>, v: real)
    ensures Distances(s, v) == Sum(s) - |s| as real * v
  {
    if s != [] {
      DistancesAre(s[1..], v);
      OneMore(|s[1..]|, v);
    }
  }

  lemma {:induction false} SignOfDistances(s: seq<real>, lo: real, hi: real)
    requires forall x :: x in s ==> lo <= x <= hi
    ensures Distances(s, hi) <= 0.0 <= Distances(s, lo)
  {
    if s != [] {
      assert s[0] in s && forall x :: x in s[1..] ==> x in s;
      SignOfDistances(s[1..], lo, hi);
    }
  }

  lemma SignOfProduct(n: real, x: real)
    requires n > 0.0
    ensures x < 0.0 <==> n * x < 0.0
    ensures x > 0.0 <==> n * x > 0.0
  {
  }

  lemma DistancesFromMean(s: seq<real>, v: real)
    requires s != []
    ensures Distances(s, v) < 0.0 <==> Mean(s) < v
    ensures Distances(s, v) > 0.0 <==> Mean(s) > v
  {
    var n, m := |s| as real, Mean(s);
    DistancesAre(s, v);
    Cancel(Sum(s), n);
    DistanceSign(n, m, v, Sum(s), Distances(s, v));
  }

  lemma DistanceSign(n: real, m: real, v: real, sum: real, d: real)
    requires n > 0.0 && n * m == sum && d == sum - n * v
    ensures d < 0.0 <==> m < v
    ensures d > 0.0 <==> m > v
  {
    TimesDistance(n, m, v);
    SignOfProduct(n, m - v);
  }

  lemma TimesDistance(n: real, m: real, v: real)
    ensures n * (m - v) == n * m - n * v
  {
  }

  lemma Cancel(a: real, n: real)
    requires n > 0.0
    ensures n * (a / n) == a
  {
  }

  /** The distances from the mean, and from no other value, add up to zero; it lies between minimum and maximum. */
  lemma MeanIs(s: seq<real>, v: real)
    requires s != []
    ensures Distances(s, v) == 0.0 <==> v == StatsOf(s).mean
    ensures StatsOf(s).min <= StatsOf(s).mean <= StatsOf(s).max
  {
    ExtremesAre(s);
    SignOfDistances(s, Minimum(s), Maximum(s));
    DistancesFromMean(s, v);
    DistancesFromMean(s, Minimum(s));
    DistancesFromMean(s, Maximum(s));
  }

  predicate AllAre(s: seq<real>, m: real) {
    forall x :: x in s ==> x == m
  }

  lemma AllAreFirst(s: seq<real>, m: real)
    requires s != []
    ensures AllAre(s, m) <==> s[0] == m && AllAre(s[1..], m)
  {
    assert s[0] in s && s == [s[0]] + s[1..];
    forall x
      ensures x in s <==> x == s[0] || x in s[1..]
    {
    }
  }

  lemma {:induction false} SquaresAre(s: seq<real>, m: real)
    ensures Squares(s, m) >= 0.0 && (Squares(s, m) == 0.0 <==> AllAre(s, m))
  {
    if s != [] {
      SquaresAre(s[1..], m);
      AllAreFirst(s, m);
      var d := (s[0] - m) * (s[0] - m);
      SquareIs(s[0] - m, d);
      assert Squares(s, m) == d + Squares(s[1..], m);
    }
  }

  lemma SquareIs(y: real, d: real)
    requires d == y * y
    ensures y != 0.0 ==> d > 0.0
    ensures y == 0.0 ==> d == 0.0
  {
    if y > 0.0 {
      ProductIsPositive(y, y, d);
    } else if y < 0.0 {
      SquareOfOpposite(y, d);
      ProductIsPositive(-y, -y, d);
    }
  }

  lemma ProductIsPositive(n: real, x: real, d: real)
    requires n > 0.0 && x > 0.0 && d == n * x
    ensures d > 0.0
  {
  }

  lemma SquareOfOpposite(y: real, d: real)
    requires d == y * y
    ensures d == (-y) * (-y)
  {
  }

  lemma SignOfQuotient(a: real, n: real)
    requires n > 0.0 && a >= 0.0
    ensures a / n >= 0.0 && (a / n == 0.0 <==> a == 0.0)
  {
    Cancel(a, n);
    SignOfProduct(n, a / n);
  }

  /** The variance is never negative, and it is zero exactly if all durations are the same. */
  lemma VarianceIs(s: seq<real>)
    requires s != []
    ensures StatsOf(s).variance >= 0.0
    ensures StatsOf(s).variance == 0.0 <==> forall x, y :: x in s && y in s ==> x == y
  {
    var m := Mean(s);
    SquaresAre(s, m);
    SignOfQuotient(Squares(s, m), |s| as real);
    MeanIs(s, m);
    ExtremesAre(s);
    assert AllAre(s, m) <==> forall x, y :: x in s && y in s ==> x == y;
  }

  // ----- The median -----

  lemma {:induction false} HeadOfAscending(t: seq<real>)
    requires t != [] && Ascending(t)
    ensures forall x :: x in t ==> t[0] <= x
    decreases |t|
  {
    if |t| > 1 {
      HeadOfAscending(t[1..]);
      assert forall x :: x in t <==> x == t[0] || x in t[1..];
    }
  }

  lemma TailOf(t: seq<real>)
    requires t != []
    ensures multiset(t[1..]) == multiset(t) - multiset{t[0]}
  {
    assert t == [t[0]] + t[1..];
  }

  lemma SameHead(a: seq<real>, b: seq<real>)
    requires Ascending(a) && Ascending(b) && multiset(a) == multiset(b) && a != [] && b != []
    ensures a[0] == b[0] && multiset(a[1..]) == multiset(b[1..])
  {
    HeadOfAscending(a);
    HeadOfAscending(b);
    assert a[0] in multiset(b) && b[0] in multiset(a);
    assert a[0] in b && b[0] in a;
    TailOf(a);
    TailOf(b);
  }

  /** There is only one ascending order. */
  lemma {:induction false} AscendingIsUnique(a: seq<real>, b: seq<real>)
    requires Ascending(a) && Ascending(b) && multiset(a) == multiset(b)
    ensures a == b
    decreases |a|
  {
    assert |a| == |multiset(a)| == |multiset(b)| == |b|;
    if a != [] {
      SameHead(a, b);
      AscendingIsUnique(a[1..], b[1..]);
      assert a == [a[0]] + a[1..] && b == [b[0]] + b[1..];
    }
  }

  /** The median is the duration in the middle of their ascending order, or halfway between the two there. */
  lemma MedianIs(s: seq<real>, t: seq<real>)
    requires s != [] && Ascending(t) && multiset(t) == multiset(s)
    ensures |t| == |s|
    ensures |t| % 2 == 1 ==> StatsOf(s).median == t[(|t| - 1) / 2]
    ensures |t| % 2 == 0 ==> StatsOf(s).median - t[|t| / 2 - 1] == t[|t| / 2] - StatsOf(s).median
  {
    SortedIsOrdered(s);
    AscendingIsUnique(Sorted(s), t);
    MiddleIs(s, t);
  }

  lemma MiddleIs(s: seq<real>, t: seq<real>)
    requires s != [] && t == Sorted(s)
    ensures |t| % 2 == 1 ==> Median(s) == t[(|t| - 1) / 2]
    ensures |t| % 2 == 0 ==> Median(s) - t[|t| / 2 - 1] == t[|t| / 2] - Median(s)
  {
    Halfway(t[(|t| - 1) / 2], t[|t| / 2]);
  }

  lemma Halfway(a: real, b: real)
    ensures (a + b) / 2.0 - a == b - (a + b) / 2.0
  {
  }
}
