/**
 The durations of the last analyses of a plugin (src/analysis/PluginBase.py, src/statistic/analysis_stats.py):
 a ring buffer against the list of all durations. Durations are real numbers, without rounding.
 */
module DurationStats {
  import opened Basics

  /** The newest `limit` entries of a list, or all if there are fewer. */
  function Newest(history: seq<real>, limit: nat): (newest: seq<real>)
    ensures |newest| == if |history| <= limit then |history| else limit
  {
    if |history| <= limit then history else Newest(history[1..], limit)
  }

  lemma {:induction false} NewestIsSuffix(history: seq<real>, limit: nat)
    ensures Newest(history, limit) == if |history| <= limit then history else history[|history| - limit..]
  {
    if |history| > limit {
      NewestIsSuffix(history[1..], limit);
    }
  }

  /** Where a ring of `limit` cells stands after `n` updates: it starts again after each round. */
  function Position(n: nat, limit: nat): (p: nat)
    requires limit > 0
    ensures p < limit
  {
    if n < limit then n else Position(n - limit, limit)
  }

  lemma {:induction false} NextPosition(n: nat, limit: nat)
    requires limit > 0
    ensures Position(n + 1, limit) == if Position(n, limit) + 1 == limit then 0 else Position(n, limit) + 1
  {
    if n >= limit {
      NextPosition(n - limit, limit);
    }
  }

  lemma {:induction false} PositionIsModulo(n: nat, limit: nat)
    requires limit > 0
    ensures Position(n, limit) == n % limit
  {
    if n >= limit {
      PositionIsModulo(n - limit, limit);
      var m := n - limit;
      assert limit * (m / limit + 1) == limit * (m / limit) + limit;
      SameRemainder(limit, n / limit, n % limit, m / limit + 1, m % limit);
    } else {
      SameRemainder(limit, n / limit, n % limit, 0, n);
    }
  }

  lemma SameRemainder(limit: nat, q: nat, r: nat, q': nat, r': nat)
    requires r < limit && r' < limit && limit * q + r == limit * q' + r'
    ensures r == r'
  {
    if q < q' {
      Product(limit, q, q');
    } else if q' < q {
      Product(limit, q', q);
    }
  }

  lemma Product(limit: nat, a: nat, b: nat)
    requires a < b
    ensures limit * a + limit <= limit * b
  {
    assert limit * b == limit * a + limit * (b - a);
    assert limit * (b - a) == limit + limit * (b - a - 1);
  }

  /** The first `k` entries are moved to the end, one after the other. */
  function Rotated(s: seq<real>, k: nat): (r: seq<real>)
    requires k <= |s|
    ensures |r| == |s|
    decreases k
  {
    if k == 0 then s else Rotated(s[1..] + [s[0]], k - 1)
  }

  lemma {:induction false} RotatedConcat(a: seq<real>, b: seq<real>)
    ensures Rotated(a + b, |a|) == b + a
    decreases |a|
  {
    if a == [] {
      assert a + b == b + a;
    } else {
      assert (a + b)[1..] + [a[0]] == a[1..] + (b + [a[0]]);
      RotatedConcat(a[1..], b + [a[0]]);
      assert (b + [a[0]]) + a[1..] == b + a;
    }
  }

  lemma RotatedFully(s: seq<real>)
    ensures Rotated(s, |s|) == s
  {
    assert s + [] == s && [] + s == s;
    RotatedConcat(s, []);
  }

  lemma {:induction false} RotatedUpdate(s: seq<real>, i: nat, d: real, k: nat)
    requires k <= i < |s|
    ensures Rotated(s[i := d], k) == Rotated(s, k)[i - k := d]
    decreases k
  {
    if k > 0 {
      assert s[i := d][1..] + [s[0]] == (s[1..] + [s[0]])[i - 1 := d];
      RotatedUpdate(s[1..] + [s[0]], i - 1, d, k - 1);
    }
  }

  /** The newest entries as the ring holds them: those written since the last wrap-around come first. */
  function Ring(history: seq<real>, limit: nat): seq<real>
    requires limit > 0
  {
    var newest := Newest(history, limit);
    if |history| <= limit then newest
    else Rotated(newest, limit - Position(|history|, limit))
  }

  /** Writing at the position of the ring brings it in line with the longer list. */
  lemma RingUpdate(history: seq<real>, limit: nat, d: real)
    requires limit > 0
    ensures var ring, p := Ring(history, limit), Position(|history|, limit);
            Ring(history + [d], limit) == if |history| < limit then ring + [d] else ring[p := d]
  {
    NextPosition(|history|, limit);
    if |history| < limit {
      assert Newest(history + [d], limit) == history + [d];
    } else {
      RingMovesOn(history, limit, d, Position(|history|, limit), Position(|history| + 1, limit));
    }
  }

  lemma RingMovesOn(history: seq<real>, limit: nat, d: real, p: nat, q: nat)
    requires 0 < limit <= |history| && p == Position(|history|, limit) && q == Position(|history| + 1, limit)
    requires q == if p + 1 == limit then 0 else p + 1
    ensures Ring(history + [d], limit) == Ring(history, limit)[p := d]
  {
    FullRing(history, limit);
    FullRing(history + [d], limit);
    NewestMovesOn(history, limit, d);
    assert limit - q == if limit - p == 1 then limit else limit - p - 1;
    Rotation(Newest(history, limit), limit - p, d, Newest(history + [d], limit), limit - q);
  }

  lemma {:induction false} NewestMovesOn(history: seq<real>, limit: nat, d: real)
    requires 0 < limit <= |history|
    ensures Newest(history + [d], limit) == Newest(history, limit)[1..] + [d]
    decreases |history|
  {
    ConcatTail(history, [d]);
    if |history| > limit {
      NewestMovesOn(history[1..], limit, d);
    }
  }

  lemma FullRing(history: seq<real>, limit: nat)
    requires 0 < limit <= |history|
    ensures Ring(history, limit) == Rotated(Newest(history, limit), limit - Position(|history|, limit))
  {
    if |history| == limit {
      RotatedFully(history);
      assert Position(limit, limit) == Position(0, limit) == 0;
    }
  }

  /** Dropping the oldest entry and appending a new one overwrites one place of the rotated list. */
  lemma Rotation(s: seq<real>, k: nat, d: real, t: seq<real>, j: nat)
    requires 0 < k <= |s| && t == s[1..] + [d] && j == if k == 1 then |s| else k - 1
    ensures Rotated(t, j) == Rotated(s, k)[|s| - k := d]
  {
    var u := s[1..] + [s[0]];
    assert u[|s| - 1 := d] == t;
    RotatedUpdate(u, |s| - 1, d, k - 1);
    if k == 1 {
      RotatedFully(t);
    }
  }

  class AnalysisPlugin {
    const limit: nat
    const analysisStats: array<real>
    var analysisStatsCount: nat
    var analysisStatsIndex: nat
    /** All durations so far. */
    ghost var history: seq<real>

    ghost predicate Valid()
      reads this, analysisStats
    {
      && analysisStats.Length == limit > 0
      && analysisStatsCount == (if |history| < limit then |history| else limit)
      && analysisStatsIndex == Position(|history|, limit)
      && analysisStats[..analysisStatsCount] == Ring(history, limit)
    }

    constructor (limit: nat)
      requires limit > 0
      ensures Valid() && this.limit == limit && history == [] && fresh(analysisStats)
    {
      this.limit := limit;
      analysisStats := new real[limit];
      analysisStatsCount, analysisStatsIndex := 0, 0;
      history := [];
    }

    method UpdateDurationStats(duration: real)
      requires Valid()
      modifies this, analysisStats
      ensures Valid() && history == old(history) + [duration]
    {
      NextPosition(|history|, limit);
      RingUpdate(history, limit, duration);
      ghost var ring, p := Ring(history, limit), analysisStatsIndex;
      history := history + [duration];
      analysisStats[analysisStatsIndex] := duration;
      assert analysisStats[..old(analysisStatsCount)] == if p < |ring| then ring[p := duration] else ring;
      analysisStatsIndex := analysisStatsIndex + 1;
      if analysisStatsIndex >= limit {
        analysisStatsIndex := 0;
      }
      if analysisStatsCount < limit {
        assert analysisStats[..analysisStatsCount + 1] == ring + [duration];
        analysisStatsCount := analysisStatsCount + 1;
      }
    }

    /** Minimum, maximum, mean and number of the newest durations; there are none before the first analysis. */
    method GetPluginStats() returns (stats: Option<Stats>)
      requires Valid()
      ensures stats == if history == [] then None else Some(StatsOf(Newest(history, limit)))
    {
      var used := analysisStats[..];
      if analysisStatsCount < limit {
        used := used[..analysisStatsCount];
      }
      assert used == Ring(history, limit);
      if used == [] {
        return None;
      }
      RingHasSameStats(history, limit);
      stats := Some(StatsOf(used));
    }
  }

  // ----- Statistics -----

  /** The standard deviation is the root of the variance. */
  datatype Stats = Stats(min: real, max: real, mean: real, median: real, variance: real, count: nat)

  function Min(a: real, b: real): real {
    if a < b then a else b
  }

  function Max(a: real, b: real): real {
    if a < b then b else a
  }

  function Minimum(s: seq<real>): real
    requires s != []
  {
    if |s| == 1 then s[0] else Min(s[0], Minimum(s[1..]))
  }

  function Maximum(s: seq<real>): real
    requires s != []
  {
    if |s| == 1 then s[0] else Max(s[0], Maximum(s[1..]))
  }

  function Sum(s: seq<real>): real {
    if s == [] then 0.0 else s[0] + Sum(s[1..])
  }

  function Mean(s: seq<real>): real
    requires s != []
  {
    Sum(s) / |s| as real
  }

  /** The sum of the squared distances from the mean. */
  function Squares(s: seq<real>, mean: real): real {
    if s == [] then 0.0 else (s[0] - mean) * (s[0] - mean) + Squares(s[1..], mean)
  }

  function Insert(x: real, s: seq<real>): (r: seq<real>)
    ensures |r| == |s| + 1
  {
    if s == [] || x <= s[0] then [x] + s else [s[0]] + Insert(x, s[1..])
  }

  function Sorted(s: seq<real>): (r: seq<real>)
    ensures |r| == |s|
  {
    if s == [] then [] else Insert(s[0], Sorted(s[1..]))
  }

  function Median(s: seq<real>): real
    requires s != []
  {
    var t, half := Sorted(s), |s| / 2;
    if |s| % 2 == 1 then t[half] else (t[half - 1] + t[half]) / 2.0
  }

  function StatsOf(s: seq<real>): Stats
    requires s != []
  {
    Stats(Minimum(s), Maximum(s), Mean(s), Median(s), Squares(s, Mean(s)) / |s| as real, |s|)
  }

  predicate Ascending(s: seq<real>) {
    |s| < 2 || (s[0] <= s[1] && Ascending(s[1..]))
  }

  lemma {:induction false} InsertAscends(x: real, s: seq<real>)
    requires Ascending(s)
    ensures Ascending(Insert(x, s))
  {
    if s != [] && s[0] < x {
      InsertAscends(x, s[1..]);
      assert ([s[0]] + Insert(x, s[1..]))[1..] == Insert(x, s[1..]);
    } else {
      assert ([x] + s)[1..] == s;
    }
  }

  lemma {:induction false} InsertAdds(x: real, s: seq<real>)
    ensures multiset(Insert(x, s)) == multiset(s) + multiset{x}
  {
    if s != [] && s[0] < x {
      assert s == [s[0]] + s[1..];
      InsertAdds(x, s[1..]);
    }
  }

  /** The median is taken from the durations in ascending order. */
  lemma {:induction false} SortedIsOrdered(s: seq<real>)
    ensures Ascending(Sorted(s)) && multiset(Sorted(s)) == multiset(s)
  {
    if s != [] {
      assert s == [s[0]] + s[1..];
      SortedIsOrdered(s[1..]);
      InsertAscends(s[0], Sorted(s[1..]));
      InsertAdds(s[0], Sorted(s[1..]));
    }
  }

  lemma {:induction false} StatsOfConcat(a: seq<real>, b: seq<real>)
    requires a != [] && b != []
    ensures Minimum(a + b) == Min(Minimum(a), Minimum(b))
    ensures Maximum(a + b) == Max(Maximum(a), Maximum(b))
    ensures Sum(a + b) == Sum(a) + Sum(b)
  {
    ConcatTail(a, b);
    if |a| == 1 {
      assert a[1..] + b == b && Sum(a[1..]) == 0.0;
    } else {
      StatsOfConcat(a[1..], b);
    }
  }

  /** The order in the ring does not change the statistics. */
  lemma RingHasSameStats(history: seq<real>, limit: nat)
    requires limit > 0 && history != []
    ensures Ring(history, limit) != [] && StatsOf(Ring(history, limit)) == StatsOf(Newest(history, limit))
  {
    if |history| > limit {
      RotatedStats(Newest(history, limit), limit - Position(|history|, limit));
    }
  }

  lemma {:induction false} RotatedStats(s: seq<real>, k: nat)
    requires s != [] && k <= |s|
    ensures Rotated(s, k) != [] && StatsOf(Rotated(s, k)) == StatsOf(s)
    decreases k
  {
    if k > 0 {
      MovedStats(s[0], s[1..]);
      assert s == [s[0]] + s[1..];
      RotatedStats(s[1..] + [s[0]], k - 1);
    }
  }

  lemma MovedStats(x: real, s: seq<real>)
    ensures StatsOf(s + [x]) == StatsOf([x] + s)
  {
    if s == [] {
      assert s + [x] == [x] + s;
    } else {
      StatsOfConcat(s, [x]);
      StatsOfConcat([x], s);
      assert Mean(s + [x]) == Mean([x] + s);
      SquaresConcat(s, [x], Mean([x] + s));
      SquaresConcat([x], s, Mean([x] + s));
      MovedMedian(x, s);
    }
  }

  lemma MovedMedian(x: real, s: seq<real>)
    ensures Median(s + [x]) == Median([x] + s)
  {
    SortedMoved(x, s);
  }

  lemma {:induction false} SquaresConcat(a: seq<real>, b: seq<real>, mean: real)
    ensures Squares(a + b, mean) == Squares(a, mean) + Squares(b, mean)
  {
    if a == [] {
      assert a + b == b;
    } else {
      ConcatTail(a, b);
      SquaresConcat(a[1..], b, mean);
    }
  }

  lemma {:induction false} SortedMoved(x: real, s: seq<real>)
    ensures Sorted(s + [x]) == Sorted([x] + s)
  {
    assert ([x] + s)[1..] == s;
    if s == [] {
      assert s + [x] == [x] + s;
    } else {
      ConcatTail(s, [x]);
      assert ([x] + s[1..])[1..] == s[1..];
      SortedMoved(x, s[1..]);
      InsertCommutes(x, s[0], Sorted(s[1..]));
    }
  }

  lemma {:induction false} InsertCommutes(x: real, y: real, s: seq<real>)
    ensures Insert(x, Insert(y, s)) == Insert(y, Insert(x, s))
  {
    if s != [] {
      InsertCommutes(x, y, s[1..]);
    }
  }

  /** The ring holds exactly the newest durations. */
  lemma RingIsPermutation(history: seq<real>, limit: nat)
    requires limit > 0
    ensures multiset(Ring(history, limit)) == multiset(Newest(history, limit))
  {
    if |history| > limit {
      RotatedIsPermutation(Newest(history, limit), limit - Position(|history|, limit));
    }
  }

  lemma {:induction false} RotatedIsPermutation(s: seq<real>, k: nat)
    requires k <= |s|
    ensures multiset(Rotated(s, k)) == multiset(s)
    decreases k
  {
    if k > 0 {
      assert s == [s[0]] + s[1..];
      RotatedIsPermutation(s[1..] + [s[0]], k - 1);
    }
  }
}
