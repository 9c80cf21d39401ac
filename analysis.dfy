/**
 * The metrics functions of client/src/lib/analysis.ts: summary statistics,
 * pairwise trend classification and per-category sums over data points.
 *
 * JavaScript numbers are modelled exactly: values and sums as `int`, the
 * two divisions (`mean` and the percent change) as `real`. Inputs on which
 * JavaScript would produce NaN or Infinity (no data; a zero predecessor
 * value) are excluded by preconditions.
 */
module Analysis {
  import opened Schema
  import opened Seqs

  // ---------------------------------------------------------------------
  // Values, sums, extremes
  // ---------------------------------------------------------------------

  /** `data.map(d => d.value)`. */
  function Values(data: seq<DataPoint>): (vs: seq<int>)
    ensures |vs| == |data|
    ensures forall i :: 0 <= i < |data| ==> vs[i] == data[i].value
  {
    seq(|data|, i requires 0 <= i < |data| => data[i].value)
  }

  /** `values.reduce((a, b) => a + b, 0)`: a left fold, so the last element
      is added last. */
  function Sum(s: seq<int>): int {
    if s == [] then 0 else Sum(s[..|s| - 1]) + s[|s| - 1]
  }

  /** `Math.min(...s)` on a non-empty list: an element no larger than any
      other. */
  function MinOf(s: seq<int>): (m: int)
    requires |s| > 0
    ensures m in s
    ensures forall i :: 0 <= i < |s| ==> m <= s[i]
  {
    if |s| == 1 then s[0]
    else
      var m := MinOf(s[..|s| - 1]);
      assert forall i :: 0 <= i < |s| - 1 ==> s[..|s| - 1][i] == s[i];
      if s[|s| - 1] < m then s[|s| - 1] else m
  }

  /** `Math.max(...s)` on a non-empty list: an element no smaller than any
      other. */
  function MaxOf(s: seq<int>): (m: int)
    requires |s| > 0
    ensures m in s
    ensures forall i :: 0 <= i < |s| ==> s[i] <= m
  {
    if |s| == 1 then s[0]
    else
      var m := MaxOf(s[..|s| - 1]);
      assert forall i :: 0 <= i < |s| - 1 ==> s[..|s| - 1][i] == s[i];
      if s[|s| - 1] > m then s[|s| - 1] else m
  }

  // ---------------------------------------------------------------------
  // Ascending sort of the values, and ranks
  // ---------------------------------------------------------------------

  predicate Ascending(s: seq<int>) {
    forall i, j :: 0 <= i < j < |s| ==> s[i] <= s[j]
  }

  /** Inserts `x` before the first element not below it. */
  function InsertAscending(x: int, s: seq<int>): (r: seq<int>)
    ensures multiset(r) == multiset(s) + multiset{x}
  {
    if s == [] || x <= s[0] then [x] + s
    else
      assert s == [s[0]] + s[1..];
      [s[0]] + InsertAscending(x, s[1..])
  }

  lemma {:induction false} InsertAscendingOrdered(x: int, s: seq<int>)
    requires Ascending(s)
    ensures Ascending(InsertAscending(x, s))
  {
    if s != [] && x > s[0] {
      var tail := InsertAscending(x, s[1..]);
      InsertAscendingOrdered(x, s[1..]);
      forall i | 0 <= i < |tail|
        ensures s[0] <= tail[i]
      {
        assert tail[i] in multiset(tail);
        assert tail[i] == x || tail[i] in multiset(s[1..]);
        if tail[i] != x {
          assert tail[i] in s[1..];
        }
      }
      assert InsertAscending(x, s) == [s[0]] + tail;
    }
  }

  /** `[...values].sort((a, b) => a - b)`: the values in ascending order. */
  function SortAscending(s: seq<int>): (r: seq<int>)
    ensures Ascending(r)
    ensures multiset(r) == multiset(s)
  {
    if s == [] then []
    else
      assert s == [s[0]] + s[1..];
      InsertAscendingOrdered(s[0], SortAscending(s[1..]));
      InsertAscending(s[0], SortAscending(s[1..]))
  }

  /** How many elements of `s` are below `m`. */
  function CountBelow(s: seq<int>, m: int): nat {
    if s == [] then 0 else (if s[0] < m then 1 else 0) + CountBelow(s[1..], m)
  }

  /** How many elements of `s` are at most `m`. */
  function CountAtMost(s: seq<int>, m: int): nat {
    if s == [] then 0 else (if s[0] <= m then 1 else 0) + CountAtMost(s[1..], m)
  }

  lemma {:induction false} InsertKeepsCounts(x: int, s: seq<int>, m: int)
    requires Ascending(s)
    ensures CountBelow(InsertAscending(x, s), m) == CountBelow(s, m) + (if x < m then 1 else 0)
    ensures CountAtMost(InsertAscending(x, s), m) == CountAtMost(s, m) + (if x <= m then 1 else 0)
  {
    if s != [] && x > s[0] {
      InsertKeepsCounts(x, s[1..], m);
      var r := InsertAscending(x, s);
      assert r[1..] == InsertAscending(x, s[1..]);
    }
  }

  /** Sorting does not change how many values lie below or at a bound. */
  lemma {:induction false} SortKeepsCounts(s: seq<int>, m: int)
    ensures CountBelow(SortAscending(s), m) == CountBelow(s, m)
    ensures CountAtMost(SortAscending(s), m) == CountAtMost(s, m)
  {
    if s != [] {
      SortKeepsCounts(s[1..], m);
      InsertKeepsCounts(s[0], SortAscending(s[1..]), m);
    }
  }

  lemma {:induction false} NoneBelowMinimum(s: seq<int>, m: int)
    requires forall i :: 0 <= i < |s| ==> m <= s[i]
    ensures CountBelow(s, m) == 0
  {
    if s != [] {
      NoneBelowMinimum(s[1..], m);
    }
  }

  /** In an ascending list, the element at index `k` has at most `k` values
      below it and more than `k` values at or below it. */
  lemma {:induction false} AscendingRank(r: seq<int>, k: nat)
    requires Ascending(r) && k < |r|
    ensures CountBelow(r, r[k]) <= k < CountAtMost(r, r[k])
  {
    if k == 0 {
      NoneBelowMinimum(r, r[0]);
    } else {
      assert r[1..][k - 1] == r[k];
      AscendingRank(r[1..], k - 1);
    }
  }

  /** Every value at most `a` is below `b` when `a < b`. */
  lemma {:induction false} CountsMonotone(s: seq<int>, a: int, b: int)
    requires a < b
    ensures CountAtMost(s, a) <= CountBelow(s, b)
  {
    if s != [] {
      CountsMonotone(s[1..], a, b);
    }
  }

  /** The value at index `floor(n/2)` of the sorted list is the unique value
      with at most `n/2` values below it and more than `n/2` at or below it.
      For even `n` this is the upper of the two middle values. */
  lemma MedianUnique(s: seq<int>, m1: int, m2: int)
    requires CountBelow(s, m1) <= |s| / 2 < CountAtMost(s, m1)
    requires CountBelow(s, m2) <= |s| / 2 < CountAtMost(s, m2)
    ensures m1 == m2
  {
    if m1 < m2 {
      CountsMonotone(s, m1, m2);
    } else if m2 < m1 {
      CountsMonotone(s, m2, m1);
    }
  }

  // ---------------------------------------------------------------------
  // calculateBasicStats
  // ---------------------------------------------------------------------

  /** The value at index `floor(n/2)` of the sorted values: one of the
      values, with at most `n/2` values below it and more than `n/2` at or
      below it. */
  lemma MedianOfSorted(values: seq<int>)
    requires |values| > 0
    ensures |SortAscending(values)| == |values|
    ensures var m := SortAscending(values)[|values| / 2];
      m in values && CountBelow(values, m) <= |values| / 2 < CountAtMost(values, m)
  {
    var sorted := SortAscending(values);
    assert |sorted| == |values| by {
      assert |multiset(sorted)| == |multiset(values)|;
    }
    var m := sorted[|values| / 2];
    assert m in multiset(sorted);
    AscendingRank(sorted, |values| / 2);
    SortKeepsCounts(values, m);
  }

  /** `sum / values.length`: the number that, times the count, gives the
      sum. */
  function Mean(sum: int, n: int): (m: real)
    requires n > 0
    ensures m * (n as real) == sum as real
  {
    sum as real / n as real
  }

  datatype Stats = Stats(mean: real, median: int, min: int, max: int, total: int)

  /** `calculateBasicStats`. The empty input, for which JavaScript yields
      NaN and infinities, is excluded. */
  function CalculateBasicStats(data: seq<DataPoint>): (r: Stats)
    requires |data| > 0
    ensures r.total == Sum(Values(data))
    ensures r.mean == Mean(r.total, |data|)
    ensures r.min in Values(data) && r.max in Values(data)
    ensures forall i :: 0 <= i < |data| ==> r.min <= data[i].value <= r.max
    ensures r.median in Values(data) && r.min <= r.median <= r.max
    ensures CountBelow(Values(data), r.median) <= |data| / 2 < CountAtMost(Values(data), r.median)
  {
    var values := Values(data);
    var sum := Sum(values);
    var mean := Mean(sum, |data|);
    MedianOfSorted(values);
    var median := SortAscending(values)[|values| / 2];
    Stats(mean, median, MinOf(values), MaxOf(values), sum)
  }

  // ---------------------------------------------------------------------
  // Stable sort by timestamp
  // ---------------------------------------------------------------------

  /** Timestamps never decrease along `s`. */
  predicate ByTimestamp(s: seq<DataPoint>) {
    forall i, j :: 0 <= i < j < |s| ==> s[i].timestamp <= s[j].timestamp
  }

  /** The points of `s` stamped `t`, in their order in `s`. */
  function AtTime(s: seq<DataPoint>, t: int): seq<DataPoint> {
    if s == [] then [] else (if s[0].timestamp == t then [s[0]] else []) + AtTime(s[1..], t)
  }

  /** `r` is what a stable sort by timestamp makes of `s`: ordered by
      timestamp, and the points sharing a timestamp keep their relative
      order. (It follows that `r` is a permutation of `s`.) */
  ghost predicate IsStableSortByTimestamp(s: seq<DataPoint>, r: seq<DataPoint>) {
    ByTimestamp(r) && forall t :: AtTime(r, t) == AtTime(s, t)
  }

  /** Inserts `p` before the first point whose timestamp is not below its
      own. */
  function InsertByTimestamp(p: DataPoint, s: seq<DataPoint>): (r: seq<DataPoint>)
    ensures |r| == |s| + 1
  {
    if s == [] || p.timestamp <= s[0].timestamp then [p] + s
    else [s[0]] + InsertByTimestamp(p, s[1..])
  }

  /** `[...data].sort((a, b) => a.timestamp - b.timestamp)`, a stable sort
      (insertion sort from the back). */
  function SortByTimestamp(s: seq<DataPoint>): (r: seq<DataPoint>)
    ensures |r| == |s|
  {
    if s == [] then [] else InsertByTimestamp(s[0], SortByTimestamp(s[1..]))
  }

  lemma {:induction false} InsertByTimestampOrdered(p: DataPoint, s: seq<DataPoint>)
    requires ByTimestamp(s)
    ensures ByTimestamp(InsertByTimestamp(p, s))
  {
    if s != [] && p.timestamp > s[0].timestamp {
      InsertByTimestampOrdered(p, s[1..]);
      var r := InsertByTimestamp(p, s);
      var tail := InsertByTimestamp(p, s[1..]);
      assert r == [s[0]] + tail;
      InsertByTimestampBounded(p, s[1..], s[0].timestamp);
    }
  }

  /** Every element of an insertion result is `p` or an element of `s`, so
      a lower bound on both bounds the result. */
  lemma {:induction false} InsertByTimestampBounded(p: DataPoint, s: seq<DataPoint>, lo: int)
    requires lo <= p.timestamp
    requires forall i :: 0 <= i < |s| ==> lo <= s[i].timestamp
    ensures forall i :: 0 <= i < |InsertByTimestamp(p, s)| ==> lo <= InsertByTimestamp(p, s)[i].timestamp
  {
    if s != [] && p.timestamp > s[0].timestamp {
      InsertByTimestampBounded(p, s[1..], lo);
    }
  }

  lemma {:induction false} InsertByTimestampAtTime(p: DataPoint, s: seq<DataPoint>, t: int)
    ensures AtTime(InsertByTimestamp(p, s), t) == (if p.timestamp == t then [p] else []) + AtTime(s, t)
  {
    if s != [] && p.timestamp > s[0].timestamp {
      InsertByTimestampAtTime(p, s[1..], t);
      var r := InsertByTimestamp(p, s);
      assert r[1..] == InsertByTimestamp(p, s[1..]);
    }
  }

  /** The sort orders by timestamp. */
  lemma {:induction false} SortByTimestampOrdered(s: seq<DataPoint>)
    ensures ByTimestamp(SortByTimestamp(s))
  {
    if s != [] {
      SortByTimestampOrdered(s[1..]);
      InsertByTimestampOrdered(s[0], SortByTimestamp(s[1..]));
    }
  }

  /** The sort is stable: among points with equal timestamps it keeps the
      input order. */
  lemma {:induction false} SortByTimestampStable(s: seq<DataPoint>, t: int)
    ensures AtTime(SortByTimestamp(s), t) == AtTime(s, t)
  {
    if s != [] {
      SortByTimestampStable(s[1..], t);
      InsertByTimestampAtTime(s[0], SortByTimestamp(s[1..]), t);
    }
  }

  /** A point stamped `t` exists iff the points stamped `t` are not none. */
  lemma {:induction false} AtTimeNonEmpty(s: seq<DataPoint>, t: int)
    ensures AtTime(s, t) != [] <==> exists i :: 0 <= i < |s| && s[i].timestamp == t
  {
    if s != [] {
      AtTimeNonEmpty(s[1..], t);
      if s[0].timestamp != t {
        if i :| 0 <= i < |s| && s[i].timestamp == t {
          assert s[1..][i - 1].timestamp == t;
        }
      }
    }
  }

  /** Two lists ordered by timestamp that agree on the points at every
      timestamp are equal. */
  lemma {:induction false} StableSortUnique(r1: seq<DataPoint>, r2: seq<DataPoint>)
    requires ByTimestamp(r1) && ByTimestamp(r2)
    requires forall t :: AtTime(r1, t) == AtTime(r2, t)
    ensures r1 == r2
    decreases |r1|
  {
    if r1 == [] || r2 == [] {
      if r1 != [] {
        AtTimeNonEmpty(r1, r1[0].timestamp);
        AtTimeNonEmpty(r2, r1[0].timestamp);
      } else if r2 != [] {
        AtTimeNonEmpty(r1, r2[0].timestamp);
        AtTimeNonEmpty(r2, r2[0].timestamp);
      }
    } else {
      var t1, t2 := r1[0].timestamp, r2[0].timestamp;
      AtTimeNonEmpty(r1, t1);
      AtTimeNonEmpty(r2, t1);
      AtTimeNonEmpty(r1, t2);
      AtTimeNonEmpty(r2, t2);
      assert t1 == t2;
      assert AtTime(r1, t1)[0] == r1[0];
      assert AtTime(r2, t1)[0] == r2[0];
      forall t
        ensures AtTime(r1[1..], t) == AtTime(r2[1..], t)
      {
        var head := if t1 == t then [r1[0]] else [];
        assert AtTime(r1, t) == head + AtTime(r1[1..], t);
        assert AtTime(r2, t) == head + AtTime(r2[1..], t);
        assert AtTime(r1[1..], t) == AtTime(r1, t)[|head|..];
        assert AtTime(r2[1..], t) == AtTime(r2, t)[|head|..];
      }
      StableSortUnique(r1[1..], r2[1..]);
      assert r1 == [r1[0]] + r1[1..];
      assert r2 == [r2[0]] + r2[1..];
    }
  }

  /** `SortByTimestamp` is a stable sort by timestamp, and the only one:
      whatever stable sort the platform uses gives the same list. */
  lemma SortByTimestampIsTheStableSort(s: seq<DataPoint>, r: seq<DataPoint>)
    ensures IsStableSortByTimestamp(s, SortByTimestamp(s))
    ensures IsStableSortByTimestamp(s, r) ==> r == SortByTimestamp(s)
  {
    SortByTimestampOrdered(s);
    forall t
      ensures AtTime(SortByTimestamp(s), t) == AtTime(s, t)
    {
      SortByTimestampStable(s, t);
    }
    if IsStableSortByTimestamp(s, r) {
      StableSortUnique(r, SortByTimestamp(s));
    }
  }

  // ---------------------------------------------------------------------
  // identifyTrends
  // ---------------------------------------------------------------------

  datatype Trend = Increasing | Decreasing | Stable

  datatype TrendPoint = TrendPoint(timestamp: int, trend: Trend, change: real)

  /** `((curr - prev) / prev) * 100`: the change as a percentage of `prev`. */
  function PercentChange(prev: int, curr: int): (c: real)
    requires prev != 0
    ensures c * prev as real == (curr - prev) as real * 100.0
  {
    ((curr - prev) as real / prev as real) * 100.0
  }

  /** Above 5% is increasing, below -5% decreasing, anything in between
      (bounds included) stable. */
  function Classify(change: real): (t: Trend)
    ensures t == Increasing <==> change > 5.0
    ensures t == Decreasing <==> change < -5.0
    ensures t == Stable <==> -5.0 <= change <= 5.0
  {
    if change > 5.0 then Increasing
    else if change < -5.0 then Decreasing
    else Stable
  }

  /** Every point but the last has a non-zero value, so every percent change
      along `s` is finite. */
  predicate NonZeroPredecessors(s: seq<DataPoint>) {
    forall i :: 0 <= i < |s| - 1 ==> s[i].value != 0
  }

  /** The record for the pair of points at `k` and `k + 1`: the later
      point's timestamp, the percent change between the two values, and its
      classification. */
  function TrendAt(sorted: seq<DataPoint>, k: nat): (t: TrendPoint)
    requires k + 1 < |sorted| && sorted[k].value != 0
    ensures t.timestamp == sorted[k + 1].timestamp
    ensures t.change * sorted[k].value as real == (sorted[k + 1].value - sorted[k].value) as real * 100.0
    ensures t.trend == Increasing <==> t.change > 5.0
    ensures t.trend == Decreasing <==> t.change < -5.0
  {
    var change := PercentChange(sorted[k].value, sorted[k + 1].value);
    TrendPoint(sorted[k + 1].timestamp, Classify(change), change)
  }

  /** The loop of `identifyTrends` over the already sorted points: one
      record per consecutive pair, in order. */
  method PairwiseTrends(sortedData: seq<DataPoint>) returns (trends: seq<TrendPoint>)
    requires NonZeroPredecessors(sortedData)
    ensures |trends| == if |sortedData| == 0 then 0 else |sortedData| - 1
    ensures forall k :: 0 <= k < |trends| ==> trends[k] == TrendAt(sortedData, k)
  {
    trends := [];
    var currentTrend := Stable;
    var i := 1;
    while i < |sortedData|
      invariant 1 <= i <= if |sortedData| == 0 then 1 else |sortedData|
      invariant |trends| == i - 1
      invariant forall k :: 0 <= k < |trends| ==> trends[k] == TrendAt(sortedData, k)
    {
      var prev := sortedData[i - 1].value;
      var curr := sortedData[i].value;
      var change := ((curr - prev) as real / prev as real) * 100.0;
      if change > 5.0 {
        currentTrend := Increasing;
      } else if change < -5.0 {
        currentTrend := Decreasing;
      } else {
        currentTrend := Stable;
      }
      trends := trends + [TrendPoint(sortedData[i].timestamp, currentTrend, change)];
      i := i + 1;
    }
  }

  /** `identifyTrends`: one record per consecutive pair of the points sorted
      by timestamp, carrying the later point's timestamp. The input is a
      value, so the caller's list is never reordered. */
  method IdentifyTrends(data: seq<DataPoint>) returns (trends: seq<TrendPoint>)
    requires NonZeroPredecessors(SortByTimestamp(data))
    ensures |trends| == if |data| == 0 then 0 else |data| - 1
    ensures var sorted := SortByTimestamp(data);
      forall i :: 0 <= i < |trends| ==> trends[i] == TrendAt(sorted, i)
    ensures forall i, j :: 0 <= i < j < |trends| ==> trends[i].timestamp <= trends[j].timestamp
  {
    var sortedData := SortByTimestamp(data);
    SortByTimestampOrdered(data);
    trends := PairwiseTrends(sortedData);
    forall i, j | 0 <= i < j < |trends|
      ensures trends[i].timestamp <= trends[j].timestamp
    {
      assert sortedData[i + 1].timestamp <= sortedData[j + 1].timestamp;
    }
  }

  // ---------------------------------------------------------------------
  // aggregateByCategory
  // ---------------------------------------------------------------------

  datatype CategoryTotal = CategoryTotal(category: string, value: int)

  /** The distinct categories of `data` in order of first appearance: the
      key order of a JavaScript `Map` filled by `set` in input order. */
  function Categories(data: seq<DataPoint>): seq<string> {
    if data == [] then []
    else
      var cs := Categories(data[..|data| - 1]);
      var c := data[|data| - 1].category;
      if c in cs then cs else cs + [c]
  }

  /** The sum of the values of the points in category `c`. */
  function CategorySum(data: seq<DataPoint>, c: string): int {
    if data == [] then 0
    else CategorySum(data[..|data| - 1], c) + (if data[|data| - 1].category == c then data[|data| - 1].value else 0)
  }

  /** The sum of the per-category sums over the categories `cs`. */
  function SumOverCategories(cs: seq<string>, data: seq<DataPoint>): int {
    if cs == [] then 0 else SumOverCategories(cs[..|cs| - 1], data) + CategorySum(data, cs[|cs| - 1])
  }

  /** The sum of the entries' values. */
  function TotalOf(r: seq<CategoryTotal>): int {
    if r == [] then 0 else TotalOf(r[..|r| - 1]) + r[|r| - 1].value
  }

  /** Each category is listed once. */
  lemma {:induction false} CategoriesDistinct(data: seq<DataPoint>)
    ensures NoDuplicates(Categories(data))
  {
    if data != [] {
      CategoriesDistinct(data[..|data| - 1]);
    }
  }

  /** A category is listed iff some point carries it. */
  lemma {:induction false} CategoriesComplete(data: seq<DataPoint>, c: string)
    ensures c in Categories(data) <==> exists i :: 0 <= i < |data| && data[i].category == c
  {
    if data != [] {
      var init := data[..|data| - 1];
      CategoriesComplete(init, c);
      if i :| 0 <= i < |init| && init[i].category == c {
        assert data[i].category == c;
      }
      if i :| 0 <= i < |data| && data[i].category == c {
        if i < |init| {
          assert init[i].category == c;
        }
      }
    }
  }

  /** First-appearance order: extending the input only appends categories,
      so the categories of a prefix are a prefix of the categories. */
  lemma {:induction false} CategoriesPrefix(a: seq<DataPoint>, b: seq<DataPoint>)
    ensures |Categories(a)| <= |Categories(a + b)|
    ensures Categories(a + b)[..|Categories(a)|] == Categories(a)
    decreases |b|
  {
    if b != [] {
      var b' := b[..|b| - 1];
      assert (a + b)[..|a + b| - 1] == a + b';
      CategoriesPrefix(a, b');
    } else {
      assert a + b == a;
    }
  }

  /** A category that no point carries sums to zero. */
  lemma {:induction false} CategorySumAbsent(data: seq<DataPoint>, c: string)
    requires c !in Categories(data)
    ensures CategorySum(data, c) == 0
  {
    if data != [] {
      CategorySumAbsent(data[..|data| - 1], c);
    }
  }

  lemma {:induction false} SumOverCategoriesSnoc(cs: seq<string>, data: seq<DataPoint>, p: DataPoint)
    requires NoDuplicates(cs)
    ensures SumOverCategories(cs, data + [p])
         == SumOverCategories(cs, data) + (if p.category in cs then p.value else 0)
  {
    assert (data + [p])[..|data|] == data;
    if cs != [] {
      var init := cs[..|cs| - 1];
      SumOverCategoriesSnoc(init, data, p);
      assert cs == init + [cs[|cs| - 1]];
    }
  }

  /** The per-category sums add up to the overall total. */
  lemma {:induction false} CategorySumsAddUp(data: seq<DataPoint>)
    ensures SumOverCategories(Categories(data), data) == Sum(Values(data))
  {
    if data != [] {
      var init, p := data[..|data| - 1], data[|data| - 1];
      assert data == init + [p];
      assert Values(data)[..|data| - 1] == Values(init);
      CategorySumsAddUp(init);
      CategoriesDistinct(init);
      var cs := Categories(init);
      SumOverCategoriesSnoc(cs, init, p);
      if p.category !in cs {
        CategorySumAbsent(init, p.category);
        assert (cs + [p.category])[..|cs|] == cs;
      }
    }
  }

  lemma {:induction false} TotalOfEntries(r: seq<CategoryTotal>, cs: seq<string>, data: seq<DataPoint>)
    requires |r| == |cs|
    requires forall i :: 0 <= i < |r| ==> r[i].value == CategorySum(data, cs[i])
    ensures TotalOf(r) == SumOverCategories(cs, data)
  {
    if r != [] {
      TotalOfEntries(r[..|r| - 1], cs[..|cs| - 1], data);
    }
  }

  /** `aggregateByCategory`: one entry per distinct category in order of
      first appearance, carrying that category's sum; the entries add up to
      the overall total. */
  method AggregateByCategory(data: seq<DataPoint>) returns (r: seq<CategoryTotal>)
    ensures |r| == |Categories(data)|
    ensures forall i :: 0 <= i < |r| ==>
      r[i].category == Categories(data)[i] && r[i].value == CategorySum(data, r[i].category)
    ensures TotalOf(r) == Sum(Values(data))
  {
    // The Map: its key order, and its entries.
    var keys: seq<string> := [];
    var aggregated: map<string, int> := map[];
    var k := 0;
    while k < |data|
      invariant 0 <= k <= |data|
      invariant keys == Categories(data[..k])
      invariant forall c :: c in aggregated <==> c in keys
      invariant forall c :: c in aggregated ==> aggregated[c] == CategorySum(data[..k], c)
    {
      var point := data[k];
      assert data[..k + 1][..k] == data[..k];
      var current := if point.category in aggregated then aggregated[point.category] else 0;
      if point.category !in aggregated {
        CategorySumAbsent(data[..k], point.category);
        keys := keys + [point.category];
      }
      aggregated := aggregated[point.category := current + point.value];
      k := k + 1;
    }
    assert data[..k] == data;
    r := seq(|keys|, i requires 0 <= i < |keys| => CategoryTotal(keys[i], aggregated[keys[i]]));
    TotalOfEntries(r, keys, data);
    CategorySumsAddUp(data);
  }
}
