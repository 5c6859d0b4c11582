/**
 * The standalone Candle Widening Ratio (CWR) computation of workdir/scripts/run_cwr.py:
 * for every candle, its range `high - low`, the trailing simple moving average of the
 * ranges (averaging all ranges seen so far until `length` of them exist), the ratio of
 * the range to that average (0 when the average is 0), and one output record per candle.
 * Numbers are mathematical reals: the claims are about the exact mean and ratio.
 */
module Cwr {
  import opened Wrappers
  import opened Seqs

  /** One OHLCV candle as the reader hands it over. */
  datatype Candle = Candle(timestamp: int, open: real, high: real, low: real, close: real, volume: real)

  /** One result dictionary: the candle's fields plus the computed series and the 1.0 baseline. */
  datatype CwrRecord = CwrRecord(
    timestamp: int, open: real, high: real, low: real, close: real, volume: real,
    currentRange: real, averageRange: real, cwr: real, baseline: real)

  /** The exception `sum(window) / len(window)` raises on an empty window. */
  datatype CwrError = ZeroDivision

  function Min(a: int, b: int): int { if a <= b then a else b }

  /** Python's built-in `sum` over a list of numbers. */
  function Sum(s: seq<real>): real {
    if s == [] then 0.0 else s[0] + Sum(s[1..])
  }

  /** The arithmetic mean of a non-empty list. */
  function Mean(s: seq<real>): real
    requires |s| > 0
  {
    Sum(s) / |s| as real
  }

  /** The list comprehension `[candle['high'] - candle['low'] for candle in ohlcv_data]`. */
  function Ranges(data: seq<Candle>): (r: seq<real>)
    ensures |r| == |data|
    ensures forall i :: 0 <= i < |data| ==> r[i] == data[i].high - data[i].low
  {
    if data == [] then [] else [data[0].high - data[0].low] + Ranges(data[1..])
  }

  /** First index of the trailing window that ends at index `i`. */
  function WindowStart(i: nat, length: int): (lo: nat)
    requires length >= 1
    ensures lo <= i && i + 1 - lo == Min(i + 1, length)
  {
    if i + 1 < length then 0 else i + 1 - length
  }

  /**
   * The ranges averaged at index `i`: `ranges[max(0, i-length+1) .. i]` inclusive.
   * It is never empty, holds `min(i+1, length)` ranges, and ends with `ranges[i]`.
   */
  function Window(ranges: seq<real>, i: nat, length: int): (w: seq<real>)
    requires length >= 1 && i < |ranges|
    ensures |w| == Min(i + 1, length) && |w| >= 1
    ensures w[|w| - 1] == ranges[i]
  {
    ranges[WindowStart(i, length)..i + 1]
  }

  /** The specification of `average_ranges`: the mean of each trailing window. */
  function Averages(ranges: seq<real>, length: int): (a: seq<real>)
    requires length >= 1
    ensures |a| == |ranges|
    ensures forall i :: 0 <= i < |ranges| ==> a[i] == Mean(Window(ranges, i, length))
  {
    seq(|ranges|, i requires 0 <= i < |ranges| => Mean(Window(ranges, i, length)))
  }

  /** `current_range / avg_range if avg_range != 0 else 0` */
  function Ratio(range: real, average: real): (q: real)
    ensures average != 0.0 ==> q * average == range
    ensures average == 0.0 ==> q == 0.0
  {
    if average != 0.0 then range / average else 0.0
  }

  /** What the source stores for one candle, given the average computed for its index. */
  predicate Describes(r: CwrRecord, c: Candle, average: real) {
    && r.timestamp == c.timestamp && r.open == c.open && r.high == c.high
    && r.low == c.low && r.close == c.close && r.volume == c.volume
    && r.currentRange == c.high - c.low
    && r.averageRange == average
    && r.cwr == Ratio(r.currentRange, average)
    && r.baseline == 1.0
  }

  /**
   * The averaging loop of `calculate_cwr_standalone`: one mean per range, of the trailing window.
   * It raises exactly when a window comes out empty, which happens at the first index when
   * `length` is not positive.
   */
  method TrailingAverages(ranges: seq<real>, length: int) returns (res: Result<seq<real>, CwrError>)
    ensures res.Failure? <==> length < 1 && |ranges| > 0
    ensures res.Success? && |ranges| > 0 ==> length >= 1 && res.value == Averages(ranges, length)
    ensures res.Success? ==> |res.value| == |ranges|
  {
    var averageRanges: seq<real> := [];
    var i := 0;
    while i < |ranges|
      invariant 0 <= i <= |ranges|
      invariant i > 0 ==> length >= 1
      invariant |averageRanges| == i
      invariant forall k :: 0 <= k < i ==> averageRanges[k] == Mean(Window(ranges, k, length))
    {
      var window: seq<real>;
      if i < length - 1 {
        window := ranges[..i + 1];
      } else {
        // with a non-positive length the slice start lies past its end and the slice is empty
        var start := i - length + 1;
        window := if start <= i + 1 then ranges[start..i + 1] else [];
      }
      if |window| == 0 {
        return Failure(ZeroDivision);
      }
      assert window == Window(ranges, i, length);
      averageRanges := averageRanges + [Sum(window) / |window| as real];
      i := i + 1;
    }
    return Success(averageRanges);
  }

  /**
   * `calculate_cwr_standalone`: fails exactly when a window comes out empty (a non-positive
   * `length` with at least one candle); otherwise one record per candle, in input order,
   * copying the candle and carrying its range, its trailing average, its CWR and the baseline.
   */
  method CalculateCwrStandalone(data: seq<Candle>, length: int := 20) returns (res: Result<seq<CwrRecord>, CwrError>)
    ensures res.Failure? <==> length < 1 && |data| > 0
    ensures res.Success? ==> |res.value| == |data|
    ensures res.Success? && |data| > 0 ==>
      length >= 1 &&
      forall i :: 0 <= i < |data| ==> Describes(res.value[i], data[i], Averages(Ranges(data), length)[i])
  {
    var ranges := Ranges(data);

    var averaged := TrailingAverages(ranges, length);
    if averaged.Failure? {
      return Failure(averaged.error);
    }
    var averageRanges := averaged.value;

    var results: seq<CwrRecord> := [];
    var i := 0;
    while i < |ranges|
      invariant 0 <= i <= |ranges|
      invariant |results| == i
      invariant forall k {:trigger results[k]} :: 0 <= k < i ==> Describes(results[k], data[k], averageRanges[k])
    {
      var currentRange, avgRange := ranges[i], averageRanges[i];
      var cwr := Ratio(currentRange, avgRange);
      var record := CwrRecord(data[i].timestamp, data[i].open, data[i].high, data[i].low,
                              data[i].close, data[i].volume, currentRange, avgRange, cwr, 1.0);
      results := results + [record];
      i := i + 1;
    }
    return Success(results);
  }

  /** The CWR column of the results, in order. */
  function Cwrs(results: seq<CwrRecord>): seq<real> {
    seq(|results|, j requires 0 <= j < |results| => results[j].cwr)
  }

  predicate IsPositive(x: real) {
    x > 0.0
  }

  /** `[r['cwr'] for r in cwr_results if r['cwr'] > 0]`: the values the statistics look at. */
  function PositiveCwrs(results: seq<CwrRecord>): (vs: seq<real>)
    ensures |vs| <= |results|
    ensures forall k :: 0 <= k < |vs| ==> vs[k] > 0.0 && vs[k] in Cwrs(results)
    ensures forall j :: 0 <= j < |results| && results[j].cwr > 0.0 ==> results[j].cwr in vs
    ensures |vs| == |PositiveIndices(results)|
    ensures forall x :: x > 0.0 ==> multiset(vs)[x] == multiset(Cwrs(results))[x]
  {
    var cwrs := Cwrs(results);
    assert forall j :: 0 <= j < |results| ==> cwrs[j] == results[j].cwr;
    PositiveCount(results);
    FilterSplit(cwrs, IsPositive, NotPositive);
    assert forall x :: x > 0.0 ==> x !in Filter(cwrs, NotPositive);
    Filter(cwrs, IsPositive)
  }

  predicate NotPositive(x: real) {
    !IsPositive(x)
  }

  /** The positions of the records whose CWR is positive. */
  function PositiveIndices(results: seq<CwrRecord>): set<int> {
    set j | 0 <= j < |results| && results[j].cwr > 0.0
  }

  /** Filtering keeps one value per positive record, repeated values included. */
  lemma {:induction false} PositiveCount(results: seq<CwrRecord>)
    ensures |Filter(Cwrs(results), IsPositive)| == |PositiveIndices(results)|
  {
    if results == [] {
      assert PositiveIndices(results) == {};
    } else {
      var n := |results| - 1;
      var init, last := results[..n], results[n];
      PositiveCount(init);
      assert Cwrs(results) == Cwrs(init) + [last.cwr];
      FilterConcat(Cwrs(init), [last.cwr], IsPositive);
      assert [last.cwr][1..] == [];
      if last.cwr > 0.0 {
        assert PositiveIndices(results) == PositiveIndices(init) + {n};
      } else {
        assert PositiveIndices(results) == PositiveIndices(init);
      }
    }
  }

  // ---------------------------------------------------------------------------
  // Properties of the specification
  // ---------------------------------------------------------------------------

  // Facts about real division, proved apart from the larger contexts that use them.
  lemma RatioToSelf(x: real)
    ensures Ratio(x, x) == if x != 0.0 then 1.0 else 0.0
  {
  }

  lemma DivNonNegative(a: real, b: real)
    requires a >= 0.0 && b > 0.0
    ensures a / b >= 0.0
    ensures a / b == 0.0 <==> a == 0.0
  {
  }

  lemma {:induction false} SumAppend(s: seq<real>, x: real)
    ensures Sum(s + [x]) == Sum(s) + x
  {
    if s != [] {
      assert (s + [x])[1..] == s[1..] + [x];
      SumAppend(s[1..], x);
    }
  }

  /** A sum of non-negative numbers is non-negative, and zero only when every term is. */
  lemma {:induction false} SumNonNegative(s: seq<real>)
    requires forall k :: 0 <= k < |s| ==> s[k] >= 0.0
    ensures Sum(s) >= 0.0
    ensures Sum(s) == 0.0 <==> forall k :: 0 <= k < |s| ==> s[k] == 0.0
  {
    if s != [] {
      SumNonNegative(s[1..]);
      assert forall k :: 1 <= k < |s| ==> s[k] == s[1..][k - 1];
    }
  }

  /**
   * The window sum can be maintained by a running total: moving from index `i` to `i+1`
   * adds the new range and, once the window is full, drops the one that falls out.
   */
  lemma {:induction false} SlidingWindowSum(ranges: seq<real>, length: int, i: nat)
    requires length >= 1 && i + 1 < |ranges|
    ensures Sum(Window(ranges, i + 1, length))
         == Sum(Window(ranges, i, length)) + ranges[i + 1] - (if i + 1 >= length then ranges[i + 1 - length] else 0.0)
  {
    var lo := WindowStart(i, length);
    var w, w' := Window(ranges, i, length), Window(ranges, i + 1, length);
    if i + 1 < length {
      assert w' == w + [ranges[i + 1]];
      SumAppend(w, ranges[i + 1]);
    } else {
      var middle := ranges[lo + 1..i + 1];
      assert w == ranges[lo..i + 1];
      assert w' == ranges[lo + 1..i + 2];
      assert w[1..] == middle;
      assert w == [w[0]] + w[1..];
      assert w' == middle + [ranges[i + 1]];
      SumAppend(middle, ranges[i + 1]);
    }
  }

  /** Within the warm-up, the average is the mean of every range so far. */
  lemma WarmUpAverage(ranges: seq<real>, length: int, i: nat)
    requires length >= 1 && i < |ranges| && i < length
    ensures Averages(ranges, length)[i] == Mean(ranges[..i + 1])
  {
  }

  /** Once `length` ranges exist, the average is over exactly the last `length` of them. */
  lemma FullWindowAverage(ranges: seq<real>, length: int, i: nat)
    requires length >= 1 && length <= i < |ranges|
    ensures Averages(ranges, length)[i] == Mean(ranges[i + 1 - length..i + 1])
  {
  }

  /** With `length == 1` every average is the candle's own range, so each CWR is 1, or 0 for a zero range. */
  lemma LengthOne(ranges: seq<real>)
    ensures Averages(ranges, 1) == ranges
    ensures forall i :: 0 <= i < |ranges| ==>
      Ratio(ranges[i], Averages(ranges, 1)[i]) == if ranges[i] != 0.0 then 1.0 else 0.0
  {
    var averages := Averages(ranges, 1);
    forall i | 0 <= i < |ranges| ensures averages[i] == ranges[i] {
      var w := Window(ranges, i, 1);
      assert w == [ranges[i]];
      assert Sum(w) == ranges[i];
    }
    assert averages == ranges;
    forall i | 0 <= i < |ranges| ensures Ratio(ranges[i], averages[i]) == if ranges[i] != 0.0 then 1.0 else 0.0 {
      RatioToSelf(ranges[i]);
    }
  }

  /**
   * For non-negative ranges, every average and every CWR is non-negative, and an average is
   * zero exactly when every range in its window is zero.
   */
  lemma NonNegative(ranges: seq<real>, length: int)
    requires length >= 1
    requires forall j :: 0 <= j < |ranges| ==> ranges[j] >= 0.0
    ensures forall i :: 0 <= i < |ranges| ==>
      && Averages(ranges, length)[i] >= 0.0
      && Ratio(ranges[i], Averages(ranges, length)[i]) >= 0.0
      && (Averages(ranges, length)[i] == 0.0 <==> forall j :: WindowStart(i, length) <= j <= i ==> ranges[j] == 0.0)
  {
    var averages := Averages(ranges, length);
    forall i | 0 <= i < |ranges|
      ensures averages[i] >= 0.0
      ensures Ratio(ranges[i], averages[i]) >= 0.0
      ensures averages[i] == 0.0 <==> forall j :: WindowStart(i, length) <= j <= i ==> ranges[j] == 0.0
    {
      var w := Window(ranges, i, length);
      SumNonNegative(w);
      DivNonNegative(Sum(w), |w| as real);
      var lo := WindowStart(i, length);
      assert (forall k :: 0 <= k < |w| ==> w[k] == 0.0) <==> (forall j :: lo <= j <= i ==> ranges[j] == 0.0) by {
        assert forall j :: lo <= j <= i ==> ranges[j] == w[j - lo];
      }
      if averages[i] != 0.0 {
        DivNonNegative(ranges[i], averages[i]);
      }
    }
  }

  /** When no candle has `high < low`, the same holds of the candles' own ranges. */
  lemma CandlesNonNegative(data: seq<Candle>, length: int)
    requires length >= 1
    requires forall i :: 0 <= i < |data| ==> data[i].high >= data[i].low
    ensures forall i :: 0 <= i < |data| ==>
      && Averages(Ranges(data), length)[i] >= 0.0
      && Ratio(Ranges(data)[i], Averages(Ranges(data), length)[i]) >= 0.0
  {
    NonNegative(Ranges(data), length);
  }

  /** The rising example: ranges 2, 4, 6, 8 with `length == 2` average to 2, 3, 5, 7. */
  lemma RisingExample()
    ensures Averages([2.0, 4.0, 6.0, 8.0], 2) == [2.0, 3.0, 5.0, 7.0]
  {
    var r := [2.0, 4.0, 6.0, 8.0];
    var a := Averages(r, 2);
    assert Window(r, 0, 2) == [2.0];
    assert Window(r, 1, 2) == [2.0, 4.0];
    assert Window(r, 2, 2) == [4.0, 6.0];
    assert Window(r, 3, 2) == [6.0, 8.0];
    assert Sum([8.0]) == 8.0;
    assert Sum([6.0]) == 6.0;
    assert Sum([4.0]) == 4.0;
    assert Sum([2.0]) == 2.0;
    assert Sum([2.0, 4.0]) == 6.0;
    assert Sum([4.0, 6.0]) == 10.0;
    assert Sum([6.0, 8.0]) == 14.0;
    assert a == [2.0, 3.0, 5.0, 7.0];
  }

  /** A single candle with a window of 20 is averaged over itself alone. */
  lemma SingleCandleExample()
    ensures Averages([5.0], 20) == [5.0]
  {
    assert Window([5.0], 0, 20) == [5.0];
  }
}
