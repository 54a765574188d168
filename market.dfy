/** Indicator computation over a history of candlestick bars: windowed
    moving averages of the close, percent changes, the volume ratio and the
    average true range. Fetching bars and prices over HTTP is outside the
    model; the bars arrive as a parameter. */
module Market {
  import opened Wrappers
  import opened Types
  import opened Numbers

  /** Fewer bars than this is an error. */
  const MinKlines: nat := 5

  datatype IndicatorError = NotEnoughKlines(count: nat)

  function Closes(klines: seq<Kline>): (r: seq<real>)
    ensures |r| == |klines| && forall i :: 0 <= i < |klines| ==> r[i] == klines[i].close
  {
    seq(|klines|, i requires 0 <= i < |klines| => klines[i].close)
  }

  function Volumes(klines: seq<Kline>): (r: seq<real>)
    ensures |r| == |klines| && forall i :: 0 <= i < |klines| ==> r[i] == klines[i].volume
  {
    seq(|klines|, i requires 0 <= i < |klines| => klines[i].volume)
  }

  /** The last min(window, |values|) values. */
  function LastWindow(values: seq<real>, window: nat): seq<real>
  {
    if window <= |values| then values[|values| - window..] else values
  }

  /** `avg_last`: the mean of the last min(window, len) values. */
  function AvgLast(values: seq<real>, window: nat): real
    requires |values| > 0 && window > 0
  {
    Mean(LastWindow(values, window))
  }

  /** A moving average never leaves the range of the values it averages. */
  lemma AvgLastBounds(values: seq<real>, window: nat, lo: real, hi: real)
    requires |values| > 0 && window > 0
    requires forall i :: 0 <= i < |values| ==> lo <= values[i] <= hi
    ensures lo <= AvgLast(values, window) <= hi
  {
    var w := LastWindow(values, window);
    assert forall k :: 0 <= k < |w| ==> w[k] == values[|values| - |w| + k];
    MeanBounds(w, lo, hi);
  }

  /** `pct_change`: the percent change of the last value over the one
      `periods` earlier; 0 when the history is too short or the earlier
      value is (numerically) zero. Otherwise applying the change to the
      earlier value gives back the last one. */
  function PctChange(values: seq<real>, periods: nat): (r: real)
    requires |values| > 0
    ensures |values| <= periods ==> r == 0.0
    ensures |values| > periods ==>
      var last := values[|values| - 1];
      var prev := values[|values| - 1 - periods];
      && (Abs(prev) < FloatEpsilon ==> r == 0.0)
      && (Abs(prev) >= FloatEpsilon ==> prev + prev * r / 100.0 == last)
  {
    if |values| <= periods then 0.0
    else
      var last := values[|values| - 1];
      var prev := values[|values| - 1 - periods];
      if Abs(prev) < FloatEpsilon then 0.0 else (last - prev) / prev * 100.0
  }

  /** Against a positive earlier value, the change is positive exactly when
      the price rose and negative exactly when it fell. */
  lemma PctChangeSign(values: seq<real>, periods: nat)
    requires |values| > periods
    requires values[|values| - 1 - periods] >= FloatEpsilon
    ensures PctChange(values, periods) > 0.0 <==> values[|values| - 1] > values[|values| - 1 - periods]
    ensures PctChange(values, periods) < 0.0 <==> values[|values| - 1] < values[|values| - 1 - periods]
  {
    var prev := values[|values| - 1 - periods];
    var r := PctChange(values, periods);
    assert prev * r / 100.0 == values[|values| - 1] - prev;
    assert prev * r == (values[|values| - 1] - prev) * 100.0;
  }

  /** The volume window: the last min(20, len) bars. */
  const VolumeWindow: nat := 20

  /** `volume_ratio`: the last volume over the mean volume of the window,
      or 0 when that mean is (numerically) zero. */
  function VolumeRatio(volumes: seq<real>): (r: real)
    requires |volumes| > 0
    ensures Abs(AvgLast(volumes, VolumeWindow)) < FloatEpsilon ==> r == 0.0
    ensures Abs(AvgLast(volumes, VolumeWindow)) >= FloatEpsilon ==>
      r * AvgLast(volumes, VolumeWindow) == volumes[|volumes| - 1]
  {
    var avg := AvgLast(volumes, VolumeWindow);
    if Abs(avg) < FloatEpsilon then 0.0 else volumes[|volumes| - 1] / avg
  }

  /** With non-negative volumes the ratio is never negative and never
      exceeds the window length: the last volume is part of the window. */
  lemma VolumeRatioBounded(volumes: seq<real>)
    requires |volumes| > 0
    requires forall i :: 0 <= i < |volumes| ==> volumes[i] >= 0.0
    ensures 0.0 <= VolumeRatio(volumes) <= |LastWindow(volumes, VolumeWindow)| as real
  {
    var w := LastWindow(volumes, VolumeWindow);
    var avg := AvgLast(volumes, VolumeWindow);
    var last := volumes[|volumes| - 1];
    assert forall k :: 0 <= k < |w| ==> w[k] == volumes[|volumes| - |w| + k];
    assert w[|w| - 1] == last;
    ElementAtMostSum(w, |w| - 1);
    if Abs(avg) >= FloatEpsilon {
      RatioOfPartBounded(last, Sum(w), |w| as real);
    }
  }

  /** For 0 <= part <= total and n > 0 with a numerically non-zero mean
      total/n, part/(total/n) lies in [0, n]. */
  lemma RatioOfPartBounded(part: real, total: real, n: real)
    requires 0.0 <= part <= total && n > 0.0
    requires Abs(total / n) >= FloatEpsilon
    ensures 0.0 <= part / (total / n) <= n
  {
    var avg := total / n;
    assert avg > 0.0;
    var r := part / avg;
    assert r * avg == part;
    assert avg * n == total;
    assert r >= 0.0;
    assert n == total / avg;
    assert r <= n;
  }

  // ---------------------------------------------------------------- average true range

  /** The close before bar `i`; the first bar stands in for its own. */
  function PrevClose(klines: seq<Kline>, i: nat): real
    requires i < |klines|
  {
    if i == 0 then klines[i].close else klines[i - 1].close
  }

  /** The true range of a bar: the largest of its own range and its high's
      and low's distances from the previous close. */
  function TrueRange(bar: Kline, prevClose: real): (r: real)
    ensures r >= bar.high - bar.low
    ensures r >= Abs(bar.high - prevClose) && r >= Abs(bar.low - prevClose)
    ensures r == bar.high - bar.low || r == Abs(bar.high - prevClose) || r == Abs(bar.low - prevClose)
  {
    Max(Max(bar.high - bar.low, Abs(bar.high - prevClose)), Abs(bar.low - prevClose))
  }

  /** `14.min(len.saturating_sub(1))`: at most 14 bars, and never the first
      bar, so with two or more bars the window is non-empty and starts at
      index 1 or later. */
  function AtrPeriod(len: nat): (r: nat)
    ensures r <= 14 && r < len + 1
    ensures len >= 2 ==> 1 <= r && r <= len - 1
    ensures len <= 1 ==> r == 0
  {
    if len == 0 then 0 else if 14 <= len - 1 then 14 else len - 1
  }

  /** True ranges of bars `start` up to (not including) `stop`. */
  function TrueRanges(klines: seq<Kline>, start: nat, stop: nat): (r: seq<real>)
    requires start <= stop <= |klines|
    ensures |r| == stop - start
    decreases stop - start
  {
    if stop == start then []
    else TrueRanges(klines, start, stop - 1) + [TrueRange(klines[stop - 1], PrevClose(klines, stop - 1))]
  }

  /** The average true range over the ATR window, 0 when the window is empty. */
  function Atr(klines: seq<Kline>): real
  {
    var p := AtrPeriod(|klines|);
    if p > 0 then Sum(TrueRanges(klines, |klines| - p, |klines|)) / p as real else 0.0
  }

  /** The ATR loop: accumulates the true range of each bar of the window
      and divides by the number of bars visited. */
  method AverageTrueRange(klines: seq<Kline>) returns (atr: real)
    ensures atr == Atr(klines)
  {
    var len := |klines|;
    var period := AtrPeriod(len);
    var atrSum := 0.0;
    var atrCount: nat := 0;
    for i := len - period to len
      invariant atrSum == Sum(TrueRanges(klines, len - period, i))
      invariant atrCount == i - (len - period)
    {
      var tr := TrueRange(klines[i], PrevClose(klines, i));
      TrueRangesSumStep(klines, len - period, i);
      atrSum := atrSum + tr;
      atrCount := atrCount + 1;
    }
    assert atrCount == period;
    atr := if atrCount > 0 then atrSum / atrCount as real else 0.0;
  }

  /** Extending the window by one bar adds that bar's true range to the sum. */
  lemma TrueRangesSumStep(klines: seq<Kline>, start: nat, i: nat)
    requires start <= i < |klines|
    ensures Sum(TrueRanges(klines, start, i + 1))
         == Sum(TrueRanges(klines, start, i)) + TrueRange(klines[i], PrevClose(klines, i))
  {
    SumAppend(TrueRanges(klines, start, i), TrueRange(klines[i], PrevClose(klines, i)));
  }

  /** Entry `k` of the window is the true range of bar `start + k`. */
  lemma {:induction false} TrueRangeAt(klines: seq<Kline>, start: nat, stop: nat, k: nat)
    requires start <= stop <= |klines| && k < stop - start
    ensures TrueRanges(klines, start, stop)[k] == TrueRange(klines[start + k], PrevClose(klines, start + k))
    decreases stop - start
  {
    if k < stop - 1 - start {
      TrueRangeAt(klines, start, stop - 1, k);
    }
  }

  /** The ATR is never negative, and it is at least the smallest bar range
      of the window. */
  lemma AtrAtLeastRange(klines: seq<Kline>, lo: real)
    requires |klines| >= 2
    requires forall i :: 0 <= i < |klines| ==> klines[i].high - klines[i].low >= lo
    ensures Atr(klines) >= 0.0
    ensures Atr(klines) >= lo
  {
    var p := AtrPeriod(|klines|);
    var trs := TrueRanges(klines, |klines| - p, |klines|);
    TrueRangesAtLeast(klines, |klines| - p, |klines|, lo);
    assert Atr(klines) == Mean(trs);
    MeanAtLeast(trs, 0.0);
    MeanAtLeast(trs, lo);
  }

  lemma TrueRangesAtLeast(klines: seq<Kline>, start: nat, stop: nat, lo: real)
    requires start <= stop <= |klines|
    requires forall i :: 0 <= i < |klines| ==> klines[i].high - klines[i].low >= lo
    ensures forall k :: 0 <= k < stop - start ==> TrueRanges(klines, start, stop)[k] >= 0.0
    ensures forall k :: 0 <= k < stop - start ==> TrueRanges(klines, start, stop)[k] >= lo
  {
    var trs := TrueRanges(klines, start, stop);
    forall k | 0 <= k < stop - start ensures trs[k] >= 0.0 && trs[k] >= lo {
      var bar := klines[start + k];
      TrueRangeAt(klines, start, stop, k);
      assert bar.high - bar.low >= lo;
    }
  }

  /** `atr_percent`: the ATR as a percentage of the latest close, 0 when
      that close is (numerically) zero. */
  function AtrPercent(atr: real, latestClose: real): (r: real)
    ensures Abs(latestClose) < FloatEpsilon ==> r == 0.0
    ensures Abs(latestClose) >= FloatEpsilon ==> r * latestClose == atr * 100.0
  {
    if Abs(latestClose) < FloatEpsilon then 0.0 else atr / latestClose * 100.0
  }

  // ---------------------------------------------------------------- calculate_indicators

  method CalculateIndicators(klines: seq<Kline>) returns (r: Result<TechnicalIndicators, IndicatorError>)
    ensures r.Failure? <==> |klines| < MinKlines
    ensures r.Failure? ==> r.error == NotEnoughKlines(|klines|)
    ensures r.Success? ==>
      var closes := Closes(klines);
      var ind := r.value;
      && ind.sma5 == AvgLast(closes, 5) && ind.sma20 == AvgLast(closes, 20)
      && ind.sma50 == AvgLast(closes, 50) && ind.sma100 == AvgLast(closes, 100)
      && ind.priceChange1 == PctChange(closes, 1) && ind.priceChange3 == PctChange(closes, 3)
      && ind.priceChange6 == PctChange(closes, 6) && ind.priceChange12 == PctChange(closes, 12)
      && ind.volumeRatio == VolumeRatio(Volumes(klines))
      && ind.atr14 == Atr(klines)
      && ind.atrPercent == AtrPercent(Atr(klines), klines[|klines| - 1].close)
  {
    if |klines| < MinKlines {
      return Failure(NotEnoughKlines(|klines|));
    }
    var closes := Closes(klines);
    var volumes := Volumes(klines);
    var atr14 := AverageTrueRange(klines);
    var ind := TechnicalIndicators(
      sma5 := AvgLast(closes, 5),
      sma20 := AvgLast(closes, 20),
      sma50 := AvgLast(closes, 50),
      sma100 := AvgLast(closes, 100),
      priceChange1 := PctChange(closes, 1),
      priceChange3 := PctChange(closes, 3),
      priceChange6 := PctChange(closes, 6),
      priceChange12 := PctChange(closes, 12),
      atr14 := atr14,
      atrPercent := AtrPercent(atr14, closes[|closes| - 1]),
      volumeRatio := VolumeRatio(volumes));
    return Success(ind);
  }

  /** Every moving average of a successful computation lies within the
      range of the closes. */
  lemma SmasWithinCloses(klines: seq<Kline>, lo: real, hi: real)
    requires |klines| >= MinKlines
    requires forall i :: 0 <= i < |klines| ==> lo <= klines[i].close <= hi
    ensures lo <= AvgLast(Closes(klines), 5) <= hi && lo <= AvgLast(Closes(klines), 20) <= hi
    ensures lo <= AvgLast(Closes(klines), 50) <= hi && lo <= AvgLast(Closes(klines), 100) <= hi
  {
    var closes := Closes(klines);
    AvgLastBounds(closes, 5, lo, hi);
    AvgLastBounds(closes, 20, lo, hi);
    AvgLastBounds(closes, 50, lo, hi);
    AvgLastBounds(closes, 100, lo, hi);
  }
}
