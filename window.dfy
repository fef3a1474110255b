/**
 * Window aggregation over the hourly series returned by the weather source,
 * and the read of the representative ("current") hour at offset 24.
 *
 * The source works with Python/numpy semantics: a slice `s[lo:hi]` clamps
 * both bounds to the length of `s` (and is empty when they cross), while an
 * index read `s[i]` outside the series raises.  Precipitation is modelled with
 * exact `real` arithmetic instead of float32.
 */
module Window {
  import opened Common

  /** The three hourly series of one weather response, aligned by hour offset. */
  datatype Series = Series(precipitation: seq<real>, probability: seq<real>, weatherCode: seq<real>)

  /** The row stored as the "current" observation of a city. */
  datatype Observation = Observation(precipitation: real, probability: real, weatherCode: int)

  function Min(a: nat, b: nat): nat { if a <= b then a else b }

  /** Python's built-in `sum` over a sequence of numbers (empty sum is 0). */
  function Sum(s: seq<real>): real
  {
    if s == [] then 0.0 else s[0] + Sum(s[1..])
  }

  /** Python slice `s[lo:hi]` for non-negative bounds: both bounds clamp to `|s|`. */
  function Slice<T>(s: seq<T>, lo: nat, hi: nat): seq<T>
  {
    var a, b := Min(lo, |s|), Min(hi, |s|);
    if a <= b then s[a..b] else []
  }

  /** Python index `s[i]` for a non-negative index: `None` stands for the IndexError. */
  function At<T>(s: seq<T>, i: nat): (r: Option<T>)
    ensures r.Some? <==> i < |s|
    ensures r.Some? ==> r.value == s[i]
  {
    if i < |s| then Some(s[i]) else None
  }

  /** `int(x)` on a float: truncation toward zero. */
  function TruncToInt(x: real): (r: int)
    ensures 0.0 <= x ==> r as real <= x < r as real + 1.0
    ensures x < 0.0 ==> r as real - 1.0 < x <= r as real
  {
    if 0.0 <= x then x.Floor else -((-x).Floor)
  }

  /** The trailing 24-hour accumulation: the sum of the slice `[:24]`. */
  function Accumulated24h(p: seq<real>): real
  {
    Sum(Slice(p, 0, 24))
  }

  /** The next-3-hour forecast: the sum of the slice `[24:27]`. */
  function Forecast3h(p: seq<real>): real
  {
    Sum(Slice(p, 24, 27))
  }

  /**
   * The arguments of the history insert: the precipitation, the probability and
   * the weather code (truncated to an integer) at offset 24, read in that order.
   * `None` stands for the IndexError of the first read that falls off its series.
   */
  function RepresentativeHour(w: Series): Option<Observation>
  {
    match At(w.precipitation, 24)
    case None => None
    case Some(p) =>
      match At(w.probability, 24)
      case None => None
      case Some(q) =>
        match At(w.weatherCode, 24)
        case None => None
        case Some(c) => Some(Observation(p, q, TruncToInt(c)))
  }

  // ---------------------------------------------------------------------
  // Properties of the sums

  /** A slice holds the elements from `lo` on, as many as lie between the two
      clamped bounds (none when they cross). */
  lemma SliceSpec<T>(s: seq<T>, lo: nat, hi: nat)
    ensures |Slice(s, lo, hi)| == if Min(lo, |s|) <= Min(hi, |s|) then Min(hi, |s|) - Min(lo, |s|) else 0
    ensures forall k :: 0 <= k < |Slice(s, lo, hi)| ==> Slice(s, lo, hi)[k] == s[lo + k]
  {
  }

  lemma {:induction false} SumAppend(a: seq<real>, b: seq<real>)
    ensures Sum(a + b) == Sum(a) + Sum(b)
  {
    if a == [] {
      assert a + b == b;
    } else {
      assert (a + b)[1..] == a[1..] + b;
      SumAppend(a[1..], b);
    }
  }

  lemma {:induction false} SumNonnegative(s: seq<real>)
    requires forall k :: 0 <= k < |s| ==> 0.0 <= s[k]
    ensures 0.0 <= Sum(s)
  {
    if s != [] {
      SumNonnegative(s[1..]);
    }
  }

  /** Replacing one element changes the sum by exactly the difference. */
  lemma {:induction false} SumUpdate(s: seq<real>, i: nat, v: real)
    requires i < |s|
    ensures Sum(s[i := v]) == Sum(s) - s[i] + v
  {
    if i == 0 {
      assert s[i := v][1..] == s[1..];
    } else {
      assert s[i := v][1..] == s[1..][i - 1 := v];
      SumUpdate(s[1..], i - 1, v);
    }
  }

  // ---------------------------------------------------------------------
  // Properties of the two windows

  /** The accumulated sum covers the first `min(24, n)` values. */
  lemma AccumulatedWindow(p: seq<real>)
    ensures Accumulated24h(p) == Sum(p[..Min(24, |p|)])
  {
    assert Slice(p, 0, 24) == p[..Min(24, |p|)];
  }

  /** The forecast sum covers the values at offsets `24 .. min(27, n) - 1`. */
  lemma ForecastWindow(p: seq<real>)
    ensures Forecast3h(p) == Sum(p[Min(24, |p|)..Min(27, |p|)])
  {
    assert Slice(p, 24, 27) == p[Min(24, |p|)..Min(27, |p|)];
  }

  /** The two windows are adjacent: together they sum the first `min(27, n)` values. */
  lemma WindowsPartition(p: seq<real>)
    ensures Accumulated24h(p) + Forecast3h(p) == Sum(p[..Min(27, |p|)])
  {
    AccumulatedWindow(p);
    ForecastWindow(p);
    assert p[..Min(27, |p|)] == p[..Min(24, |p|)] + p[Min(24, |p|)..Min(27, |p|)];
    SumAppend(p[..Min(24, |p|)], p[Min(24, |p|)..Min(27, |p|)]);
  }

  /** For a full-length series the forecast is exactly the three hours 24, 25, 26. */
  lemma FullSeriesWindows(p: seq<real>)
    requires |p| >= 27
    ensures Accumulated24h(p) == Sum(p[..24])
    ensures Forecast3h(p) == p[24] + p[25] + p[26]
  {
    AccumulatedWindow(p);
    ForecastWindow(p);
    var f := p[24..27];
    assert f[1..][1..][1..] == [];
    assert Sum(f[1..][1..]) == f[2];
    assert Sum(f[1..]) == f[1] + f[2];
  }

  /** A series of at most 24 hours is summed whole, and its forecast sum is 0 (no error). */
  lemma ShortSeriesWindows(p: seq<real>)
    requires |p| <= 24
    ensures Accumulated24h(p) == Sum(p)
    ensures Forecast3h(p) == 0.0
  {
    AccumulatedWindow(p);
    assert p[..|p|] == p;
  }

  /** Changing one hour inside `[0, 24)` shifts the accumulated sum by the difference;
      changing any other hour leaves it unchanged. */
  lemma {:induction false} AccumulatedUpdate(p: seq<real>, i: nat, v: real)
    requires i < |p|
    ensures i < 24 ==> Accumulated24h(p[i := v]) == Accumulated24h(p) - p[i] + v
    ensures 24 <= i ==> Accumulated24h(p[i := v]) == Accumulated24h(p)
  {
    var n := Min(24, |p|);
    AccumulatedWindow(p);
    AccumulatedWindow(p[i := v]);
    if i < 24 {
      assert p[i := v][..n] == p[..n][i := v];
      SumUpdate(p[..n], i, v);
    } else {
      assert p[i := v][..n] == p[..n];
    }
  }

  /** Changing one hour inside `[24, 27)` shifts the forecast sum by the difference;
      changing any other hour leaves it unchanged. */
  lemma {:induction false} ForecastUpdate(p: seq<real>, i: nat, v: real)
    requires i < |p|
    ensures 24 <= i < 27 ==> Forecast3h(p[i := v]) == Forecast3h(p) - p[i] + v
    ensures (i < 24 || 27 <= i) ==> Forecast3h(p[i := v]) == Forecast3h(p)
  {
    var a, b := Min(24, |p|), Min(27, |p|);
    ForecastWindow(p);
    ForecastWindow(p[i := v]);
    if 24 <= i < 27 {
      assert p[i := v][a..b] == p[a..b][i - 24 := v];
      SumUpdate(p[a..b], i - 24, v);
    } else {
      assert p[i := v][a..b] == p[a..b];
    }
  }

  /** With non-negative precipitation both aggregates are non-negative. */
  lemma AggregatesNonnegative(p: seq<real>)
    requires forall k :: 0 <= k < |p| ==> 0.0 <= p[k]
    ensures 0.0 <= Accumulated24h(p) && 0.0 <= Forecast3h(p)
  {
    SumNonnegative(Slice(p, 0, 24));
    SumNonnegative(Slice(p, 24, 27));
  }

  /** The representative hour exists exactly when all three series reach offset 24,
      and then holds the three values at that offset. */
  lemma RepresentativeHourAt(w: Series)
    ensures RepresentativeHour(w).Some? <==>
      (|w.precipitation| > 24 && |w.probability| > 24 && |w.weatherCode| > 24)
    ensures RepresentativeHour(w).Some? ==>
      RepresentativeHour(w).value ==
        Observation(w.precipitation[24], w.probability[24], TruncToInt(w.weatherCode[24]))
  {
  }
}
