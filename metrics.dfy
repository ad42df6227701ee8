/** Performance metrics of a backtest (src/backtest/metrics.py) and the daily-return series the
    engine feeds them. Total return, drawdown and the Calmar guard are exact over the reals; the
    standard deviation, square root and power that the other ratios use are supplied as
    uninterpreted functions, and only their zero guards are modelled exactly. */
module Metrics {
  import opened Wrappers
  import opened Types
  import Indicators

  /** `pandas.Series.std`, `numpy.sqrt` and `**` on floats. */
  datatype Numerics = Numerics(std: seq<real> -> real, sqrt: real -> real, pow: (real, real) -> real)

  function Last(v: seq<real>): real
    requires |v| > 0
  {
    v[|v| - 1]
  }

  /** Relative change from `prev` to `cur`; a zero previous value gives a NaN that is filled
      with 0. */
  function Change(prev: real, cur: real): real
  {
    if prev == 0.0 then 0.0 else (cur - prev) / prev
  }

  /** A change applied to its starting value gives the new value. */
  lemma ChangeRestoresValue(prev: real, cur: real)
    requires prev != 0.0
    ensures prev * (1.0 + Change(prev, cur)) == cur
  {
  }

  /** `pct_change().fillna(0)`: the first return is 0, every later one is the change from the
      previous value. */
  function PctChange(v: seq<real>): (r: seq<real>)
    ensures |r| == |v|
    ensures |v| > 0 ==> r[0] == 0.0
    ensures forall i {:trigger r[i]} :: 0 < i < |v| ==> r[i] == Change(v[i - 1], v[i])
  {
    seq(|v|, i requires 0 <= i < |v| => if i == 0 then 0.0 else Change(v[i - 1], v[i]))
  }

  /** Product of the growth factors `1 + r` of a return series. */
  function Compound(r: seq<real>): real
  {
    if |r| == 0 then 1.0 else Compound(r[..|r| - 1]) * (1.0 + r[|r| - 1])
  }

  /** Gain of the last value over the first, as a fraction of the first; 0 for an empty series
      or a zero first value. */
  function TotalReturn(v: seq<real>): (r: real)
    ensures (|v| == 0 || v[0] == 0.0) ==> r == 0.0
    ensures |v| > 0 && v[0] != 0.0 ==> (r == 0.0 <==> Last(v) == v[0])
    ensures |v| > 0 && v[0] > 0.0 ==> (r > 0.0 <==> Last(v) > v[0])
  {
    if |v| == 0 then 0.0
    else if v[0] == 0.0 then 0.0
    else
      QuotientSigns(Last(v) - v[0], v[0]);
      (Last(v) - v[0]) / v[0]
  }

  lemma QuotientSigns(a: real, b: real)
    requires b != 0.0
    ensures a / b == 0.0 <==> a == 0.0
    ensures b > 0.0 ==> (a / b > 0.0 <==> a > 0.0)
  {
    if a / b == 0.0 {
      MultiplyBack(a, b);
    }
  }

  /** A series that never moves has no return. */
  lemma ConstantSeriesHasNoReturn(v: seq<real>)
    requires forall i :: 0 <= i < |v| ==> v[i] == v[0]
    ensures TotalReturn(v) == 0.0
  {
  }

  /** Growth factors that carry each value to the next telescope: the first value times their
      product is the last value. */
  lemma {:induction false} CompoundTelescopes(v: seq<real>, r: seq<real>)
    requires |v| > 0 && |r| == |v| && r[0] == 0.0
    requires forall i {:trigger r[i]} :: 0 < i < |v| ==> v[i - 1] * (1.0 + r[i]) == v[i]
    ensures v[0] * Compound(r) == Last(v)
  {
    if |v| == 1 {
      assert r[..0] == [];
    } else {
      var n := |v| - 1;
      CompoundTelescopes(v[..n], r[..n]);
      var x := Compound(r[..n]);
      assert Compound(r) == x * (1.0 + r[n]);
      assert v[0] * x == v[n - 1];
      assert v[n - 1] * (1.0 + r[n]) == v[n];
      MulAssoc(v[0], x, 1.0 + r[n]);
    }
  }

  lemma MulAssoc(a: real, x: real, y: real)
    ensures a * (x * y) == (a * x) * y
  {
  }

  /** Where no value is zero, each daily return carries the previous value to the next. */
  lemma PctChangeCarries(v: seq<real>)
    requires forall i :: 0 <= i < |v| ==> v[i] != 0.0
    ensures forall i {:trigger PctChange(v)[i]} :: 0 < i < |v| ==> v[i - 1] * (1.0 + PctChange(v)[i]) == v[i]
  {
    forall i | 0 < i < |v|
      ensures v[i - 1] * (1.0 + PctChange(v)[i]) == v[i]
    {
      ChangeRestoresValue(v[i - 1], v[i]);
    }
  }

  /** Compounding the daily returns of a series with no zero value gives back its total return:
      the product of the `1 + r` factors is the last value over the first. */
  lemma CompoundedReturnsGiveTotalReturn(v: seq<real>)
    requires |v| > 0 && forall i :: 0 <= i < |v| ==> v[i] != 0.0
    ensures Compound(PctChange(v)) == 1.0 + TotalReturn(v)
  {
    CompoundOfPctChange(v);
    OnePlusTotalReturn(v);
  }

  /** The first value compounded by the daily returns of a zero-free series is its last value. */
  lemma CompoundOfPctChange(v: seq<real>)
    requires |v| > 0 && forall i :: 0 <= i < |v| ==> v[i] != 0.0
    ensures Compound(PctChange(v)) == Last(v) / v[0]
  {
    PctChangeCarries(v);
    CompoundTelescopes(v, PctChange(v));
    DivideOut(v[0], Compound(PctChange(v)), Last(v));
  }

  /** One plus the total return is the ratio of the last value to the first. */
  lemma OnePlusTotalReturn(v: seq<real>)
    requires |v| > 0 && v[0] != 0.0
    ensures 1.0 + TotalReturn(v) == Last(v) / v[0]
  {
    var r := TotalReturn(v);
    MultiplyBack(Last(v) - v[0], v[0]);
    assert v[0] * (1.0 + r) == Last(v);
    DivideOut(v[0], 1.0 + r, Last(v));
  }

  lemma DivideOut(a: real, c: real, l: real)
    requires a != 0.0 && a * c == l
    ensures c == l / a
  {
  }

  /** `(1 + total_return) ** (252 / days) - 1`; 0 for an empty series. */
  function AnnualReturn(v: seq<real>, num: Numerics): (r: real)
    ensures |v| == 0 ==> r == 0.0
  {
    if |v| == 0 then 0.0
    else num.pow(1.0 + TotalReturn(v), TradingDaysPerYear as real / |v| as real) - 1.0
  }

  /** Standard deviation of the daily returns, scaled by `sqrt(252)` when annualized; 0 for no returns. */
  function Volatility(daily: seq<real>, annualized: bool, num: Numerics): (vol: real)
    ensures |daily| == 0 ==> vol == 0.0
    ensures |daily| > 0 && !annualized ==> vol == num.std(daily)
  {
    if |daily| == 0 then 0.0
    else if annualized then num.std(daily) * num.sqrt(TradingDaysPerYear as real)
    else num.std(daily)
  }

  /** Annualized excess mean return over its standard deviation; 0 for no returns or a zero
      deviation. */
  function SharpeRatio(daily: seq<real>, riskFreeRate: real, num: Numerics): (s: real)
    ensures |daily| == 0 || num.std(daily) == 0.0 ==> s == 0.0
    ensures (|daily| > 0 && num.std(daily) != 0.0)
              ==> s * num.std(daily) == (Indicators.Mean(daily) - riskFreeRate / TradingDaysPerYear as real) * num.sqrt(TradingDaysPerYear as real)
  {
    if |daily| == 0 then 0.0
    else
      var sd := num.std(daily);
      if sd == 0.0 then 0.0
      else (Indicators.Mean(daily) - riskFreeRate / TradingDaysPerYear as real) / sd * num.sqrt(TradingDaysPerYear as real)
  }

  /** The strictly negative daily, in order. */
  function Downside(daily: seq<real>): (d: seq<real>)
    ensures |d| <= |daily|
    ensures forall x :: x in d <==> x in daily && x < 0.0
    ensures forall x :: multiset(d)[x] == if x < 0.0 then multiset(daily)[x] else 0
  {
    if |daily| == 0 then []
    else
      assert daily == [daily[0]] + daily[1..];
      if daily[0] < 0.0 then [daily[0]] + Downside(daily[1..])
      else Downside(daily[1..])
  }

  /** The filter keeps order: the downside of a concatenation is the concatenation of the
      downsides. */
  lemma {:induction false} DownsideAppend(a: seq<real>, b: seq<real>)
    ensures Downside(a + b) == Downside(a) + Downside(b)
  {
    if |a| > 0 {
      assert (a + b)[1..] == a[1..] + b;
      DownsideAppend(a[1..], b);
    } else {
      assert a + b == b;
    }
  }

  /** Like the Sharpe ratio with only the negative returns in the deviation; 0 for no returns, no
      negative return, or a zero downside deviation. */
  function SortinoRatio(daily: seq<real>, riskFreeRate: real, num: Numerics): (s: real)
    ensures |daily| == 0 ==> s == 0.0
    ensures (forall i :: 0 <= i < |daily| ==> daily[i] >= 0.0) ==> s == 0.0
    ensures |Downside(daily)| > 0 && num.std(Downside(daily)) == 0.0 ==> s == 0.0
    ensures (|Downside(daily)| > 0 && num.std(Downside(daily)) != 0.0)
              ==> s * num.std(Downside(daily)) == (Indicators.Mean(daily) - riskFreeRate / TradingDaysPerYear as real) * num.sqrt(TradingDaysPerYear as real)
  {
    if |daily| == 0 then 0.0
    else
      var down := Downside(daily);
      if |down| == 0 then 0.0
      else
        assert down[0] in daily;
        var sd := num.std(down);
        if sd == 0.0 then 0.0
        else (Indicators.Mean(daily) - riskFreeRate / TradingDaysPerYear as real) / sd * num.sqrt(TradingDaysPerYear as real)
  }

  function MaxReal(a: real, b: real): real { if a < b then b else a }

  /** `cummax()`: the largest value up to and including `t`. */
  function Peak(v: seq<real>, t: nat): (p: real)
    requires t < |v|
    ensures forall j :: 0 <= j <= t ==> v[j] <= p
  {
    if t == 0 then v[0] else MaxReal(Peak(v, t - 1), v[t])
  }

  /** The running peak is one of the values seen so far. */
  lemma {:induction false} PeakIsAttained(v: seq<real>, t: nat)
    requires t < |v|
    ensures exists j :: 0 <= j <= t && v[j] == Peak(v, t)
  {
    if t == 0 {
      assert v[0] == Peak(v, 0);
    } else if Peak(v, t - 1) >= v[t] {
      PeakIsAttained(v, t - 1);
      var j :| 0 <= j <= t - 1 && v[j] == Peak(v, t - 1);
      assert v[j] == Peak(v, t);
    } else {
      assert v[t] == Peak(v, t);
    }
  }

  /** Drawdown at `t`, `(v[t] - peak) / peak`; None when the peak is 0. There pandas gives a
      NaN, skipped by the minimum, when the value is 0 too, and minus infinity when it is
      negative. */
  function Drawdown(v: seq<real>, t: nat): (d: Option<real>)
    requires t < |v|
    ensures d.None? <==> Peak(v, t) == 0.0
    ensures d.Some? && v[t] == Peak(v, t) ==> d.value == 0.0
    ensures d.Some? && Peak(v, t) > 0.0 ==> d.value <= 0.0
  {
    var p := Peak(v, t);
    if p == 0.0 then None
    else
      NonPositiveQuotient(v[t] - p, p);
      Some((v[t] - p) / p)
  }

  /** A defined drawdown, scaled by its peak, is the value's distance below that peak. */
  lemma DrawdownScalesPeak(v: seq<real>, t: nat)
    requires t < |v| && Drawdown(v, t).Some?
    ensures Peak(v, t) * Drawdown(v, t).value == v[t] - Peak(v, t)
  {
    var p := Peak(v, t);
    MultiplyBack(v[t] - p, p);
  }

  lemma MultiplyBack(x: real, d: real)
    requires d != 0.0
    ensures (x / d) * d == x
  {
  }

  lemma NonPositiveQuotient(a: real, b: real)
    requires b != 0.0
    ensures a <= 0.0 && b > 0.0 ==> a / b <= 0.0
  {
  }

  function MinOption(a: Option<real>, b: Option<real>): Option<real>
  {
    if a.None? then b
    else if b.None? then a
    else if b.value < a.value then b
    else a
  }

  /** The smallest defined drawdown among the first `n` entries; None when none is defined. */
  function MinDrawdown(v: seq<real>, n: nat): (m: Option<real>)
    requires n <= |v|
    ensures m.None? <==> forall t :: 0 <= t < n ==> Drawdown(v, t).None?
    ensures forall t :: 0 <= t < n && Drawdown(v, t).Some? ==> m.Some? && m.value <= Drawdown(v, t).value
  {
    if n == 0 then None else MinOption(MinDrawdown(v, n - 1), Drawdown(v, n - 1))
  }

  function Abs(x: real): real { if x < 0.0 then -x else x }

  /** The deepest fall from a running peak, as a positive fraction of that peak; 0 for an empty
      series. */
  function MaxDrawdown(v: seq<real>): (dd: real)
    ensures dd >= 0.0
    ensures |v| == 0 ==> dd == 0.0
    ensures MinDrawdown(v, |v|).Some? ==> dd == Abs(MinDrawdown(v, |v|).value)
  {
    if |v| == 0 then 0.0
    else
      var m := MinDrawdown(v, |v|);
      if m.None? then 0.0 else Abs(m.value)
  }

  predicate Positive(v: seq<real>)
  {
    forall i :: 0 <= i < |v| ==> v[i] > 0.0
  }

  predicate NonDecreasing(v: seq<real>)
  {
    forall i, j :: 0 <= i <= j < |v| ==> v[i] <= v[j]
  }

  /** On a non-decreasing series every value is its own running peak. */
  lemma {:induction false} PeakOfNonDecreasing(v: seq<real>, t: nat)
    requires t < |v| && NonDecreasing(v)
    ensures Peak(v, t) == v[t]
  {
    if t > 0 {
      PeakOfNonDecreasing(v, t - 1);
    }
  }

  /** A value at its running peak has no drawdown. */
  lemma DrawdownAtPeak(v: seq<real>, t: nat)
    requires t < |v| && Peak(v, t) == v[t] && v[t] != 0.0
    ensures Drawdown(v, t) == Some(0.0)
  {
  }

  /** A value below a positive running peak has a negative drawdown. */
  lemma DrawdownBelowPeak(v: seq<real>, t: nat)
    requires t < |v| && Peak(v, t) > v[t] && Peak(v, t) > 0.0
    ensures Drawdown(v, t).Some? && Drawdown(v, t).value < 0.0
  {
    var p := Peak(v, t);
    NegativeQuotient(v[t] - p, p);
  }

  lemma NegativeQuotient(a: real, b: real)
    requires a < 0.0 && b > 0.0
    ensures a / b < 0.0
  {
  }

  /** On a positive series every drawdown is defined and at most 0. */
  lemma DrawdownOfPositive(v: seq<real>, t: nat)
    requires t < |v| && Positive(v)
    ensures Drawdown(v, t).Some? && Drawdown(v, t).value <= 0.0
  {
    if Peak(v, t) == v[t] {
      DrawdownAtPeak(v, t);
    } else {
      DrawdownBelowPeak(v, t);
    }
  }

  /** The minimum lies within any bounds that every defined drawdown lies within. */
  lemma {:induction false} MinDrawdownWithin(v: seq<real>, n: nat, lo: real, hi: real)
    requires n <= |v|
    requires forall t :: 0 <= t < n && Drawdown(v, t).Some? ==> lo <= Drawdown(v, t).value <= hi
    ensures MinDrawdown(v, n).Some? ==> lo <= MinDrawdown(v, n).value <= hi
  {
    if n > 0 {
      MinDrawdownWithin(v, n - 1, lo, hi);
    }
  }

  /** A non-decreasing positive series has no drawdown. */
  lemma NonDecreasingHasNoDrawdown(v: seq<real>)
    requires Positive(v) && NonDecreasing(v)
    ensures MaxDrawdown(v) == 0.0
  {
    forall t | 0 <= t < |v|
      ensures Drawdown(v, t) == Some(0.0)
    {
      PeakOfNonDecreasing(v, t);
      DrawdownAtPeak(v, t);
    }
    MinDrawdownWithin(v, |v|, 0.0, 0.0);
  }

  /** A positive series that falls somewhere has a positive maximum drawdown. */
  lemma FallHasDrawdown(v: seq<real>, i: nat, j: nat)
    requires Positive(v) && i <= j < |v| && v[i] > v[j]
    ensures MaxDrawdown(v) > 0.0
  {
    assert Peak(v, j) >= v[i];
    DrawdownBelowPeak(v, j);
    var m := MinDrawdown(v, |v|);
    assert m.Some? && m.value <= Drawdown(v, j).value;
  }

  /** A positive series has no drawdown exactly when it never falls. */
  lemma MaxDrawdownZeroIffNonDecreasing(v: seq<real>)
    requires Positive(v)
    ensures MaxDrawdown(v) == 0.0 <==> NonDecreasing(v)
  {
    if NonDecreasing(v) {
      NonDecreasingHasNoDrawdown(v);
    } else {
      var i, j :| 0 <= i <= j < |v| && v[i] > v[j];
      FallHasDrawdown(v, i, j);
    }
  }

  /** 100 rising to 110, falling to 90 and recovering to 120 has a maximum drawdown of 20/110. */
  lemma MaxDrawdownExample()
    ensures MaxDrawdown([100.0, 110.0, 90.0, 120.0]) == 20.0 / 110.0
  {
    var v := [100.0, 110.0, 90.0, 120.0];
    assert Peak(v, 1) == 110.0;
    assert Peak(v, 2) == 110.0;
    assert Peak(v, 3) == 120.0;
    assert Drawdown(v, 0) == Some(0.0);
    assert Drawdown(v, 1) == Some(0.0);
    assert Drawdown(v, 2) == Some(-20.0 / 110.0);
    assert Drawdown(v, 3) == Some(0.0);
    assert MinDrawdown(v, 2) == Some(0.0);
    assert MinDrawdown(v, 3) == Some(-20.0 / 110.0);
  }

  /** Annual return over maximum drawdown; 0 when there is no drawdown. */
  function CalmarRatio(v: seq<real>, num: Numerics): (c: real)
    ensures MaxDrawdown(v) == 0.0 ==> c == 0.0
    ensures MaxDrawdown(v) > 0.0 ==> (c > 0.0 <==> AnnualReturn(v, num) > 0.0)
    ensures MaxDrawdown(v) > 0.0 ==> (c == 0.0 <==> AnnualReturn(v, num) == 0.0)
  {
    var md := MaxDrawdown(v);
    if md == 0.0 then 0.0
    else
      var ar := AnnualReturn(v, num);
      QuotientSigns(ar, md);
      ar / md
  }

  /** The eight metrics of `calculate_all`. */
  const MetricNames: set<string> :=
    {"total_return", "annual_return", "volatility", "max_drawdown",
     "sharpe_ratio", "sortino_ratio", "calmar_ratio", "trading_days"}

  function CalculateAll(v: seq<real>, daily: seq<real>, riskFreeRate: real, num: Numerics): (m: map<string, real>)
    ensures m.Keys == MetricNames
    ensures m["trading_days"] == |v| as real
    ensures m["total_return"] == TotalReturn(v) && m["max_drawdown"] == MaxDrawdown(v)
    ensures m["annual_return"] == AnnualReturn(v, num) && m["calmar_ratio"] == CalmarRatio(v, num)
    ensures m["volatility"] == Volatility(daily, true, num)
    ensures m["sharpe_ratio"] == SharpeRatio(daily, riskFreeRate, num)
    ensures m["sortino_ratio"] == SortinoRatio(daily, riskFreeRate, num)
  {
    map["total_return" := TotalReturn(v),
        "annual_return" := AnnualReturn(v, num),
        "volatility" := Volatility(daily, true, num),
        "max_drawdown" := MaxDrawdown(v),
        "sharpe_ratio" := SharpeRatio(daily, riskFreeRate, num),
        "sortino_ratio" := SortinoRatio(daily, riskFreeRate, num),
        "calmar_ratio" := CalmarRatio(v, num),
        "trading_days" := |v| as real]
  }

  /** The laws of the floating-point primitives that a flat curve needs: a series of two or more
      zeros has no deviation (the sample deviation of a single value is NaN) and one raised to
      any power is one. */
  ghost predicate ZeroDeviationLaws(num: Numerics)
  {
    && (forall z: seq<real> :: |z| >= 2 && (forall i :: 0 <= i < |z| ==> z[i] == 0.0) ==> num.std(z) == 0.0)
    && (forall e: real :: num.pow(1.0, e) == 1.0)
  }

  /** A series that never moves has only zero daily returns. */
  lemma FlatSeriesHasZeroReturns(v: seq<real>)
    requires forall i :: 0 <= i < |v| ==> v[i] == v[0]
    ensures forall i :: 0 <= i < |v| ==> PctChange(v)[i] == 0.0
  {
    forall i | 0 < i < |v|
      ensures PctChange(v)[i] == 0.0
    {
      assert v[i - 1] == v[i];
    }
  }

  /** Without a negative return there is no downside. */
  lemma {:induction false} NoDownside(d: seq<real>)
    requires forall i :: 0 <= i < |d| ==> d[i] >= 0.0
    ensures Downside(d) == []
  {
    if |d| > 0 {
      NoDownside(d[1..]);
    }
  }

  /** A flat curve has no annual return when one raised to any power is one. */
  lemma FlatCurveHasNoAnnualReturn(v: seq<real>, num: Numerics)
    requires |v| > 0 && forall i :: 0 <= i < |v| ==> v[i] == v[0]
    requires ZeroDeviationLaws(num)
    ensures AnnualReturn(v, num) == 0.0
  {
    ConstantSeriesHasNoReturn(v);
    var e := TradingDaysPerYear as real / |v| as real;
    var g := 1.0 + TotalReturn(v);
    assert g == 1.0;
    assert num.pow(g, e) == 1.0;
  }

  /** The daily returns of a flat curve have no deviation and no downside, so every ratio built
      on them is 0. */
  lemma FlatCurveHasNoRatios(v: seq<real>, riskFreeRate: real, num: Numerics)
    requires |v| >= 2 && forall i :: 0 <= i < |v| ==> v[i] == v[0]
    requires ZeroDeviationLaws(num)
    ensures Volatility(PctChange(v), true, num) == 0.0
    ensures SharpeRatio(PctChange(v), riskFreeRate, num) == 0.0
    ensures SortinoRatio(PctChange(v), riskFreeRate, num) == 0.0
  {
    var r := PctChange(v);
    FlatSeriesHasZeroReturns(v);
    assert num.std(r) == 0.0;
    NoDownside(r);
  }

  /** A portfolio whose value never moves scores 0 on every metric but the day count. */
  lemma FlatCurveScoresZero(v: seq<real>, riskFreeRate: real, num: Numerics)
    requires |v| >= 2 && v[0] > 0.0 && forall i :: 0 <= i < |v| ==> v[i] == v[0]
    requires ZeroDeviationLaws(num)
    ensures var m := CalculateAll(v, PctChange(v), riskFreeRate, num);
      && m["total_return"] == 0.0 && m["annual_return"] == 0.0 && m["volatility"] == 0.0
      && m["max_drawdown"] == 0.0 && m["sharpe_ratio"] == 0.0 && m["sortino_ratio"] == 0.0
      && m["calmar_ratio"] == 0.0
  {
    ConstantSeriesHasNoReturn(v);
    assert Positive(v) && NonDecreasing(v);
    NonDecreasingHasNoDrawdown(v);
    FlatCurveHasNoAnnualReturn(v, num);
    FlatCurveHasNoRatios(v, riskFreeRate, num);
  }
}
