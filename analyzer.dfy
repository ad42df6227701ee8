/** The technical analyzer (src/analysis/analyzer.py): a report on the latest bar of a price
    history, classifying moving averages, MACD, RSI and Bollinger bands, and a weighted vote of
    those classifications into buy, sell or hold. MACD, RSI and the bands are computed by code
    that is not part of this model; their series are inputs. A missing value (`None`) stands
    for pandas' NaN, which every comparison treats as false. */
module Analyzer {
  import opened Wrappers
  import opened Types
  import Indicators

  /** Fewer rows than this and no report is produced. */
  const MinRows: nat := 20

  datatype Cross = Golden | Death | NoCross
  datatype Trend = Bullish | Bearish
  datatype RsiStatus = Overbought | Oversold | Normal
  datatype BandPosition = AboveUpper | BelowLower | Within
  datatype Verdict = BuyVerdict | SellVerdict | HoldVerdict

  /** One moving average at the latest bar: its value, whether the price is above it, and the
      distance as a percentage of it (`None` where that is NaN or infinite). */
  datatype MaEntry = MaEntry(value: Option<real>, above: bool, distancePct: Option<real>)
  /** The averages by period, and the 5/20 cross when both of those were computed. */
  datatype MaReport = MaReport(entries: map<nat, MaEntry>, cross: Option<Cross>)
  datatype MacdPoint = MacdPoint(macd: real, signal: real, histogram: real)
  datatype MacdReport = MacdReport(last: MacdPoint, trend: Trend, cross: Option<Cross>)
  datatype RsiReport = RsiReport(value: Option<real>, overbought: real, oversold: real, status: RsiStatus)
  datatype Band = Band(upper: Option<real>, middle: Option<real>, lower: Option<real>)
  datatype BandReport = BandReport(band: Band, price: real, position: BandPosition)
  datatype Report = Report(currentPrice: real, pctChange: Option<real>, ma: MaReport, macd: MacdReport,
                           rsi: RsiReport, bollinger: BandReport, signal: Verdict)

  /** The cross between the previous and the latest point of two lines: golden when the fast
      line was at or below the slow one and is now above, death when it was at or above and is
      now below. The two cases never overlap. */
  function CrossOf(fastPrev: Option<real>, slowPrev: Option<real>, fastNow: Option<real>, slowNow: Option<real>): (c: Cross)
    ensures c == Golden <==> Indicators.Le(fastPrev, slowPrev) && Indicators.Gt(fastNow, slowNow)
    ensures c == Death <==> Indicators.Ge(fastPrev, slowPrev) && Indicators.Lt(fastNow, slowNow)
  {
    if Indicators.Le(fastPrev, slowPrev) && Indicators.Gt(fastNow, slowNow) then Golden
    else if Indicators.Ge(fastPrev, slowPrev) && Indicators.Lt(fastNow, slowNow) then Death
    else NoCross
  }

  /** The analyzer's cross at the last bar is the crossover series' value there. */
  lemma CrossAgreesWithCrossover(fast: Indicators.Column, slow: Indicators.Column)
    requires |fast| == |slow| >= 2
    ensures var n := |fast|;
            var c := CrossOf(fast[n - 2], slow[n - 2], fast[n - 1], slow[n - 1]);
            var x := Indicators.CalculateCrossover(fast, slow)[n - 1];
            && (c == Golden <==> x == 1)
            && (c == Death <==> x == -1)
            && (c == NoCross <==> x == 0)
  {
    var n := |fast|;
    assert Indicators.Golden(fast, slow, n - 1) <==> Indicators.Le(fast[n - 2], slow[n - 2]) && Indicators.Gt(fast[n - 1], slow[n - 1]);
  }

  /** One entry of `_analyze_ma`. */
  function MaEntryOf(closes: seq<real>, period: nat): (e: MaEntry)
    requires |closes| > 0
    ensures e.value == Indicators.CalculateMA(closes, period)[|closes| - 1]
    ensures e.above <==> e.value.Some? && closes[|closes| - 1] > e.value.value
    ensures e.distancePct.Some? <==> e.value.Some? && e.value.value != 0.0
    ensures e.distancePct.Some? ==> e.distancePct.value * e.value.value == (closes[|closes| - 1] - e.value.value) * 100.0
  {
    var price := closes[|closes| - 1];
    var m := Indicators.CalculateMA(closes, period)[|closes| - 1];
    var distance := if m.Some? && m.value != 0.0 then Some((price - m.value) / m.value * 100.0) else None;
    MaEntry(m, m.Some? && price > m.value, distance)
  }

  /** A period no longer than the history gives a defined average at the last bar. */
  lemma EntryDefinedWhenPeriodFits(closes: seq<real>, period: nat)
    requires 0 < period <= |closes|
    ensures MaEntryOf(closes, period).value.Some?
  {
  }

  /** The 5/20 cross at the last bar. */
  function LastCross(closes: seq<real>): Cross
    requires |closes| >= 2
  {
    var ma5 := Indicators.CalculateMA(closes, 5);
    var ma20 := Indicators.CalculateMA(closes, 20);
    var n := |closes|;
    CrossOf(ma5[n - 2], ma20[n - 2], ma5[n - 1], ma20[n - 1])
  }

  /** With exactly 20 rows the 20-bar average has no previous value, so no cross is seen. */
  lemma NoCrossOnTwentyRows(closes: seq<real>)
    requires |closes| == 20
    ensures LastCross(closes) == NoCross
  {
    assert Indicators.CalculateMA(closes, 20)[18].None?;
  }

  /** `_analyze_ma`: an entry for every configured period no longer than the history (longer
      ones are skipped), and the 5/20 cross exactly when both of those periods have entries. */
  method AnalyzeMA(closes: seq<real>, periods: seq<nat>) returns (r: MaReport)
    requires |closes| > 0
    ensures forall p :: p in r.entries <==> p in periods && p <= |closes|
    ensures forall p :: p in r.entries ==> r.entries[p] == MaEntryOf(closes, p)
    ensures r.cross.Some? <==> 5 in r.entries && 20 in r.entries
    ensures r.cross.Some? ==> |closes| >= 20 && r.cross.value == LastCross(closes)
  {
    var entries: map<nat, MaEntry> := map[];
    var i := 0;
    while i < |periods|
      invariant 0 <= i <= |periods|
      invariant forall p :: p in entries <==> p in periods[..i] && p <= |closes|
      invariant forall p :: p in entries ==> entries[p] == MaEntryOf(closes, p)
    {
      var period := periods[i];
      if period <= |closes| {
        entries := entries[period := MaEntryOf(closes, period)];
      }
      assert periods[..i + 1] == periods[..i] + [period];
      i := i + 1;
    }
    assert periods[..i] == periods;
    var cross: Option<Cross> := None;
    if 5 in entries && 20 in entries && |closes| >= 2 {
      cross := Some(LastCross(closes));
    }
    return MaReport(entries, cross);
  }

  /** `_analyze_macd`: bullish exactly when the histogram is positive; the cross of the MACD
      line over its signal line when there are two points. */
  function AnalyzeMACD(series: seq<MacdPoint>): (r: MacdReport)
    requires |series| > 0
    ensures r.last == series[|series| - 1]
    ensures r.trend == Bullish <==> r.last.histogram > 0.0
    ensures r.cross.Some? <==> |series| >= 2
    ensures r.cross.Some? ==> var prev := series[|series| - 2];
              && (r.cross.value == Golden <==> prev.macd <= prev.signal && r.last.macd > r.last.signal)
              && (r.cross.value == Death <==> prev.macd >= prev.signal && r.last.macd < r.last.signal)
  {
    var last := series[|series| - 1];
    var trend := if last.histogram > 0.0 then Bullish else Bearish;
    var cross := if |series| >= 2 then
                   var prev := series[|series| - 2];
                   Some(CrossOf(Some(prev.macd), Some(prev.signal), Some(last.macd), Some(last.signal)))
                 else None;
    MacdReport(last, trend, cross)
  }

  /** `_analyze_rsi`: overbought above the upper line, oversold below the lower line, normal
      otherwise (including NaN). */
  function AnalyzeRSI(series: Indicators.Column, overbought: real, oversold: real): (r: RsiReport)
    requires |series| > 0
    ensures r.value == series[|series| - 1]
    ensures r.status == Overbought <==> r.value.Some? && r.value.value > overbought
    ensures r.status == Oversold <==> r.value.Some? && !(r.value.value > overbought) && r.value.value < oversold
    ensures r.status == Normal <==> r.value.None? || (!(r.value.value > overbought) && !(r.value.value < oversold))
  {
    var v := series[|series| - 1];
    var status := if v.Some? && v.value > overbought then Overbought
                  else if v.Some? && v.value < oversold then Oversold
                  else Normal;
    RsiReport(v, overbought, oversold, status)
  }

  /** With the lines in their usual order, an RSI value is never both overbought and oversold,
      so the status is exactly the side of the lines it lies on. */
  lemma RsiStatusBySide(series: Indicators.Column, overbought: real, oversold: real)
    requires |series| > 0 && oversold <= overbought
    ensures var r := AnalyzeRSI(series, overbought, oversold);
            r.status == Oversold <==> r.value.Some? && r.value.value < oversold
  {
  }

  /** `_analyze_bollinger`: above the upper band, below the lower band, or within. */
  function AnalyzeBollinger(series: seq<Band>, price: real): (r: BandReport)
    requires |series| > 0
    ensures r.band == series[|series| - 1] && r.price == price
    ensures r.position == AboveUpper <==> r.band.upper.Some? && price > r.band.upper.value
    ensures r.position == BelowLower <==> !(r.band.upper.Some? && price > r.band.upper.value)
                                          && r.band.lower.Some? && price < r.band.lower.value
  {
    var b := series[|series| - 1];
    var position := if b.upper.Some? && price > b.upper.value then AboveUpper
                    else if b.lower.Some? && price < b.lower.value then BelowLower
                    else Within;
    BandReport(b, price, position)
  }

  /** Votes for buying: 2 for a golden MA cross, 2 for a golden MACD cross, 1 for a bullish
      MACD trend, 1 for an oversold RSI, 1 for a price below the lower band. */
  function BuyVotes(ma: MaReport, macd: MacdReport, rsi: RsiReport, band: BandReport): nat
  {
    (if ma.cross == Some(Golden) then 2 else 0)
    + (if macd.cross == Some(Golden) then 2 else 0)
    + (if macd.trend == Bullish then 1 else 0)
    + (if rsi.status == Oversold then 1 else 0)
    + (if band.position == BelowLower then 1 else 0)
  }

  /** Votes for selling, the mirror image of `BuyVotes`. */
  function SellVotes(ma: MaReport, macd: MacdReport, rsi: RsiReport, band: BandReport): nat
  {
    (if ma.cross == Some(Death) then 2 else 0)
    + (if macd.cross == Some(Death) then 2 else 0)
    + (if macd.trend == Bearish then 1 else 0)
    + (if rsi.status == Overbought then 1 else 0)
    + (if band.position == AboveUpper then 1 else 0)
  }

  /** The verdict needs a lead of at least two votes; anything closer is a hold. */
  function VerdictOf(buy: nat, sell: nat): (v: Verdict)
    ensures v == BuyVerdict <==> buy > sell + 1
    ensures v == SellVerdict <==> sell > buy + 1
    ensures v == HoldVerdict <==> buy <= sell + 1 && sell <= buy + 1
  {
    if buy > sell + 1 then BuyVerdict else if sell > buy + 1 then SellVerdict else HoldVerdict
  }

  /** `_generate_signal`: counts the votes indicator by indicator and compares the counts. */
  method GenerateSignal(ma: MaReport, macd: MacdReport, rsi: RsiReport, band: BandReport) returns (v: Verdict)
    ensures v == VerdictOf(BuyVotes(ma, macd, rsi, band), SellVotes(ma, macd, rsi, band))
  {
    var buy: nat := 0;
    var sell: nat := 0;
    if ma.cross == Some(Golden) {
      buy := buy + 2;
    } else if ma.cross == Some(Death) {
      sell := sell + 2;
    }
    if macd.cross == Some(Golden) {
      buy := buy + 2;
    } else if macd.cross == Some(Death) {
      sell := sell + 2;
    }
    if macd.trend == Bullish {
      buy := buy + 1;
    } else {
      sell := sell + 1;
    }
    if rsi.status == Oversold {
      buy := buy + 1;
    } else if rsi.status == Overbought {
      sell := sell + 1;
    }
    if band.position == BelowLower {
      buy := buy + 1;
    } else if band.position == AboveUpper {
      sell := sell + 1;
    }
    if buy > sell + 1 {
      v := BuyVerdict;
    } else if sell > buy + 1 {
      v := SellVerdict;
    } else {
      v := HoldVerdict;
    }
  }

  /** Every indicator votes at most once, and the MACD trend always votes: together there are
      between one and seven votes. */
  lemma VoteTotals(ma: MaReport, macd: MacdReport, rsi: RsiReport, band: BandReport)
    ensures 1 <= BuyVotes(ma, macd, rsi, band) + SellVotes(ma, macd, rsi, band) <= 7
  {
  }

  function MirrorCross(c: Cross): Cross
  {
    match c
    case Golden => Death
    case Death => Golden
    case NoCross => NoCross
  }

  function MirrorVerdict(v: Verdict): Verdict
  {
    match v
    case BuyVerdict => SellVerdict
    case SellVerdict => BuyVerdict
    case HoldVerdict => HoldVerdict
  }

  /** Every classification turned upside down: crosses swapped, the trend reversed, RSI and
      band extremes exchanged. */
  function Mirror(ma: MaReport, macd: MacdReport, rsi: RsiReport, band: BandReport): (MaReport, MacdReport, RsiReport, BandReport)
  {
    var maCross := if ma.cross.Some? then Some(MirrorCross(ma.cross.value)) else None;
    var macdCross := if macd.cross.Some? then Some(MirrorCross(macd.cross.value)) else None;
    var trend := if macd.trend == Bullish then Bearish else Bullish;
    var status := match rsi.status
                  case Overbought => Oversold
                  case Oversold => Overbought
                  case Normal => Normal;
    var position := match band.position
                    case AboveUpper => BelowLower
                    case BelowLower => AboveUpper
                    case Within => Within;
    (ma.(cross := maCross), macd.(cross := macdCross, trend := trend), rsi.(status := status), band.(position := position))
  }

  /** The vote is symmetric: mirroring every indicator swaps buy and sell and keeps hold. */
  lemma VoteIsSymmetric(ma: MaReport, macd: MacdReport, rsi: RsiReport, band: BandReport)
    ensures var m := Mirror(ma, macd, rsi, band);
            VerdictOf(BuyVotes(m.0, m.1, m.2, m.3), SellVotes(m.0, m.1, m.2, m.3))
            == MirrorVerdict(VerdictOf(BuyVotes(ma, macd, rsi, band), SellVotes(ma, macd, rsi, band)))
  {
    var m := Mirror(ma, macd, rsi, band);
    assert BuyVotes(m.0, m.1, m.2, m.3) == SellVotes(ma, macd, rsi, band);
    assert SellVotes(m.0, m.1, m.2, m.3) == BuyVotes(ma, macd, rsi, band);
  }

  /** `current.get('pct_change', 0)`: the bar's value, or 0 when the column is absent. */
  function PctChangeOf(bar: Bar): Option<real>
  {
    if "pct_change" in bar.indicators then bar.indicators["pct_change"] else Some(0.0)
  }

  /** `analyze`: an error for fewer than 20 rows; otherwise the report on the last bar, whose
      signal is the vote over its own classifications. */
  method Analyze(bars: seq<Bar>, periods: seq<nat>, macd: seq<MacdPoint>, rsi: Indicators.Column, bands: seq<Band>,
                 overbought: real, oversold: real) returns (r: Result<Report, Error>)
    requires |macd| == |bars| && |rsi| == |bars| && |bands| == |bars|
    ensures |bars| < MinRows <==> r.Err?
    ensures r.Err? ==> r.error == DataFailure
    ensures r.Ok? ==> var last := bars[|bars| - 1];
              && r.value.currentPrice == last.close
              && r.value.pctChange == PctChangeOf(last)
              && r.value.macd == AnalyzeMACD(macd)
              && r.value.rsi == AnalyzeRSI(rsi, overbought, oversold)
              && r.value.bollinger == AnalyzeBollinger(bands, last.close)
              && r.value.signal == VerdictOf(BuyVotes(r.value.ma, r.value.macd, r.value.rsi, r.value.bollinger),
                                             SellVotes(r.value.ma, r.value.macd, r.value.rsi, r.value.bollinger))
    ensures r.Ok? ==> && (forall p :: p in r.value.ma.entries <==> p in periods && p <= |bars|)
                      && (forall p :: p in r.value.ma.entries ==> r.value.ma.entries[p] == MaEntryOf(Closes(bars), p))
                      && (r.value.ma.cross.Some? <==> 5 in r.value.ma.entries && 20 in r.value.ma.entries)
                      && (r.value.ma.cross.Some? ==> r.value.ma.cross.value == LastCross(Closes(bars)))
  {
    if |bars| == 0 || |bars| < MinRows {
      return Err(DataFailure);
    }
    var last := bars[|bars| - 1];
    var closes := Closes(bars);
    var ma := AnalyzeMA(closes, periods);
    var macdReport := AnalyzeMACD(macd);
    var rsiReport := AnalyzeRSI(rsi, overbought, oversold);
    var bandReport := AnalyzeBollinger(bands, last.close);
    var signal := GenerateSignal(ma, macdReport, rsiReport, bandReport);
    return Ok(Report(last.close, PctChangeOf(last), ma, macdReport, rsiReport, bandReport, signal));
  }
}
