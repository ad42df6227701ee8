/** The moving-average crossover strategy (strategies/templates/ma_cross.py): parameter
    defaults, `init` (fast and slow moving averages of the close and their crossover column),
    and the `next` rule: buy one lot on a golden cross while flat, sell everything on a death
    cross while long. */
module MACross {
  import opened Wrappers
  import opened Types
  import Text
  import opened StrategyBase
  import opened Indicators

  const LotSize: int := 100

  function DefaultParams(): Params
  {
    map["fast_period" := IntParam(5), "slow_period" := IntParam(20), "position_size" := RealParam(1.0)]
  }

  /** The defaults, overridden key by key by the user's parameters. */
  function MergeParams(user: Option<Params>): (p: Params)
    ensures forall k :: k in p <==> k in DefaultParams() || (user.Some? && k in user.value)
    ensures user.Some? ==> forall k :: k in user.value ==> p[k] == user.value[k]
    ensures forall k :: k in DefaultParams() && (user.None? || k !in user.value) ==> p[k] == DefaultParams()[k]
  {
    if user.Some? then DefaultParams() + user.value else DefaultParams()
  }

  /** A moving-average window as pandas accepts it: a non-negative integer. */
  function Period(params: Params, key: string): Result<nat, Error>
  {
    if key !in params then Err(KeyFailure)
    else if params[key].IntParam? && params[key].i >= 0 then Ok(params[key].i)
    else Err(ValueFailure)
  }

  /** A row with the three strategy columns added (or overwritten). */
  function WithColumns(bar: Bar, fast: Option<real>, slow: Option<real>, cross: int): (b: Bar)
    ensures b.close == bar.close && b.date == bar.date && b.symbol == bar.symbol
    ensures b.indicators.Keys == bar.indicators.Keys + {"ma_fast", "ma_slow", "crossover"}
    ensures b.indicators["ma_fast"] == fast && b.indicators["ma_slow"] == slow
    ensures b.indicators["crossover"] == Some(cross as real)
  {
    bar.(indicators := bar.indicators["ma_fast" := fast]["ma_slow" := slow]["crossover" := Some(cross as real)])
  }

  /** The prepared rows for given fast and slow windows. */
  function Prepared(data: seq<Bar>, fast: nat, slow: nat): (rows: seq<Bar>)
    ensures |rows| == |data|
    ensures forall i :: 0 <= i < |data| ==>
              var maFast := CalculateMA(Closes(data), fast);
              var maSlow := CalculateMA(Closes(data), slow);
              rows[i] == WithColumns(data[i], maFast[i], maSlow[i], CalculateCrossover(maFast, maSlow)[i])
  {
    var maFast := CalculateMA(Closes(data), fast);
    var maSlow := CalculateMA(Closes(data), slow);
    var cross := CalculateCrossover(maFast, maSlow);
    seq(|data|, i requires 0 <= i < |data| => WithColumns(data[i], maFast[i], maSlow[i], cross[i]))
  }

  /** `init`: a copy of the data with `ma_fast`, `ma_slow` and `crossover` columns; a window that
      is not a non-negative integer fails. */
  function Prepare(params: Params, data: seq<Bar>): (r: Result<seq<Bar>, Error>)
    ensures r.Ok? <==> Period(params, "fast_period").Ok? && Period(params, "slow_period").Ok?
    ensures r.Ok? ==> r.value == Prepared(data, Period(params, "fast_period").value, Period(params, "slow_period").value)
  {
    var fast := Period(params, "fast_period");
    var slow := Period(params, "slow_period");
    if fast.Err? then Err(fast.error)
    else if slow.Err? then Err(slow.error)
    else Ok(Prepared(data, fast.value, slow.value))
  }

  /** The text of a period in a signal reason. */
  function PeriodText(p: Param): string
  {
    match p
    case IntParam(i) => Text.IntToString(i)
    case TextParam(s) => s
    case RealParam(_) => ""
  }

  function GoldenReason(params: Params): string
  {
    "Golden Cross: MA" + PeriodText(if "fast_period" in params then params["fast_period"] else IntParam(5))
      + " crosses above MA" + PeriodText(if "slow_period" in params then params["slow_period"] else IntParam(20))
  }

  function DeathReason(params: Params): string
  {
    "Death Cross: MA" + PeriodText(if "fast_period" in params then params["fast_period"] else IntParam(5))
      + " crosses below MA" + PeriodText(if "slow_period" in params then params["slow_period"] else IntParam(20))
  }

  /** The decision table once the moving averages and the crossover value of a row are known. */
  function Decide(v: StrategyView, row: Bar, crossover: Option<real>): Result<Option<Signal>, Error>
  {
    if crossover == Some(1.0) && v.currentPosition == 0 then
      var s := CreateSignal(v, BuySignal, row.close, LotSize, GoldenReason(v.params), 1.0);
      if s.Err? then Err(s.error) else Ok(Some(s.value))
    else if crossover == Some(-1.0) && v.currentPosition > 0 then
      var s := CreateSignal(v, SellSignal, row.close, v.currentPosition, DeathReason(v.params), 1.0);
      if s.Err? then Err(s.error) else Ok(Some(s.value))
    else
      Ok(None)
  }

  /** Both moving averages are present and defined on the row. */
  predicate Averaged(bar: Bar)
  {
    && "ma_fast" in bar.indicators && bar.indicators["ma_fast"].Some?
    && "ma_slow" in bar.indicators && bar.indicators["ma_slow"].Some?
  }

  /** `next` as written: it reads `ma_fast`, `ma_slow` and `crossover` from the bar it is handed.
      A missing column raises KeyError; a NaN average means no signal. */
  function Next(v: StrategyView, bar: Bar): (r: Result<Option<Signal>, Error>)
    ensures "ma_fast" !in bar.indicators ==> r == Err(KeyFailure)
    ensures "ma_fast" in bar.indicators && bar.indicators["ma_fast"].None? ==> r == Ok(None)
    ensures "ma_fast" in bar.indicators && bar.indicators["ma_fast"].Some? ==>
              && ("ma_slow" !in bar.indicators ==> r == Err(KeyFailure))
              && ("ma_slow" in bar.indicators && bar.indicators["ma_slow"].None? ==> r == Ok(None))
    ensures Averaged(bar) && "crossover" !in bar.indicators ==> r == Err(KeyFailure)
    ensures ("ma_fast" in bar.indicators && "ma_slow" in bar.indicators && "crossover" in bar.indicators
             && GetCurrentBar(v).Some?) ==> r.Ok?
    ensures r.Ok? && r.value.Some? ==> r.value.value.action == BuySignal || r.value.value.action == SellSignal
    ensures (r.Ok? && r.value.Some? && r.value.value.action == BuySignal)
            <==> Averaged(bar) && "crossover" in bar.indicators && bar.indicators["crossover"] == Some(1.0)
                 && v.currentPosition == 0 && GetCurrentBar(v).Some?
    ensures (r.Ok? && r.value.Some? && r.value.value.action == SellSignal)
            <==> Averaged(bar) && "crossover" in bar.indicators && bar.indicators["crossover"] == Some(-1.0)
                 && v.currentPosition > 0 && GetCurrentBar(v).Some?
    ensures r.Ok? && r.value.Some? && r.value.value.action == BuySignal ==>
              r.value.value.quantity == LotSize && r.value.value.price == bar.close
    ensures r.Ok? && r.value.Some? && r.value.value.action == SellSignal ==>
              r.value.value.quantity == v.currentPosition && r.value.value.price == bar.close
  {
    if "ma_fast" !in bar.indicators then Err(KeyFailure)
    else if bar.indicators["ma_fast"].None? then Ok(None)
    else if "ma_slow" !in bar.indicators then Err(KeyFailure)
    else if bar.indicators["ma_slow"].None? then Ok(None)
    else if "crossover" !in bar.indicators then Err(KeyFailure)
    else Decide(v, bar, bar.indicators["crossover"])
  }

  /** The engine hands `next` the raw row of the frame it was given, not the strategy's prepared
      copy, so on any frame without precomputed indicator columns the very first call raises
      KeyError and the backtest aborts. */
  lemma RawBarRaisesKeyError(params: Params, raw: seq<Bar>, position: int, i: nat)
    requires i < |raw| && "ma_fast" !in raw[i].indicators
    requires Prepare(params, raw).Ok?
    ensures Next(StrategyView(params, Some(Prepare(params, raw).value), position, i), raw[i]) == Err(KeyFailure)
  {
  }

  /** `next` as evidently intended: the indicator values come from the strategy's own prepared row
      at the current index (the bar handed in is the same row without those columns). */
  function NextOnPrepared(v: StrategyView, bar: Bar): (r: Result<Option<Signal>, Error>)
    ensures GetCurrentBar(v).None? ==> r == Err(TypeFailure)
  {
    match GetCurrentBar(v)
    case None => Err(TypeFailure)
    case Some(row) => Next(v, row)
  }

  /** On data prepared by `init`, with the current index inside it, the corrected rule never
      raises, whatever bar it is handed. */
  lemma NextOnPreparedNeverFails(params: Params, raw: seq<Bar>, position: int, i: nat, bar: Bar)
    requires Prepare(params, raw).Ok? && i < |raw|
    ensures NextOnPrepared(StrategyView(params, Some(Prepare(params, raw).value), position, i), bar).Ok?
  {
    var fast, slow := Period(params, "fast_period").value, Period(params, "slow_period").value;
    var prepared := Prepared(raw, fast, slow);
    assert Prepare(params, raw).value == prepared;
    var maFast, maSlow := CalculateMA(Closes(raw), fast), CalculateMA(Closes(raw), slow);
    var row := WithColumns(raw[i], maFast[i], maSlow[i], CalculateCrossover(maFast, maSlow)[i]);
    assert prepared[i] == row;
    var v := StrategyView(params, Some(prepared), position, i);
    assert GetCurrentBar(v) == Some(row);
    assert NextOnPrepared(v, bar) == Next(v, row);
  }

  /** The rule never sells while flat, and any signal it gives is for the current row at its close. */
  lemma NeverSellsWhileFlat(v: StrategyView, bar: Bar)
    requires v.currentPosition <= 0
    ensures var r := NextOnPrepared(v, bar);
      r.Ok? && r.value.Some? ==> r.value.value.action == BuySignal && r.value.value.quantity == LotSize
  {
  }

  /** A BUY of exactly one lot at the close comes out exactly when both averages are defined, the
      crossover is 1 and the strategy is flat. */
  lemma BuyExactlyOnGoldenCrossWhileFlat(v: StrategyView, bar: Bar)
    requires GetCurrentBar(v).Some?
    ensures var row := GetCurrentBar(v).value;
      var r := NextOnPrepared(v, bar);
      (r.Ok? && r.value.Some? && r.value.value.action == BuySignal)
      <==> (&& "ma_fast" in row.indicators && row.indicators["ma_fast"].Some?
            && "ma_slow" in row.indicators && row.indicators["ma_slow"].Some?
            && "crossover" in row.indicators && row.indicators["crossover"] == Some(1.0)
            && v.currentPosition == 0)
    ensures var row := GetCurrentBar(v).value;
      var r := NextOnPrepared(v, bar);
      r.Ok? && r.value.Some? && r.value.value.action == BuySignal
      ==> r.value.value.quantity == LotSize && r.value.value.price == row.close
  {
  }

  /** A SELL of the whole position at the close comes out exactly when both averages are defined,
      the crossover is -1 and the strategy is long. */
  lemma SellAllExactlyOnDeathCrossWhileLong(v: StrategyView, bar: Bar)
    requires GetCurrentBar(v).Some?
    ensures var row := GetCurrentBar(v).value;
      var r := NextOnPrepared(v, bar);
      (r.Ok? && r.value.Some? && r.value.value.action == SellSignal)
      <==> (&& "ma_fast" in row.indicators && row.indicators["ma_fast"].Some?
            && "ma_slow" in row.indicators && row.indicators["ma_slow"].Some?
            && "crossover" in row.indicators && row.indicators["crossover"] == Some(-1.0)
            && v.currentPosition > 0)
    ensures var row := GetCurrentBar(v).value;
      var r := NextOnPrepared(v, bar);
      r.Ok? && r.value.Some? && r.value.value.action == SellSignal
      ==> r.value.value.quantity == v.currentPosition && r.value.value.price == row.close
  {
  }

  /** On prepared data the crossover column is the crossover of the two averages of the close, so a
      BUY marks a golden cross of those averages and a SELL a death cross. */
  lemma SignalsFollowCrossovers(params: Params, raw: seq<Bar>, position: int, i: nat, bar: Bar)
    requires Prepare(params, raw).Ok? && i < |raw|
    ensures var fast := CalculateMA(Closes(raw), Period(params, "fast_period").value);
      var slow := CalculateMA(Closes(raw), Period(params, "slow_period").value);
      var r := NextOnPrepared(StrategyView(params, Some(Prepare(params, raw).value), position, i), bar);
      && (r.Ok? && r.value.Some? && r.value.value.action == BuySignal ==> Golden(fast, slow, i))
      && (r.Ok? && r.value.Some? && r.value.value.action == SellSignal ==> Death(fast, slow, i))
  {
    var fast := CalculateMA(Closes(raw), Period(params, "fast_period").value);
    var slow := CalculateMA(Closes(raw), Period(params, "slow_period").value);
    var cross := CalculateCrossover(fast, slow);
    var prepared := Prepare(params, raw).value;
    var row := WithColumns(raw[i], fast[i], slow[i], cross[i]);
    assert prepared[i] == row;
    var v := StrategyView(params, Some(prepared), position, i);
    assert GetCurrentBar(v) == Some(row);
    BuyExactlyOnGoldenCrossWhileFlat(v, bar);
    SellAllExactlyOnDeathCrossWhileLong(v, bar);
    assert row.indicators["crossover"] == Some(1.0) ==> cross[i] == 1;
    assert row.indicators["crossover"] == Some(-1.0) ==> cross[i] == -1;
  }

  /** `MACrossStrategy(params)`: a strategy with the merged parameters, `init` = Prepare and
      `next` as written. */
  method NewMACross(user: Option<Params>) returns (s: Strategy)
    ensures fresh(s)
    ensures s.name == "MACrossStrategy" && s.params == MergeParams(user)
    ensures s.prepare == Prepare && s.decide == Next
    ensures s.data == None && s.currentPosition == 0 && s.currentIndex == 0
  {
    s := new Strategy("MACrossStrategy", Prepare, Next, Some(MergeParams(user)));
  }

  /** The same strategy with the corrected `next`, which reads the prepared row. */
  method NewCorrectedMACross(user: Option<Params>) returns (s: Strategy)
    ensures fresh(s)
    ensures s.name == "MACrossStrategy" && s.params == MergeParams(user)
    ensures s.prepare == Prepare && s.decide == NextOnPrepared
    ensures s.data == None && s.currentPosition == 0 && s.currentIndex == 0
  {
    s := new Strategy("MACrossStrategy", Prepare, NextOnPrepared, Some(MergeParams(user)));
  }
}
