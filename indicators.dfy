/** Indicator series (src/strategy/indicators.py): the rolling mean, golden/death crossover
    detection, and the batch dispatcher that adds configured indicator columns to a frame.
    A series entry of None is a NaN: every comparison with it is false. */
module Indicators {
  import opened Wrappers
  import opened Types

  type Column = seq<Option<real>>

  function Sum(xs: seq<real>): real
  {
    if |xs| == 0 then 0.0 else xs[0] + Sum(xs[1..])
  }

  function Mean(xs: seq<real>): real
    requires |xs| > 0
  {
    Sum(xs) / |xs| as real
  }

  /** `x.rolling(window=period).mean()`: entry `i` is the mean of the `period` values ending at
      `i`, and NaN while fewer than `period` values are available (always NaN for period 0). */
  function CalculateMA(x: seq<real>, period: nat): (m: Column)
    ensures |m| == |x|
    ensures forall i :: 0 <= i < |x| ==> (m[i].Some? <==> period > 0 && i + 1 >= period)
  {
    seq(|x|, i requires 0 <= i < |x| =>
      if period > 0 && i + 1 >= period then Some(Mean(x[i + 1 - period..i + 1])) else None)
  }

  /** The volume moving average is the same rolling mean over the volume column. */
  function CalculateVolumeMA(volume: seq<real>, period: nat): (m: Column)
    ensures |m| == |volume|
    ensures forall i :: 0 <= i < |volume| ==> (m[i].Some? <==> period > 0 && i + 1 >= period)
  {
    CalculateMA(volume, period)
  }

  lemma {:induction false} SumBounds(xs: seq<real>, lo: real, hi: real)
    requires forall j :: 0 <= j < |xs| ==> lo <= xs[j] <= hi
    ensures |xs| as real * lo <= Sum(xs) <= |xs| as real * hi
  {
    if |xs| > 0 {
      SumBounds(xs[1..], lo, hi);
    }
  }

  /** A defined moving average lies between the smallest and largest value of its window. */
  lemma MAWithinWindowBounds(x: seq<real>, period: nat, i: nat, lo: real, hi: real)
    requires i < |x| && period > 0 && i + 1 >= period
    requires forall j :: i + 1 - period <= j <= i ==> lo <= x[j] <= hi
    ensures CalculateMA(x, period)[i].Some?
    ensures lo <= CalculateMA(x, period)[i].value <= hi
  {
    var w := x[i + 1 - period..i + 1];
    assert forall j :: 0 <= j < |w| ==> w[j] == x[i + 1 - period + j];
    SumBounds(w, lo, hi);
    var n := period as real;
    assert n * lo <= Sum(w) <= n * hi;
    assert CalculateMA(x, period)[i].value == Sum(w) / n;
    assert Sum(w) / n * n == Sum(w);
    DivideBounds(Sum(w), n, lo, hi);
  }

  lemma DivideBounds(s: real, n: real, lo: real, hi: real)
    requires n > 0.0 && n * lo <= s <= n * hi
    ensures lo <= s / n <= hi
  {
  }

  /** The moving average of a constant series is that constant wherever it is defined. */
  lemma MAOfConstantSeries(x: seq<real>, period: nat, c: real)
    requires forall j :: 0 <= j < |x| ==> x[j] == c
    ensures forall i :: 0 <= i < |x| && CalculateMA(x, period)[i].Some? ==> CalculateMA(x, period)[i].value == c
  {
    forall i | 0 <= i < |x| && CalculateMA(x, period)[i].Some?
      ensures CalculateMA(x, period)[i].value == c
    {
      MAWithinWindowBounds(x, period, i, c, c);
    }
  }

  /** A one-bar moving average is the series itself. */
  lemma MAOfPeriodOne(x: seq<real>)
    ensures forall i :: 0 <= i < |x| ==> CalculateMA(x, 1)[i] == Some(x[i])
  {
    forall i | 0 <= i < |x|
      ensures CalculateMA(x, 1)[i] == Some(x[i])
    {
      assert x[i..i + 1] == [x[i]];
      assert Sum([x[i]]) == x[i] + Sum([]);
    }
  }

  /** Comparisons as pandas makes them: false whenever either side is NaN. */
  predicate Gt(a: Option<real>, b: Option<real>) { a.Some? && b.Some? && a.value > b.value }
  predicate Lt(a: Option<real>, b: Option<real>) { a.Some? && b.Some? && a.value < b.value }
  predicate Ge(a: Option<real>, b: Option<real>) { a.Some? && b.Some? && a.value >= b.value }
  predicate Le(a: Option<real>, b: Option<real>) { a.Some? && b.Some? && a.value <= b.value }

  /** Fast above slow now, and not above at the previous bar (shifted series: no previous at 0). */
  predicate Golden(fast: Column, slow: Column, i: nat)
    requires i < |fast| && |fast| == |slow|
  {
    i > 0 && Gt(fast[i], slow[i]) && Le(fast[i - 1], slow[i - 1])
  }

  /** Fast below slow now, and not below at the previous bar. */
  predicate Death(fast: Column, slow: Column, i: nat)
    requires i < |fast| && |fast| == |slow|
  {
    i > 0 && Lt(fast[i], slow[i]) && Ge(fast[i - 1], slow[i - 1])
  }

  /** 1 at a golden cross, -1 at a death cross, 0 elsewhere (death crosses are written last). */
  function CalculateCrossover(fast: Column, slow: Column): (c: seq<int>)
    requires |fast| == |slow|
    ensures |c| == |fast|
    ensures forall i :: 0 <= i < |c| ==> (c[i] == 1 <==> Golden(fast, slow, i))
    ensures forall i :: 0 <= i < |c| ==> (c[i] == -1 <==> Death(fast, slow, i))
    ensures forall i :: 0 <= i < |c| ==> (c[i] == 0 <==> !Golden(fast, slow, i) && !Death(fast, slow, i))
  {
    seq(|fast|, i requires 0 <= i < |fast| =>
      if Death(fast, slow, i) then -1 else if Golden(fast, slow, i) then 1 else 0)
  }

  /** A bar is never both a golden and a death cross. */
  lemma GoldenDeathExclusive(fast: Column, slow: Column, i: nat)
    requires i < |fast| && |fast| == |slow|
    ensures !(Golden(fast, slow, i) && Death(fast, slow, i))
  {
  }

  /** Two golden crosses (or two death crosses) never fall on consecutive bars: after a golden
      cross the fast line is already above. */
  lemma NoConsecutiveCrosses(fast: Column, slow: Column, i: nat)
    requires i + 1 < |fast| && |fast| == |slow|
    ensures Golden(fast, slow, i) ==> !Golden(fast, slow, i + 1)
    ensures Death(fast, slow, i) ==> !Death(fast, slow, i + 1)
  {
  }

  /** The numerical indicators this model leaves uninterpreted (EMA, RSI, MACD, Bollinger bands).
      Each takes the close column and its settings and may fail as pandas does. */
  datatype Calculators = Calculators(
    ema: (seq<real>, Param) -> Result<Column, Error>,
    rsi: (seq<real>, Param) -> Result<Column, Error>,
    macd: seq<real> -> (Column, Column, Column),
    bollinger: (seq<real>, Param, Param) -> Result<(Column, Column, Column), Error>)

  type Table = map<string, Column>

  type IndicatorConfig = map<string, Param>

  /** `config.get(key, default)`. */
  function Setting(config: IndicatorConfig, key: string, default: Param): Param
  {
    if key in config then config[key] else default
  }

  /** The rolling mean of the close column with a configured window; a window that is not a
      non-negative integer makes pandas raise ValueError. */
  function MAColumn(close: seq<real>, period: Param): Result<Column, Error>
  {
    if period.IntParam? && period.i >= 0 then Ok(CalculateMA(close, period.i)) else Err(ValueFailure)
  }

  /** `config.get('type')`. */
  function Kind(config: IndicatorConfig): Option<Param>
  {
    if "type" in config then Some(config["type"]) else None
  }

  /** The columns one configured indicator writes (an unknown type writes none). */
  function ColumnsWritten(name: string, config: IndicatorConfig): set<string>
  {
    var kind := Kind(config);
    if kind == Some(TextParam("ma")) || kind == Some(TextParam("ema")) || kind == Some(TextParam("rsi")) then {name}
    else if kind == Some(TextParam("macd")) then {name + "_macd", name + "_signal", name + "_histogram"}
    else if kind == Some(TextParam("bollinger")) then {name + "_middle", name + "_upper", name + "_lower"}
    else {}
  }

  /** One step of the dispatcher: the table with the columns of one indicator added. */
  function AddIndicator(close: seq<real>, table: Table, name: string, config: IndicatorConfig,
                        fns: Calculators): (r: Result<Table, Error>)
    ensures r.Ok? ==> r.value.Keys == table.Keys + ColumnsWritten(name, config)
    ensures r.Ok? ==> forall k :: k in table && k !in ColumnsWritten(name, config) ==> r.value[k] == table[k]
    ensures ColumnsWritten(name, config) == {} ==> r == Ok(table)
    ensures Kind(config) == Some(TextParam("ma")) ==>
              var p := Setting(config, "period", IntParam(20));
              && (r.Err? <==> !(p.IntParam? && p.i >= 0))
              && (r.Err? ==> r.error == ValueFailure)
              && (r.Ok? ==> r.value[name] == CalculateMA(close, p.i))
    ensures Kind(config) == Some(TextParam("ema")) ==>
              var m := fns.ema(close, Setting(config, "period", IntParam(20)));
              && (r.Err? <==> m.Err?) && (m.Err? ==> r.error == m.error) && (r.Ok? ==> r.value[name] == m.value)
    ensures Kind(config) == Some(TextParam("rsi")) ==>
              var m := fns.rsi(close, Setting(config, "period", IntParam(14)));
              && (r.Err? <==> m.Err?) && (m.Err? ==> r.error == m.error) && (r.Ok? ==> r.value[name] == m.value)
    ensures Kind(config) == Some(TextParam("macd")) ==>
              && r.Ok?
              && r.value[name + "_macd"] == fns.macd(close).0
              && r.value[name + "_signal"] == fns.macd(close).1
              && r.value[name + "_histogram"] == fns.macd(close).2
    ensures Kind(config) == Some(TextParam("bollinger")) ==>
              var b := fns.bollinger(close, Setting(config, "period", IntParam(20)), Setting(config, "std_dev", RealParam(2.0)));
              && (r.Err? <==> b.Err?) && (b.Err? ==> r.error == b.error)
              && (r.Ok? ==> && r.value[name + "_middle"] == b.value.0
                            && r.value[name + "_upper"] == b.value.1
                            && r.value[name + "_lower"] == b.value.2)
  {
    var kind := Kind(config);
    if kind == Some(TextParam("ma")) then
      var m := MAColumn(close, Setting(config, "period", IntParam(20)));
      if m.Err? then Err(m.error) else Ok(table[name := m.value])
    else if kind == Some(TextParam("ema")) then
      var m := fns.ema(close, Setting(config, "period", IntParam(20)));
      if m.Err? then Err(m.error) else Ok(table[name := m.value])
    else if kind == Some(TextParam("rsi")) then
      var m := fns.rsi(close, Setting(config, "period", IntParam(14)));
      if m.Err? then Err(m.error) else Ok(table[name := m.value])
    else if kind == Some(TextParam("macd")) then
      var (line, signal, histogram) := fns.macd(close);
      assert (name + "_macd")[|name| + 1] != (name + "_signal")[|name| + 1];
      Ok(table[name + "_macd" := line][name + "_signal" := signal][name + "_histogram" := histogram])
    else if kind == Some(TextParam("bollinger")) then
      var b := fns.bollinger(close, Setting(config, "period", IntParam(20)), Setting(config, "std_dev", RealParam(2.0)));
      if b.Err? then Err(b.error)
      else
        var (middle, upper, lower) := b.value;
        assert (name + "_upper")[|name| + 1] != (name + "_lower")[|name| + 1];
        assert (name + "_middle")[|name| + 1] != (name + "_upper")[|name| + 1];
        Ok(table[name + "_middle" := middle][name + "_upper" := upper][name + "_lower" := lower])
    else
      Ok(table)
  }

  /** Every configured indicator applied in order, stopping at the first failure. */
  function AddAll(close: seq<real>, table: Table, indicators: seq<(string, IndicatorConfig)>,
                  fns: Calculators): Result<Table, Error>
    decreases |indicators|
  {
    if |indicators| == 0 then Ok(table)
    else
      var r := AddIndicator(close, table, indicators[0].0, indicators[0].1, fns);
      if r.Err? then r else AddAll(close, r.value, indicators[1..], fns)
  }

  /** All columns written by a list of indicators. */
  function AllColumnsWritten(indicators: seq<(string, IndicatorConfig)>): set<string>
    decreases |indicators|
  {
    if |indicators| == 0 then {} else ColumnsWritten(indicators[0].0, indicators[0].1) + AllColumnsWritten(indicators[1..])
  }

  /** The result keeps every input column, adds exactly the configured indicators' columns, and
      leaves every input column that no indicator writes untouched. */
  lemma {:induction false} AddAllKeepsColumns(close: seq<real>, table: Table,
                                              indicators: seq<(string, IndicatorConfig)>, fns: Calculators)
    ensures var r := AddAll(close, table, indicators, fns);
      r.Ok? ==> && r.value.Keys == table.Keys + AllColumnsWritten(indicators)
                && forall k :: k in table && k !in AllColumnsWritten(indicators) ==> r.value[k] == table[k]
    decreases |indicators|
  {
    if |indicators| > 0 {
      var (name, config) := indicators[0];
      var r := AddIndicator(close, table, name, config, fns);
      if r.Ok? {
        var rest := indicators[1..];
        AddAllKeepsColumns(close, r.value, rest, fns);
        var final := AddAll(close, r.value, rest, fns);
        assert AddAll(close, table, indicators, fns) == final;
        assert AllColumnsWritten(indicators) == ColumnsWritten(name, config) + AllColumnsWritten(rest);
        if final.Ok? {
          forall k | k in table && k !in AllColumnsWritten(indicators)
            ensures final.value[k] == table[k]
          {
            assert k in r.value && r.value[k] == table[k];
          }
        }
      }
    }
  }

  /** A list of indicators of unknown type changes nothing. */
  lemma {:induction false} AddAllUnknownTypes(close: seq<real>, table: Table,
                                              indicators: seq<(string, IndicatorConfig)>, fns: Calculators)
    requires forall j :: 0 <= j < |indicators| ==> ColumnsWritten(indicators[j].0, indicators[j].1) == {}
    ensures AddAll(close, table, indicators, fns) == Ok(table)
    decreases |indicators|
  {
    if |indicators| > 0 {
      AddAllUnknownTypes(close, table, indicators[1..], fns);
    }
  }

  /** `add_indicators_to_data`: works on a copy of the table and adds each configured indicator
      in turn; an unknown type only logs a warning. */
  method AddIndicatorsToData(close: seq<real>, table: Table, indicators: seq<(string, IndicatorConfig)>,
                             fns: Calculators) returns (r: Result<Table, Error>)
    ensures r == AddAll(close, table, indicators, fns)
  {
    var result := table;
    var i := 0;
    while i < |indicators|
      invariant 0 <= i <= |indicators|
      invariant AddAll(close, table, indicators, fns) == AddAll(close, result, indicators[i..], fns)
    {
      var step := AddIndicator(close, result, indicators[i].0, indicators[i].1, fns);
      if step.Err? {
        assert AddAll(close, result, indicators[i..], fns) == step;
        return step;
      }
      assert indicators[i..][1..] == indicators[i + 1..];
      result := step.value;
      i := i + 1;
    }
    return Ok(result);
  }
}
