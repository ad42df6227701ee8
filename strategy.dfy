/** The strategy protocol (src/strategy/base.py): the state every strategy keeps (parameters,
    prepared data, a position counter and the index of the bar being processed), the window
    accessors over the prepared data, signal construction and the fill callback.
    The two abstract hooks, `init` and `next`, are function values supplied by each strategy. */
module StrategyBase {
  import opened Wrappers
  import opened Types

  type Params = map<string, Param>

  /** A snapshot of a strategy's state, as its hooks see it. */
  datatype StrategyView = StrategyView(
    params: Params,
    data: Option<seq<Bar>>,
    currentPosition: int,
    currentIndex: nat)

  /** The row at the current index, or None before `init` or past the end of the data. */
  function GetCurrentBar(v: StrategyView): (b: Option<Bar>)
    ensures b.None? <==> v.data.None? || v.currentIndex >= |v.data.value|
    ensures b.Some? ==> b.value in v.data.value
  {
    if v.data.None? || v.currentIndex >= |v.data.value| then None
    else Some(v.data.value[v.currentIndex])
  }

  /** The row `n` bars before the current one, or None when that index is outside the data. */
  function GetPreviousBar(v: StrategyView, n: int): (b: Option<Bar>)
    ensures b.None? <==> v.data.None? || v.currentIndex - n < 0 || v.currentIndex - n >= |v.data.value|
    ensures b.Some? ==> b.value in v.data.value
  {
    var idx := v.currentIndex - n;
    if v.data.None? || idx < 0 || idx >= |v.data.value| then None
    else Some(v.data.value[idx])
  }

  /** Looking back zero bars is looking at the current bar. */
  lemma PreviousBarZeroIsCurrent(v: StrategyView)
    ensures GetPreviousBar(v, 0) == GetCurrentBar(v)
  {
  }

  function Min(a: int, b: int): int { if a < b then a else b }

  function Max(a: int, b: int): int { if a < b then b else a }

  /** The last `n` rows up to and including the current one, as a positional slice that is
      clipped to the data; None when there is no data or the window is empty (`n <= 0`). */
  function GetHistoricalData(v: StrategyView, n: int): (h: Option<seq<Bar>>)
    ensures h.None? <==> v.data.None? || n <= 0
    ensures h.Some? ==> |h.value| <= n
  {
    if v.data.None? then None
    else
      var endIdx := v.currentIndex + 1;
      var startIdx := Max(0, endIdx - n);
      if startIdx >= endIdx then None
      else
        var len := |v.data.value|;
        Some(v.data.value[Min(startIdx, len)..Min(endIdx, len)])
  }

  /** While the current bar exists, the history window ends with it and its `k`-th row is the bar
      `|h| - 1 - k` places back: the window is the run of consecutive bars before the current one. */
  lemma HistoryEndsAtCurrentBar(v: StrategyView, n: int)
    requires GetCurrentBar(v).Some? && n > 0
    ensures var h := GetHistoricalData(v, n);
      && h.Some? && |h.value| == Min(n, v.currentIndex + 1)
      && h.value[|h.value| - 1] == GetCurrentBar(v).value
      && forall k :: 0 <= k < |h.value| ==> Some(h.value[k]) == GetPreviousBar(v, |h.value| - 1 - k)
  {
    var rows := v.data.value;
    var start := Max(0, v.currentIndex + 1 - n);
    var h := GetHistoricalData(v, n).value;
    assert h == rows[start..v.currentIndex + 1];
    forall k | 0 <= k < |h|
      ensures Some(h[k]) == GetPreviousBar(v, |h| - 1 - k)
    {
      assert h[k] == rows[start + k];
      assert v.currentIndex - (|h| - 1 - k) == start + k;
    }
  }

  /** A signal for the current bar: the symbol is the bar's, or "UNKNOWN" when the data has no
      symbol column, and the timestamp is the bar's date. Without a current bar the source fails
      on the missing row. */
  function CreateSignal(v: StrategyView, action: SignalAction, price: real, quantity: int,
                        reason: string, confidence: real): (r: Result<Signal, Error>)
    ensures r.Ok? <==> GetCurrentBar(v).Some?
    ensures r.Err? ==> r.error == TypeFailure
    ensures r.Ok? ==> && r.value.action == action && r.value.price == price
                      && r.value.quantity == quantity && r.value.reason == reason
                      && r.value.confidence == confidence
                      && r.value.timestamp == GetCurrentBar(v).value.date
                      && r.value.symbol == GetCurrentBar(v).value.symbol.GetOr("UNKNOWN")
  {
    match GetCurrentBar(v)
    case None => Err(TypeFailure)
    case Some(bar) => Ok(Signal(action, bar.symbol.GetOr("UNKNOWN"), price, quantity, bar.date, reason, confidence))
  }

  /** A strategy: its name, its two hooks and its state. `prepare` is `init` (computes the
      indicator columns); `decide` is `next` (a signal, or None, for a bar). */
  class Strategy {
    const name: string
    const prepare: (Params, seq<Bar>) -> Result<seq<Bar>, Error>
    const decide: (StrategyView, Bar) -> Result<Option<Signal>, Error>
    var params: Params
    var data: Option<seq<Bar>>
    var currentPosition: int
    var currentIndex: nat

    /** A new strategy holds no data, no position, starts at index 0 and has empty parameters
        when none are given. */
    constructor (name: string, prepare: (Params, seq<Bar>) -> Result<seq<Bar>, Error>,
                 decide: (StrategyView, Bar) -> Result<Option<Signal>, Error>, params: Option<Params>)
      ensures this.name == name && this.prepare == prepare && this.decide == decide
      ensures this.params == (if params.Some? then params.value else map[])
      ensures data == None && currentPosition == 0 && currentIndex == 0
    {
      this.name := name;
      this.prepare := prepare;
      this.decide := decide;
      this.params := if params.Some? then params.value else map[];
      data := None;
      currentPosition := 0;
      currentIndex := 0;
    }

    function View(): StrategyView
      reads this
    {
      StrategyView(params, data, currentPosition, currentIndex)
    }

    /** Runs `init` on `bars`: on success the prepared rows become the strategy's data. */
    method Init(bars: seq<Bar>) returns (r: Result<(), Error>)
      modifies this
      ensures prepare(params, bars).Ok? ==> r.Ok? && data == Some(prepare(params, bars).value)
      ensures prepare(params, bars).Err? ==> r == Err(prepare(params, bars).error) && data == old(data)
      ensures params == old(params) && currentPosition == old(currentPosition) && currentIndex == old(currentIndex)
    {
      var p := prepare(params, bars);
      if p.Err? {
        return Err(p.error);
      }
      data := Some(p.value);
      return Ok(());
    }

    /** Runs `next` on `bar` against the strategy's current state. */
    method Next(bar: Bar) returns (r: Result<Option<Signal>, Error>)
      ensures r == decide(View(), bar)
    {
      r := decide(View(), bar);
    }

    /** Fill callback: a BUY fill adds the filled quantity to the position counter, a SELL fill
        subtracts it; nothing else changes. */
    method OnOrderFilled(order: Order)
      modifies this
      ensures order.side == Buy ==> currentPosition == old(currentPosition) + order.filledQuantity
      ensures order.side == Sell ==> currentPosition == old(currentPosition) - order.filledQuantity
      ensures params == old(params) && data == old(data) && currentIndex == old(currentIndex)
    {
      if order.side == Buy {
        currentPosition := currentPosition + order.filledQuantity;
      } else {
        currentPosition := currentPosition - order.filledQuantity;
      }
    }
  }
}
