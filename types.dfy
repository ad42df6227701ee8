/** Core records of the backtester: order side and status, signals, orders, positions, trades,
    bars and the backtest result (src/core/types.py), and the exception classes of
    src/core/exceptions.py that the core raises. */
module Types {
  import opened Wrappers

  /** Trading defaults (src/core/constants.py). */
  const DefaultCommissionRate: real := 0.0003
  const DefaultMinCommission: real := 5.0
  const DefaultSlippage: real := 0.0001
  const DefaultStampTax: real := 0.001
  const TradingDaysPerYear: nat := 252
  const RiskFreeRate: real := 0.03

  /** A trading day, as a day number; `d + 7` is seven days later. */
  type Date = int

  datatype OrderSide = Buy | Sell

  datatype OrderStatus = Pending | Filled | Cancelled | Rejected

  /** BUY / SELL / HOLD of a strategy signal. */
  datatype SignalAction = BuySignal | SellSignal | HoldSignal

  /** The exception classes the modelled code raises. */
  datatype Error =
    | InsufficientFunds   // InsufficientFundsError
    | InvalidOrder        // InvalidOrderError
    | BacktestFailure     // BacktestError
    | DataFailure         // DataError
    | DataNotFound        // DataNotFoundError
    | ConfigNotFound      // ConfigNotFoundError
    | ValueFailure        // ValueError
    | KeyFailure          // KeyError (a missing column or key)
    | TypeFailure         // TypeError (an operation on None or on the wrong kind of value)
    | ZeroDivision        // ZeroDivisionError

  /** A scalar parameter value, as strategy parameters and indicator settings hold them. */
  datatype Param = IntParam(i: int) | RealParam(r: real) | TextParam(s: string)

  /** One row of price data. `symbol` is None when the frame has no `symbol` column;
      `indicators` holds every further column of the row (`ma_fast`, `crossover`, ...), with
      None standing for a NaN cell. */
  datatype Bar = Bar(
    symbol: Option<string>,
    date: Date,
    open: real,
    high: real,
    low: real,
    close: real,
    volume: real,
    amount: real,
    indicators: map<string, Option<real>>)

  /** The dates of a frame, in row order. */
  function DatesOf(data: seq<Bar>): (d: seq<Date>)
    ensures |d| == |data| && forall i :: 0 <= i < |data| ==> d[i] == data[i].date
  {
    seq(|data|, i requires 0 <= i < |data| => data[i].date)
  }

  /** The `close` column of a frame, in row order. */
  function Closes(data: seq<Bar>): (c: seq<real>)
    ensures |c| == |data| && forall i :: 0 <= i < |data| ==> c[i] == data[i].close
  {
    seq(|data|, i requires 0 <= i < |data| => data[i].close)
  }

  /** The earliest date of a non-empty frame. */
  function FirstDate(data: seq<Bar>): (d: Date)
    requires |data| > 0
    ensures forall i :: 0 <= i < |data| ==> d <= data[i].date
    ensures exists i :: 0 <= i < |data| && d == data[i].date
  {
    if |data| == 1 then data[0].date
    else
      var rest := FirstDate(data[1..]);
      assert forall i :: 1 <= i < |data| ==> data[i] == data[1..][i - 1];
      if data[0].date <= rest then data[0].date else rest
  }

  /** The latest date of a non-empty frame. */
  function LastDate(data: seq<Bar>): (d: Date)
    requires |data| > 0
    ensures forall i :: 0 <= i < |data| ==> data[i].date <= d
    ensures exists i :: 0 <= i < |data| && d == data[i].date
  {
    if |data| == 1 then data[0].date
    else
      var rest := LastDate(data[1..]);
      assert forall i :: 1 <= i < |data| ==> data[i] == data[1..][i - 1];
      if data[0].date >= rest then data[0].date else rest
  }

  /** A strategy's request to trade; the timestamp is the bar's date. */
  datatype Signal = Signal(
    action: SignalAction,
    symbol: string,
    price: real,
    quantity: int,
    timestamp: Date,
    reason: string,
    confidence: real)

  /** The immutable record of one fill. */
  datatype Trade = Trade(
    tradeId: nat,
    orderId: nat,
    symbol: string,
    side: OrderSide,
    quantity: int,
    price: real,
    commission: real)
  {
    /** Traded amount, without commission. */
    function Amount(): (a: real)
      ensures quantity >= 0 && price >= 0.0 ==> a >= 0.0
    {
      quantity as real * price
    }

    /** Amount plus commission: what a BUY of this trade costs. */
    function TotalCost(): (c: real)
      ensures c - commission == Amount()
    {
      Amount() + commission
    }
  }

  /** An order. Its identity and request never change; the broker fills in the status and the
      filled fields in place. */
  class Order {
    const orderId: nat
    const symbol: string
    const side: OrderSide
    const quantity: int
    const price: real
    var status: OrderStatus
    var filledQuantity: int
    var filledPrice: real
    var commission: real

    constructor (orderId: nat, symbol: string, side: OrderSide, quantity: int, price: real)
      ensures this.orderId == orderId && this.symbol == symbol && this.side == side
      ensures this.quantity == quantity && this.price == price
      ensures status == Pending && filledQuantity == 0 && filledPrice == 0.0 && commission == 0.0
    {
      this.orderId := orderId;
      this.symbol := symbol;
      this.side := side;
      this.quantity := quantity;
      this.price := price;
      status := Pending;
      filledQuantity := 0;
      filledPrice := 0.0;
      commission := 0.0;
    }

    predicate IsFilled()
      reads this
    {
      status == Filled
    }

    /** Filled amount, without commission. */
    function FilledAmount(): real
      reads this
    {
      filledQuantity as real * filledPrice
    }
  }

  /** New average cost after buying `q` more at `p`, holding `quantity` at `avgCost`:
      the total cost spread over the new quantity, or 0 when nothing is left. */
  function AvgCostAfterAdd(quantity: int, avgCost: real, q: int, p: real): (a: real)
    ensures quantity + q > 0 ==> (quantity + q) as real * a == quantity as real * avgCost + q as real * p
    ensures quantity + q <= 0 ==> a == 0.0
  {
    var total := quantity as real * avgCost + q as real * p;
    var n := quantity + q;
    if n > 0 then total / n as real else 0.0
  }

  /** Buying more at prices between two bounds keeps the average cost between them. */
  lemma {:induction false} AvgCostStaysBetween(quantity: int, avgCost: real, q: int, p: real, lo: real, hi: real)
    requires quantity >= 0 && q > 0
    requires quantity > 0 ==> lo <= avgCost <= hi
    requires lo <= p <= hi
    ensures lo <= AvgCostAfterAdd(quantity, avgCost, q, p) <= hi
  {
    var a := AvgCostAfterAdd(quantity, avgCost, q, p);
    var x, y := quantity as real, q as real;
    assert (x + y) * a == x * avgCost + y * p;
    // Each bound follows from the sign of a sum of two non-negative products.
    var dl := if quantity > 0 then avgCost - lo else 0.0;
    var dh := if quantity > 0 then hi - avgCost else 0.0;
    assert x * avgCost == x * (lo + dl) == x * (hi - dh);
    MulNonNegative(x, dl);
    MulNonNegative(y, p - lo);
    MulNonNegative(x, dh);
    MulNonNegative(y, hi - p);
    assert (x + y) * (a - lo) == x * dl + y * (p - lo);
    assert (x + y) * (hi - a) == x * dh + y * (hi - p);
    PositiveFactor(x + y, a - lo);
    PositiveFactor(x + y, hi - a);
  }

  lemma MulNonNegative(k: real, d: real)
    requires k >= 0.0 && d >= 0.0
    ensures k * d >= 0.0
  {
  }

  lemma PositiveFactor(k: real, d: real)
    requires k > 0.0 && k * d >= 0.0
    ensures d >= 0.0
  {
  }

  /** A per-symbol holding, updated in place by the engine. */
  class Position {
    const symbol: string
    var quantity: int
    var avgCost: real
    var currentPrice: real

    constructor (symbol: string, quantity: int, avgCost: real, currentPrice: real := 0.0)
      ensures this.symbol == symbol && this.quantity == quantity
      ensures this.avgCost == avgCost && this.currentPrice == currentPrice
    {
      this.symbol := symbol;
      this.quantity := quantity;
      this.avgCost := avgCost;
      this.currentPrice := currentPrice;
    }

    function MarketValue(): real
      reads this
    {
      quantity as real * currentPrice
    }

    function CostBasis(): real
      reads this
    {
      quantity as real * avgCost
    }

    /** Market value minus cost basis: the per-share margin times the quantity. */
    function UnrealizedPnl(): (u: real)
      reads this
      ensures u == quantity as real * (currentPrice - avgCost)
    {
      MarketValue() - CostBasis()
    }

    /** Unrealized P&L as a percentage of the cost basis; 0 when there is no cost basis. */
    function UnrealizedPnlPct(): (pct: real)
      reads this
      ensures CostBasis() == 0.0 ==> pct == 0.0
      ensures CostBasis() != 0.0 ==> pct * CostBasis() == 100.0 * UnrealizedPnl()
    {
      if CostBasis() == 0.0 then 0.0 else (UnrealizedPnl() / CostBasis()) * 100.0
    }

    /** Marks the position to a new price; quantity and cost are untouched. */
    method UpdatePrice(price: real)
      modifies this
      ensures currentPrice == price
      ensures quantity == old(quantity) && avgCost == old(avgCost)
    {
      currentPrice := price;
    }

    /** Adds `q` shares bought at `p`, folding them into the weighted-average cost. */
    method Add(q: int, p: real)
      modifies this
      ensures quantity == old(quantity) + q
      ensures avgCost == AvgCostAfterAdd(old(quantity), old(avgCost), q, p)
      ensures quantity > 0 ==> CostBasis() == old(CostBasis()) + q as real * p
      ensures currentPrice == old(currentPrice)
    {
      var totalCost := CostBasis() + q as real * p;
      quantity := quantity + q;
      avgCost := if quantity > 0 then totalCost / quantity as real else 0.0;
    }

    /** Removes `q` shares and returns the realized P&L at the current price. Asking for more
        than is held fails and changes nothing. The average cost is kept, so realized plus
        remaining unrealized P&L equals the unrealized P&L before the sale. */
    method Reduce(q: int) returns (r: Result<real, Error>)
      modifies this
      ensures q > old(quantity) ==> r == Err(ValueFailure) && quantity == old(quantity)
      ensures q <= old(quantity) ==> r.Ok?
      ensures q <= old(quantity) ==> quantity == old(quantity) - q
      ensures r.Ok? ==> r.value == q as real * (currentPrice - avgCost)
      ensures avgCost == old(avgCost) && currentPrice == old(currentPrice)
      ensures r.Ok? ==> r.value + UnrealizedPnl() == old(UnrealizedPnl())
    {
      if q > quantity {
        return Err(ValueFailure);
      }
      var realized := q as real * (currentPrice - avgCost);
      quantity := quantity - q;
      assert realized + UnrealizedPnl() == (q + quantity) as real * (currentPrice - avgCost);
      r := Ok(realized);
      assert r.value == q as real * (currentPrice - avgCost);
    }
  }

  /** The summary a run produces. `valueDates` is the index of `portfolioValues`. */
  datatype BacktestResult = BacktestResult(
    strategyName: string,
    symbol: string,
    startDate: Date,
    endDate: Date,
    initialCapital: real,
    finalCapital: real,
    portfolioValues: seq<real>,
    valueDates: seq<Date>,
    dailyReturns: seq<real>,
    orders: seq<Order>,
    trades: seq<Trade>,
    metrics: map<string, real>)
  {
    /** Gain over the initial capital, as a fraction of it; a zero initial capital is a
        ZeroDivisionError. */
    function TotalReturn(): (r: Result<real, Error>)
      ensures r.Err? <==> initialCapital == 0.0
      ensures r.Err? ==> r.error == ZeroDivision
      ensures r.Ok? ==> initialCapital * r.value == finalCapital - initialCapital
      ensures r.Ok? && finalCapital == initialCapital ==> r.value == 0.0
    {
      if initialCapital == 0.0 then Err(ZeroDivision)
      else Ok((finalCapital - initialCapital) / initialCapital)
    }

    /** The total return in percent; the same error for a zero initial capital. */
    function TotalReturnPct(): (r: Result<real, Error>)
      ensures r.Err? <==> initialCapital == 0.0
      ensures r.Err? ==> r.error == ZeroDivision
      ensures r.Ok? ==> initialCapital * r.value == (finalCapital - initialCapital) * 100.0
    {
      var t := TotalReturn();
      if t.Err? then t else Ok(t.value * 100.0)
    }
  }
}
