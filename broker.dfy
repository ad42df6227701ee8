/** The simulated broker (src/backtest/broker.py): order validation, the funds check, fills with
    slippage, commission with a minimum, stamp tax on sales, and the cash, order and trade
    ledgers it keeps. */
module Brokerage {
  import opened Wrappers
  import opened Types

  /** Commission on `quantity` shares at `price`: the rate applied to the amount, but never less
      than the minimum. */
  function Commission(rate: real, minCommission: real, quantity: int, price: real): (c: real)
    ensures c >= minCommission
    ensures c >= quantity as real * price * rate
    ensures c == minCommission || c == quantity as real * price * rate
  {
    var byRate := quantity as real * price * rate;
    if byRate > minCommission then byRate else minCommission
  }

  /** Cash a BUY needs: the amount plus its commission. */
  function BuyCost(rate: real, minCommission: real, quantity: int, price: real): (c: real)
    ensures c >= quantity as real * price + minCommission
    ensures c >= quantity as real * price * (1.0 + rate)
    ensures c - quantity as real * price == Commission(rate, minCommission, quantity, price)
  {
    quantity as real * price + Commission(rate, minCommission, quantity, price)
  }

  /** The price a fill executes at: slippage raises what a buyer pays and lowers what a seller
      receives. */
  function ExecutionPrice(side: OrderSide, base: real, slippage: real): (p: real)
    ensures slippage == 0.0 ==> p == base
    ensures slippage >= 0.0 && base >= 0.0 && side == Buy ==> p >= base
    ensures slippage >= 0.0 && base >= 0.0 && side == Sell ==> p <= base
    ensures p - base == (if side == Buy then base * slippage else -(base * slippage))
  {
    match side
    case Buy => base * (1.0 + slippage)
    case Sell => base * (1.0 - slippage)
  }

  /** How much cash a fill moves: a BUY pays amount and commission, a SELL receives the amount
      less commission and stamp tax. */
  function CashChange(side: OrderSide, quantity: int, price: real, commission: real, stampTax: real): real
  {
    var amount := quantity as real * price;
    match side
    case Buy => -(amount + commission)
    case Sell => amount - commission - amount * stampTax
  }

  /** Sum of the commissions of `trades`. */
  function SumCommission(trades: seq<Trade>): real
  {
    if |trades| == 0 then 0.0 else SumCommission(trades[..|trades| - 1]) + trades[|trades| - 1].commission
  }

  /** Every trade pays at least the minimum commission, so the total is at least that many minimums. */
  lemma {:induction false} SumCommissionAtLeast(trades: seq<Trade>, minCommission: real)
    requires forall i :: 0 <= i < |trades| ==> trades[i].commission >= minCommission
    ensures SumCommission(trades) >= |trades| as real * minCommission
  {
    if |trades| > 0 {
      SumCommissionAtLeast(trades[..|trades| - 1], minCommission);
    }
  }

  class Broker {
    const initialCapital: real
    const commissionRate: real
    const minCommission: real
    const stampTax: real
    const slippage: real
    var cash: real
    var orders: seq<Order>
    var trades: seq<Trade>
    /** Source of fresh order and trade ids; it stands in for the clock-and-uuid ids. */
    var nextId: nat

    /** Ids are handed out in increasing order and never reused, and every trade paid at least
        the minimum commission. */
    ghost predicate Valid()
      reads this
    {
      (forall i, j :: 0 <= i < j < |orders| ==> orders[i].orderId < orders[j].orderId)
      && (forall i :: 0 <= i < |orders| ==> orders[i].orderId < nextId)
      && (forall i, j :: 0 <= i < j < |trades| ==> trades[i].tradeId < trades[j].tradeId)
      && (forall i :: 0 <= i < |trades| ==> trades[i].tradeId < nextId)
      && (forall i :: 0 <= i < |trades| ==> trades[i].commission >= minCommission)
    }

    constructor (initialCapital: real, commissionRate: real := DefaultCommissionRate,
                 minCommission: real := DefaultMinCommission, stampTax: real := DefaultStampTax,
                 slippage: real := 0.0)
      ensures Valid()
      ensures this.initialCapital == initialCapital && cash == initialCapital
      ensures this.commissionRate == commissionRate && this.minCommission == minCommission
      ensures this.stampTax == stampTax && this.slippage == slippage
      ensures orders == [] && trades == []
    {
      this.initialCapital := initialCapital;
      this.commissionRate := commissionRate;
      this.minCommission := minCommission;
      this.stampTax := stampTax;
      this.slippage := slippage;
      cash := initialCapital;
      orders := [];
      trades := [];
      nextId := 0;
    }

    /** Validates and records an order. A non-positive quantity or price is invalid; a BUY whose
        cost at the submitted price exceeds the cash is refused. Either way nothing changes.
        Otherwise exactly one new PENDING order is appended and returned; SELL orders are never
        funds-checked. */
    method SubmitOrder(symbol: string, side: OrderSide, quantity: int, price: real) returns (r: Result<Order, Error>)
      requires Valid()
      modifies this
      ensures Valid()
      ensures (quantity <= 0 || price <= 0.0) ==> r == Err(InvalidOrder)
      ensures (quantity > 0 && price > 0.0 && side == Buy && BuyCost(commissionRate, minCommission, quantity, price) > cash)
                ==> r == Err(InsufficientFunds)
      ensures r.Err? ==> unchanged(this)
      ensures (quantity > 0 && price > 0.0 && (side == Sell || BuyCost(commissionRate, minCommission, quantity, price) <= cash))
                ==> && r.Ok? && fresh(r.value)
                    && r.value.symbol == symbol && r.value.side == side
                    && r.value.quantity == quantity && r.value.price == price
                    && r.value.status == Pending && r.value.filledQuantity == 0
                    && r.value.orderId == old(nextId)
                    && orders == old(orders) + [r.value]
                    && cash == old(cash) && trades == old(trades)
    {
      if quantity <= 0 || price <= 0.0 {
        return Err(InvalidOrder);
      }
      if side == Buy && BuyCost(commissionRate, minCommission, quantity, price) > cash {
        return Err(InsufficientFunds);
      }
      var order := new Order(nextId, symbol, side, quantity, price);
      orders := orders + [order];
      nextId := nextId + 1;
      return Ok(order);
    }

    /** Fills a PENDING order in full at `fillPrice` (the order's own price when absent) adjusted
        for slippage, charges commission, moves the cash and appends exactly one trade.
        An order that is not PENDING is refused with nothing changed, so no order fills twice. */
    method FillOrder(order: Order, fillPrice: Option<real>) returns (r: Result<Trade, Error>)
      requires Valid()
      modifies this, order
      ensures Valid()
      ensures old(order.status) != Pending ==> r == Err(InvalidOrder) && unchanged(this) && unchanged(order)
      ensures old(order.status) == Pending ==>
                var price := ExecutionPrice(order.side, fillPrice.GetOr(order.price), slippage);
                var commission := Commission(commissionRate, minCommission, order.quantity, price);
                && order.status == Filled
                && order.filledQuantity == order.quantity
                && order.filledPrice == price
                && order.commission == commission
                && r == Ok(Trade(old(nextId), order.orderId, order.symbol, order.side, order.quantity, price, commission))
                && trades == old(trades) + [r.value]
                && orders == old(orders)
                && cash == old(cash) + CashChange(order.side, order.quantity, price, commission, stampTax)
    {
      if order.status != Pending {
        return Err(InvalidOrder);
      }
      var price := ExecutionPrice(order.side, fillPrice.GetOr(order.price), slippage);
      var commission := Commission(commissionRate, minCommission, order.quantity, price);
      order.filledQuantity := order.quantity;
      order.filledPrice := price;
      order.commission := commission;
      order.status := Filled;
      cash := cash + CashChange(order.side, order.filledQuantity, price, commission, stampTax);
      var trade := Trade(nextId, order.orderId, order.symbol, order.side, order.filledQuantity, price, commission);
      trades := trades + [trade];
      nextId := nextId + 1;
      return Ok(trade);
    }

    function Cash(): real
      reads this
    {
      cash
    }

    function TotalCommission(): real
      reads this
    {
      SumCommission(trades)
    }

    function TradeCount(): nat
      reads this
    {
      |trades|
    }

    /** The commission paid so far is at least one minimum commission per trade. */
    lemma TotalCommissionAtLeast()
      requires Valid()
      ensures TotalCommission() >= TradeCount() as real * minCommission
    {
      SumCommissionAtLeast(trades, minCommission);
    }
  }

  /** A BUY fill takes exactly the trade's total cost out of cash; a SELL fill adds the amount less
      commission and stamp tax, which is never more than the amount when both charges are
      non-negative. */
  lemma CashChangeOfTrade(t: Trade, stampTax: real)
    requires t.commission >= 0.0 && stampTax >= 0.0 && t.Amount() >= 0.0
    ensures t.side == Buy ==> CashChange(t.side, t.quantity, t.price, t.commission, stampTax) == -t.TotalCost()
    ensures t.side == Sell ==> CashChange(t.side, t.quantity, t.price, t.commission, stampTax) <= t.Amount()
  {
    MulNonNegative(t.Amount(), stampTax);
  }

  /** Buying 100 shares at 10 with 100000 of capital and the default charges costs 1000 plus the
      5.0 minimum commission (0.0003 of 1000 is only 0.3). */
  method ExampleBuy() returns (cash: real, trade: Trade)
    ensures cash == 98995.0
    ensures trade.commission == 5.0 && trade.quantity == 100 && trade.price == 10.0
  {
    var b := new Broker(100000.0);
    var r := b.SubmitOrder("600000.SH", Buy, 100, 10.0);
    var order := r.value;
    var f := b.FillOrder(order, None);
    cash, trade := b.cash, f.value;
  }

  /** With 100 of capital a BUY of 100 shares at 10 is refused for lack of funds. */
  method ExampleRefusedBuy() returns (r: Result<Order, Error>, orderCount: nat)
    ensures r == Err(InsufficientFunds) && orderCount == 0
  {
    var b := new Broker(100.0);
    r := b.SubmitOrder("600000.SH", Buy, 100, 10.0);
    orderCount := |b.orders|;
  }
}
