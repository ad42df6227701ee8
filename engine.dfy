/** The event-driven backtest engine (src/backtest/engine.py): per bar it marks the traded
    symbol's position to the close, asks the strategy for a signal, turns a BUY or SELL signal
    into a broker order that fills at the close, updates the position, and records the portfolio
    value and the date; at the end it builds the result with the metrics. */
module Engine {
  import opened Wrappers
  import opened Types
  import opened Brokerage
  import opened StrategyBase
  import Metrics
  import Configuration

  /** The state of one position, as a value. */
  datatype Holding = Holding(quantity: int, avgCost: real, currentPrice: real)

  /** Market value of the holdings of `symbols`, summed in that order. */
  function HoldingsValue(symbols: seq<string>, h: map<string, Holding>): real
    requires forall s :: s in symbols ==> s in h
  {
    if |symbols| == 0 then 0.0
    else
      var s := symbols[|symbols| - 1];
      HoldingsValue(symbols[..|symbols| - 1], h) + h[s].quantity as real * h[s].currentPrice
  }

  /** Changing one listed holding changes the total by the change in that holding's value. */
  lemma {:induction false} HoldingsValueUpdate(symbols: seq<string>, h: map<string, Holding>, s: string, x: Holding)
    requires forall t :: t in symbols ==> t in h
    requires s in h
    requires forall i, j :: 0 <= i < j < |symbols| ==> symbols[i] != symbols[j]
    ensures HoldingsValue(symbols, h[s := x])
            == HoldingsValue(symbols, h)
               + (if s in symbols then x.quantity as real * x.currentPrice - h[s].quantity as real * h[s].currentPrice else 0.0)
  {
    if |symbols| > 0 {
      var init := symbols[..|symbols| - 1];
      HoldingsValueUpdate(init, h, s, x);
      var t := symbols[|symbols| - 1];
      assert s in symbols <==> s in init || s == t;
      assert s == t ==> s !in init;
    }
  }

  /** A holding that nobody lists does not count. */
  lemma {:induction false} HoldingsValueUnlisted(symbols: seq<string>, h: map<string, Holding>, s: string, x: Holding)
    requires forall t :: t in symbols ==> t in h
    requires s !in symbols
    ensures HoldingsValue(symbols, h[s := x]) == HoldingsValue(symbols, h)
  {
    if |symbols| > 0 {
      HoldingsValueUnlisted(symbols[..|symbols| - 1], h, s, x);
    }
  }

  /** Python's `arg or fallback`: a missing or zero argument gives the fallback. */
  function OrElse(arg: Option<real>, fallback: Result<real, Error>): (r: Result<real, Error>)
    ensures arg.Some? && arg.value != 0.0 ==> r == Ok(arg.value)
    ensures (arg.None? || arg.value == 0.0) ==> r == fallback
  {
    if arg.Some? && arg.value != 0.0 then Ok(arg.value) else fallback
  }

  /** What the engine's books hold between bars: the broker's cash, the positions as values and
      the order in which their symbols were opened. */
  datatype Account = Account(cash: real, holdings: map<string, Holding>, symbols: seq<string>)

  /** No symbol is listed twice. */
  ghost predicate Distinct(symbols: seq<string>)
  {
    forall i, j :: 0 <= i < j < |symbols| ==> symbols[i] != symbols[j]
  }

  /** Positions are listed once each, under their own symbol, and are never short. */
  ghost predicate AccountValid(a: Account)
  {
    && (forall s :: s in a.holdings <==> s in a.symbols)
    && Distinct(a.symbols)
    && (forall s :: s in a.holdings ==> a.holdings[s].quantity >= 0)
  }

  /** A holding after buying `q` more shares at `price`: the cost is re-averaged and the mark kept. */
  function Added(h: Holding, q: int, price: real): Holding
  {
    Holding(h.quantity + q, AvgCostAfterAdd(h.quantity, h.avgCost, q, price), h.currentPrice)
  }

  /** A holding after selling `q` of its shares: average cost and mark are kept. */
  function Removed(h: Holding, q: int): Holding
  {
    h.(quantity := h.quantity - q)
  }

  /** Shares a SELL signal actually sells: the signal's quantity, capped at what is held. */
  function SellQuantity(a: Account, signal: Signal): (q: int)
    ensures q <= signal.quantity
    ensures signal.symbol in a.holdings ==> q <= a.holdings[signal.symbol].quantity
    ensures q == signal.quantity || (signal.symbol in a.holdings && q == a.holdings[signal.symbol].quantity)
            || (signal.symbol !in a.holdings && q == 0)
  {
    var held := if signal.symbol in a.holdings then a.holdings[signal.symbol].quantity else 0;
    if signal.quantity < held then signal.quantity else held
  }

  /** Whether a signal becomes a filled order: a BUY passes the broker's checks (positive
      quantity and price, cost at the signal price within the cash); a SELL needs a non-empty
      position and a positive capped quantity and price. A HOLD never trades. */
  predicate Executes(a: Account, rate: real, minCommission: real, signal: Signal)
  {
    match signal.action
    case HoldSignal => false
    case BuySignal =>
      signal.quantity > 0 && signal.price > 0.0
      && BuyCost(rate, minCommission, signal.quantity, signal.price) <= a.cash
    case SellSignal =>
      signal.symbol in a.holdings && a.holdings[signal.symbol].quantity != 0
      && SellQuantity(a, signal) > 0 && signal.price > 0.0
  }

  /** `_process_signal` on values: an executed BUY fills at the close plus slippage, pays amount
      and commission, and folds the shares into the (possibly new) position; an executed SELL
      fills at the close less slippage, receives amount less commission and stamp tax, and
      takes the shares out of the position. Anything else leaves the books as they were. */
  function AfterSignal(a: Account, rate: real, minCommission: real, slippage: real, signal: Signal, close: real): Account
  {
    var sym := signal.symbol;
    if !Executes(a, rate, minCommission, signal) then a
    else if signal.action == BuySignal then
      var q := signal.quantity;
      var px := ExecutionPrice(Buy, close, slippage);
      var h0 := if sym in a.holdings then a.holdings[sym] else Holding(0, 0.0, close);
      Account(a.cash + CashChange(Buy, q, px, Commission(rate, minCommission, q, px), DefaultStampTax),
              a.holdings[sym := Added(h0, q, px)],
              if sym in a.holdings then a.symbols else a.symbols + [sym])
    else
      var q := SellQuantity(a, signal);
      var px := ExecutionPrice(Sell, close, slippage);
      var h0 := a.holdings[sym];
      Account(a.cash + CashChange(Sell, q, px, Commission(rate, minCommission, q, px), DefaultStampTax),
              a.holdings[sym := Removed(h0, q)],
              a.symbols)
  }

  /** A signal touches only its own symbol: a refused one changes nothing, and an executed one
      leaves every other position as it was and lists the symbol at the end only when a BUY
      opens it. */
  lemma AfterSignalTouchesOnlyItsSymbol(a: Account, rate: real, minCommission: real, slippage: real, signal: Signal, close: real)
    ensures var b := AfterSignal(a, rate, minCommission, slippage, signal, close);
            && (!Executes(a, rate, minCommission, signal) ==> b == a)
            && (forall s :: s in a.holdings && s != signal.symbol ==> s in b.holdings && b.holdings[s] == a.holdings[s])
            && (forall s :: s in b.holdings ==> s in a.holdings || s == signal.symbol)
            && (b.symbols == a.symbols
                || (signal.action == BuySignal && signal.symbol !in a.holdings && b.symbols == a.symbols + [signal.symbol]))
  {
  }

  /** The books after an executed BUY, spelled out. */
  lemma BuyStep(a: Account, rate: real, minCommission: real, slippage: real, signal: Signal, close: real)
    requires signal.action == BuySignal && Executes(a, rate, minCommission, signal)
    ensures var sym, q := signal.symbol, signal.quantity;
            var px := ExecutionPrice(Buy, close, slippage);
            var h0 := if sym in a.holdings then a.holdings[sym] else Holding(0, 0.0, close);
            AfterSignal(a, rate, minCommission, slippage, signal, close)
            == Account(a.cash + CashChange(Buy, q, px, Commission(rate, minCommission, q, px), DefaultStampTax),
                       a.holdings[sym := Added(h0, q, px)],
                       if sym in a.holdings then a.symbols else a.symbols + [sym])
  {
  }

  /** The books after an executed SELL, spelled out. */
  lemma SellStep(a: Account, rate: real, minCommission: real, slippage: real, signal: Signal, close: real)
    requires signal.action == SellSignal && Executes(a, rate, minCommission, signal)
    ensures var sym, q := signal.symbol, SellQuantity(a, signal);
            var px := ExecutionPrice(Sell, close, slippage);
            AfterSignal(a, rate, minCommission, slippage, signal, close)
            == Account(a.cash + CashChange(Sell, q, px, Commission(rate, minCommission, q, px), DefaultStampTax),
                       a.holdings[sym := Removed(a.holdings[sym], q)],
                       a.symbols)
  {
  }

  /** Processing a signal keeps the books valid: no position goes short, and a new symbol is
      listed exactly once. */
  lemma AfterSignalKeepsValid(a: Account, rate: real, minCommission: real, slippage: real, signal: Signal, close: real)
    requires AccountValid(a)
    ensures AccountValid(AfterSignal(a, rate, minCommission, slippage, signal, close))
  {
    var b := AfterSignal(a, rate, minCommission, slippage, signal, close);
    if Executes(a, rate, minCommission, signal) && signal.action == BuySignal && signal.symbol !in a.holdings {
      assert signal.symbol !in a.symbols;
      forall i, j | 0 <= i < j < |b.symbols|
        ensures b.symbols[i] != b.symbols[j]
      {
        if j == |a.symbols| {
          assert b.symbols[i] == a.symbols[i];
        }
      }
    }
  }

  /** A SELL never sells more than is held: the position ends at the held quantity less the
      requested one, or at zero when at least the whole position was asked for. */
  lemma SellIsCapped(a: Account, rate: real, minCommission: real, slippage: real, signal: Signal, close: real)
    requires AccountValid(a)
    requires signal.action == SellSignal && Executes(a, rate, minCommission, signal)
    ensures var held := a.holdings[signal.symbol].quantity;
            var after := AfterSignal(a, rate, minCommission, slippage, signal, close).holdings[signal.symbol].quantity;
            && 0 <= after < held
            && (signal.quantity >= held ==> after == 0)
            && (signal.quantity < held ==> after == held - signal.quantity)
  {
  }

  function MarketValueOf(h: Holding): real
  {
    h.quantity as real * h.currentPrice
  }

  /** Cash plus the market value of the listed holdings. */
  function AccountValue(a: Account): real
    requires forall s :: s in a.symbols ==> s in a.holdings
  {
    a.cash + HoldingsValue(a.symbols, a.holdings)
  }

  lemma {:induction false} HoldingsValueAppend(symbols: seq<string>, h: map<string, Holding>, s: string)
    requires forall t :: t in symbols ==> t in h
    requires s in h
    ensures HoldingsValue(symbols + [s], h) == HoldingsValue(symbols, h) + MarketValueOf(h[s])
  {
    assert (symbols + [s])[..|symbols|] == symbols;
  }

  /** Replacing (or opening) one position changes the account value by the change in that
      position's market value and in the cash. */
  lemma ValueAfterReplace(a: Account, sym: string, h1: Holding, cash1: real)
    requires AccountValid(a)
    ensures var b := Account(cash1, a.holdings[sym := h1], if sym in a.holdings then a.symbols else a.symbols + [sym]);
            AccountValue(b)
            == AccountValue(a) + (cash1 - a.cash) + MarketValueOf(h1)
               - (if sym in a.holdings then MarketValueOf(a.holdings[sym]) else 0.0)
  {
    if sym in a.holdings {
      HoldingsValueUpdate(a.symbols, a.holdings, sym, h1);
    } else {
      HoldingsValueUnlisted(a.symbols, a.holdings, sym, h1);
      HoldingsValueAppend(a.symbols, a.holdings[sym := h1], sym);
    }
  }

  /** With no slippage and the position marked at the close, a BUY moves value from cash into the
      position and the portfolio loses exactly the commission. */
  lemma BuyCostsOnlyCommission(a: Account, rate: real, minCommission: real, signal: Signal, close: real)
    requires AccountValid(a)
    requires signal.action == BuySignal && Executes(a, rate, minCommission, signal)
    requires signal.symbol in a.holdings ==> a.holdings[signal.symbol].currentPrice == close
    ensures AccountValue(AfterSignal(a, rate, minCommission, 0.0, signal, close))
            == AccountValue(a) - Commission(rate, minCommission, signal.quantity, close)
  {
    var sym, q := signal.symbol, signal.quantity;
    var px := ExecutionPrice(Buy, close, 0.0);
    assert px == close;
    var c := Commission(rate, minCommission, q, close);
    var h0 := if sym in a.holdings then a.holdings[sym] else Holding(0, 0.0, close);
    var h1 := Added(h0, q, px);
    var cash1 := a.cash + CashChange(Buy, q, px, c, DefaultStampTax);
    var notional := q as real * close;
    assert cash1 == a.cash - notional - c;
    BuyStep(a, rate, minCommission, 0.0, signal, close);
    var b := AfterSignal(a, rate, minCommission, 0.0, signal, close);
    assert b == Account(cash1, a.holdings[sym := h1], if sym in a.holdings then a.symbols else a.symbols + [sym]);
    ValueAfterReplace(a, sym, h1, cash1);
    AddedValue(h0, q, px);
    assert MarketValueOf(h1) == MarketValueOf(h0) + notional;
    assert MarketValueOf(h0) == (if sym in a.holdings then MarketValueOf(a.holdings[sym]) else 0.0);
  }

  /** Buying shares raises a holding's market value by their value at its mark. */
  lemma AddedValue(h: Holding, q: int, price: real)
    ensures MarketValueOf(Added(h, q, price)) == MarketValueOf(h) + q as real * h.currentPrice
  {
    assert (h.quantity + q) as real * h.currentPrice == h.quantity as real * h.currentPrice + q as real * h.currentPrice;
  }

  /** With no slippage and the position marked at the close, a SELL moves value from the
      position into cash and the portfolio loses exactly the commission and the stamp tax. */
  lemma SellCostsOnlyCharges(a: Account, rate: real, minCommission: real, signal: Signal, close: real)
    requires AccountValid(a)
    requires signal.action == SellSignal && Executes(a, rate, minCommission, signal)
    requires a.holdings[signal.symbol].currentPrice == close
    ensures var q := SellQuantity(a, signal);
            AccountValue(AfterSignal(a, rate, minCommission, 0.0, signal, close))
            == AccountValue(a) - Commission(rate, minCommission, q, close) - q as real * close * DefaultStampTax
  {
    var sym, q := signal.symbol, SellQuantity(a, signal);
    var px := ExecutionPrice(Sell, close, 0.0);
    assert px == close;
    var c := Commission(rate, minCommission, q, close);
    var h0 := a.holdings[sym];
    var h1 := h0.(quantity := h0.quantity - q);
    var cash1 := a.cash + CashChange(Sell, q, px, c, DefaultStampTax);
    assert AfterSignal(a, rate, minCommission, 0.0, signal, close) == Account(cash1, a.holdings[sym := h1], a.symbols);
    ValueAfterReplace(a, sym, h1, cash1);
    assert h0.quantity as real * close == (h0.quantity - q) as real * close + q as real * close;
  }

  /** The books with the position of `symbol`, if there is one, marked to `close`. */
  function Marked(a: Account, symbol: string, close: real): (b: Account)
    ensures b.cash == a.cash && b.symbols == a.symbols && b.holdings.Keys == a.holdings.Keys
    ensures forall s :: s in a.holdings && s != symbol ==> b.holdings[s] == a.holdings[s]
    ensures symbol in a.holdings ==> && b.holdings[symbol].currentPrice == close
                                     && b.holdings[symbol].quantity == a.holdings[symbol].quantity
                                     && b.holdings[symbol].avgCost == a.holdings[symbol].avgCost
  {
    if symbol in a.holdings then a.(holdings := a.holdings[symbol := a.holdings[symbol].(currentPrice := close)]) else a
  }

  /** One bar of `run` on the books: the run symbol's position marked to the close, then the
      signal `next` gave, if any, processed at that close. */
  function AfterBar(a: Account, rate: real, minCommission: real, slippage: real, symbol: string,
                    close: real, signal: Option<Signal>): (b: Account)
    ensures signal.None? ==> b == Marked(a, symbol, close)
    ensures signal.Some? ==> b == AfterSignal(Marked(a, symbol, close), rate, minCommission, slippage, signal.value, close)
  {
    var m := Marked(a, symbol, close);
    if signal.Some? then AfterSignal(m, rate, minCommission, slippage, signal.value, close) else m
  }

  /** A bar keeps the books valid. */
  lemma AfterBarKeepsValid(a: Account, rate: real, minCommission: real, slippage: real, symbol: string,
                           close: real, signal: Option<Signal>)
    requires AccountValid(a)
    ensures AccountValid(AfterBar(a, rate, minCommission, slippage, symbol, close, signal))
  {
    var m := Marked(a, symbol, close);
    assert AccountValid(m);
    if signal.Some? {
      AfterSignalKeepsValid(m, rate, minCommission, slippage, signal.value, close);
    }
  }

  /** What stays fixed during one `run`: the engine's settings, the run symbol, the strategy's
      `next` rule and the view it sees (whose index each bar overrides). */
  datatype Session = Session(rate: real, minCommission: real, slippage: real, symbol: string,
                             decide: (StrategyView, Bar) -> Result<Option<Signal>, Error>, view: StrategyView)

  /** The signal of bar `i`, or none when `next` fails there. */
  function SignalAt(s: Session, data: seq<Bar>, i: nat): Option<Signal>
    requires i < |data|
  {
    var r := s.decide(s.view.(currentIndex := i), data[i]);
    if r.Ok? then r.value else None
  }

  /** The books after the first `n` bars of a run that started from `a`. */
  ghost function StateAfter(s: Session, a: Account, data: seq<Bar>, n: nat): Account
    requires n <= |data|
  {
    if n == 0 then a
    else AfterBar(StateAfter(s, a, data, n - 1), s.rate, s.minCommission, s.slippage, s.symbol, data[n - 1].close, SignalAt(s, data, n - 1))
  }

  /** Every bar keeps the books valid, so a run from valid books stays valid throughout. */
  lemma {:induction false} StateAfterValid(s: Session, a: Account, data: seq<Bar>, n: nat)
    requires n <= |data| && AccountValid(a)
    ensures AccountValid(StateAfter(s, a, data, n))
  {
    if n > 0 {
      StateAfterValid(s, a, data, n - 1);
      AfterBarKeepsValid(StateAfter(s, a, data, n - 1), s.rate, s.minCommission, s.slippage, s.symbol, data[n - 1].close, SignalAt(s, data, n - 1));
    }
  }

  /** The portfolio value of the books after the first `n` bars of a run from `a`. */
  ghost function ValueAfter(s: Session, a: Account, data: seq<Bar>, n: nat): real
    requires n <= |data| && AccountValid(a)
  {
    StateAfterValid(s, a, data, n);
    AccountValue(StateAfter(s, a, data, n))
  }

  /** The portfolio values a run from `a` records over its first `n` bars: the value of the
      books after each bar. */
  ghost function ValuesAfter(s: Session, a: Account, data: seq<Bar>, n: nat): (v: seq<real>)
    requires n <= |data| && AccountValid(a)
    ensures |v| == n
  {
    if n == 0 then [] else ValuesAfter(s, a, data, n - 1) + [ValueAfter(s, a, data, n)]
  }

  /** One more bar extends the replay by that bar's move and its recorded value. */
  lemma ReplayOneMore(s: Session, a: Account, data: seq<Bar>, i: nat, b: Account)
    requires i < |data| && AccountValid(a)
    requires b == AfterBar(StateAfter(s, a, data, i), s.rate, s.minCommission, s.slippage, s.symbol, data[i].close, SignalAt(s, data, i))
    ensures StateAfter(s, a, data, i + 1) == b
    ensures ValuesAfter(s, a, data, i + 1) == ValuesAfter(s, a, data, i) + [ValueAfter(s, a, data, i + 1)]
  {
  }

  /** The k-th recorded value is the value of the books after bar k. */
  lemma {:induction false} ValuesAfterAt(s: Session, a: Account, data: seq<Bar>, n: nat, k: nat)
    requires n <= |data| && AccountValid(a) && k < n
    ensures ValuesAfter(s, a, data, n)[k] == ValueAfter(s, a, data, k + 1)
  {
    if k < n - 1 {
      ValuesAfterAt(s, a, data, n - 1, k);
    }
  }

  /** The last value recorded after `n > 0` bars is the value of the account after bar `n`. */
  lemma LastValueAfter(s: Session, a: Account, data: seq<Bar>, n: nat, earlier: seq<real>)
    requires 0 < n <= |data| && AccountValid(a)
    ensures Metrics.Last(earlier + ValuesAfter(s, a, data, n)) == ValueAfter(s, a, data, n)
  {
  }

  /** A run whose strategy never signals never trades: the cash stays where it was and no
      position is opened, so from books without positions every recorded value is the cash. */
  lemma {:induction false} NoSignalsNoTrades(s: Session, a: Account, data: seq<Bar>, n: nat)
    requires n <= |data| && AccountValid(a) && a.holdings == map[] && a.symbols == []
    requires forall i :: 0 <= i < n ==> SignalAt(s, data, i).None?
    ensures StateAfter(s, a, data, n) == a
    ensures ValuesAfter(s, a, data, n) == seq(n, i => a.cash)
  {
    if n > 0 {
      NoSignalsNoTrades(s, a, data, n - 1);
    }
  }

  /** Every bar's `next` call succeeds, the i-th seeing the view at index i. */
  predicate AllDecided(decide: (StrategyView, Bar) -> Result<Option<Signal>, Error>, view: StrategyView, data: seq<Bar>)
  {
    forall i :: 0 <= i < |data| ==> decide(view.(currentIndex := i), data[i]).Ok?
  }

  /** The bookkeeping of one bar of the event loop, on snapshots of the books and the recorded
      series: a successful bar extends the replay, the values, the dates and the decided
      prefix; a failing one shows that not every bar is decided. */
  lemma AdvanceSpec(run: Session, a: Account, data: seq<Bar>, i: nat, before: Account, after: Account,
                    signal: Result<Option<Signal>, Error>, values: seq<real>, values0: seq<real>, values1: seq<real>,
                    days: seq<Date>, dates0: seq<Date>, dates1: seq<Date>)
    requires i < |data| && AccountValid(a) && AccountValid(after)
    requires before == StateAfter(run, a, data, i) && values0 == values + ValuesAfter(run, a, data, i)
    requires dates0 == days + DatesOf(data[..i]) && AllDecided(run.decide, run.view, data[..i])
    requires signal == run.decide(run.view.(currentIndex := i), data[i])
    requires signal.Ok? ==> && after == AfterBar(before, run.rate, run.minCommission, run.slippage, run.symbol, data[i].close, signal.value)
                            && values1 == values0 + [AccountValue(after)] && dates1 == dates0 + [data[i].date]
    ensures signal.Err? ==> !AllDecided(run.decide, run.view, data)
    ensures signal.Ok? ==> && after == StateAfter(run, a, data, i + 1)
                           && values1 == values + ValuesAfter(run, a, data, i + 1)
                           && dates1 == days + DatesOf(data[..i + 1])
                           && AllDecided(run.decide, run.view, data[..i + 1])
  {
    if signal.Ok? {
      assert SignalAt(run, data, i) == signal.value;
      ReplayOneMore(run, a, data, i, after);
      assert DatesOf(data[..i + 1]) == DatesOf(data[..i]) + [data[i].date];
      DecidedOneMore(run.decide, run.view, data, i);
    }
  }

  /** The prefix of decided bars grows by a bar whose `next` call succeeds. */
  lemma DecidedOneMore(decide: (StrategyView, Bar) -> Result<Option<Signal>, Error>, view: StrategyView, data: seq<Bar>, i: nat)
    requires i < |data| && AllDecided(decide, view, data[..i])
    requires decide(view.(currentIndex := i), data[i]).Ok?
    ensures AllDecided(decide, view, data[..i + 1])
  {
    assert forall j :: 0 <= j < i ==> data[..i + 1][j] == data[..i][j];
  }

  class BacktestEngine {
    const initialCapital: real
    const commissionRate: real
    const minCommission: real
    const slippage: real
    var broker: Broker
    var positions: map<string, Position>
    /** The keys of `positions` in insertion order (the order Python's dict iterates in). */
    var symbols: seq<string>
    var portfolioValues: seq<real>
    var dates: seq<Date>

    /** The broker runs with the engine's settings and the default stamp tax; every position is
        filed under its own symbol and is never short; one date per recorded value. */
    ghost predicate Valid()
      reads this, broker, positions.Values
    {
      && broker.initialCapital == initialCapital
      && broker.commissionRate == commissionRate
      && broker.minCommission == minCommission
      && broker.slippage == slippage
      && broker.stampTax == DefaultStampTax
      && broker.Valid()
      && (forall s :: s in positions <==> s in symbols)
      && Distinct(symbols)
      && (forall s :: s in positions ==> positions[s].symbol == s && positions[s].quantity >= 0)
      && |portfolioValues| == |dates|
    }

    /** The positions as values. */
    function Holdings(): (h: map<string, Holding>)
      reads this`positions, positions.Values
      ensures h.Keys == positions.Keys
    {
      map s | s in positions :: Holding(positions[s].quantity, positions[s].avgCost, positions[s].currentPrice)
    }

    /** `_calculate_portfolio_value`: cash plus the market value of every position. */
    function PortfolioValue(): (v: real)
      reads this`broker, this`positions, this`symbols, broker, positions.Values
      requires forall s :: s in symbols ==> s in positions
      ensures v == AccountValue(State())
    {
      broker.cash + HoldingsValue(symbols, Holdings())
    }

    /** The books as values. */
    function State(): Account
      reads this`broker, this`positions, this`symbols, broker, positions.Values
    {
      Account(broker.cash, Holdings(), symbols)
    }

    /** An engine with resolved settings, a fresh broker holding the initial capital, no
        positions and no recorded values. */
    constructor (initialCapital: real, commissionRate: real, minCommission: real, slippage: real)
      ensures Valid() && fresh(broker)
      ensures this.initialCapital == initialCapital && this.commissionRate == commissionRate
      ensures this.minCommission == minCommission && this.slippage == slippage
      ensures broker.cash == initialCapital && broker.orders == [] && broker.trades == []
      ensures positions == map[] && symbols == [] && portfolioValues == [] && dates == []
    {
      this.initialCapital := initialCapital;
      this.commissionRate := commissionRate;
      this.minCommission := minCommission;
      this.slippage := slippage;
      broker := new Broker(initialCapital, commissionRate, minCommission, DefaultStampTax, slippage);
      positions := map[];
      symbols := [];
      portfolioValues := [];
      dates := [];
    }

    /** `_process_signal`: the books move as `AfterSignal` says, exactly one order and one trade
        are recorded when the signal executes and none otherwise, and the broker object, the
        recorded values and dates stay as they were. A BUY for a symbol with no position opens
        one marked at the close. */
    method ProcessSignal(signal: Signal, bar: Bar)
      requires Valid()
      modifies this, broker, positions.Values
      ensures Valid()
      ensures broker == old(broker) && portfolioValues == old(portfolioValues) && dates == old(dates)
      ensures forall p :: p in positions.Values ==> p in old(positions.Values) || fresh(p)
      ensures State() == AfterSignal(old(State()), commissionRate, minCommission, slippage, signal, bar.close)
      ensures Executes(old(State()), commissionRate, minCommission, signal) ==> Recorded(old(broker.orders), old(broker.trades))
      ensures !Executes(old(State()), commissionRate, minCommission, signal) ==> broker.orders == old(broker.orders) && broker.trades == old(broker.trades)
    {
      if signal.action == BuySignal {
        ExecuteBuy(signal, bar.close);
      } else if signal.action == SellSignal {
        ExecuteSell(signal, bar.close);
      }
    }

    /** One more order and one more trade than `orders` and `trades`, which they extend. */
    ghost predicate Recorded(orders: seq<Order>, trades: seq<Trade>)
      reads this, broker
    {
      |broker.orders| == |orders| + 1 && broker.orders[..|orders|] == orders
      && |broker.trades| == |trades| + 1 && broker.trades[..|trades|] == trades
    }

    /** Opens an empty position for `sym` marked at `close`. */
    method OpenPosition(sym: string, close: real)
      requires Valid() && sym !in positions
      modifies this
      ensures Valid()
      ensures broker == old(broker) && portfolioValues == old(portfolioValues) && dates == old(dates)
      ensures sym in positions && fresh(positions[sym])
      ensures forall p :: p in positions.Values ==> p in old(positions.Values) || fresh(p)
      ensures symbols == old(symbols) + [sym]
      ensures Holdings() == old(Holdings())[sym := Holding(0, 0.0, close)]
    {
      var p := new Position(sym, 0, 0.0, close);
      positions := positions[sym := p];
      symbols := symbols + [sym];
    }

    /** Folds `q` shares bought at `price` into the position of `sym`. */
    method AddShares(sym: string, q: int, price: real)
      requires Valid() && sym in positions && q > 0
      modifies positions[sym]
      ensures Valid()
      ensures Holdings() == old(Holdings())[sym := Added(old(Holdings())[sym], q, price)]
    {
      var pos := positions[sym];
      assert forall s :: s in positions && s != sym ==> positions[s] != pos;
      pos.Add(q, price);
    }

    /** Takes `q` shares, at most the held quantity, out of the position of `sym`. */
    method RemoveShares(sym: string, q: int)
      requires Valid() && sym in positions && 0 <= q <= positions[sym].quantity
      modifies positions[sym]
      ensures Valid()
      ensures Holdings() == old(Holdings())[sym := Removed(old(Holdings())[sym], q)]
    {
      var pos := positions[sym];
      assert forall s :: s in positions && s != sym ==> positions[s] != pos;
      var realized := pos.Reduce(q);
    }

    /** `submit_order` followed by `fill_order` at the close: on the broker alone. */
    method PlaceOrder(sym: string, side: OrderSide, quantity: int, price: real, close: real) returns (t: Option<Trade>)
      requires Valid()
      modifies broker
      ensures Valid() && Holdings() == old(Holdings())
      ensures t.Some? <==> quantity > 0 && price > 0.0
                           && (side == Sell || BuyCost(commissionRate, minCommission, quantity, price) <= old(broker.cash))
      ensures t.None? ==> broker.cash == old(broker.cash) && broker.orders == old(broker.orders) && broker.trades == old(broker.trades)
      ensures t.Some? ==> var px := ExecutionPrice(side, close, slippage);
                          && t.value.quantity == quantity && t.value.price == px
                          && broker.cash == old(broker.cash) + CashChange(side, quantity, px, Commission(commissionRate, minCommission, quantity, px), DefaultStampTax)
                          && Recorded(old(broker.orders), old(broker.trades))
    {
      var sub := broker.SubmitOrder(sym, side, quantity, price);
      if sub.Err? {
        return None;
      }
      var fill := broker.FillOrder(sub.value, Some(close));
      return Some(fill.value);
    }

    /** Folds `q` bought shares into the position of `sym`, first opening one marked at `close`
        when there is none. */
    method BuyShares(sym: string, q: int, price: real, close: real)
      requires Valid() && q > 0
      modifies this, positions.Values
      ensures Valid()
      ensures broker == old(broker) && portfolioValues == old(portfolioValues) && dates == old(dates)
      ensures forall p :: p in positions.Values ==> p in old(positions.Values) || fresh(p)
      ensures var h0 := if sym in old(Holdings()) then old(Holdings())[sym] else Holding(0, 0.0, close);
              Holdings() == old(Holdings())[sym := Added(h0, q, price)]
      ensures symbols == if sym in old(positions) then old(symbols) else old(symbols) + [sym]
    {
      ghost var before := Holdings();
      ghost var h0 := if sym in before then before[sym] else Holding(0, 0.0, close);
      if sym !in positions {
        OpenPosition(sym, close);
      } else {
        assert before[sym := h0] == before;
      }
      assert Holdings() == before[sym := h0];
      AddShares(sym, q, price);
      assert before[sym := h0][sym := Added(h0, q, price)] == before[sym := Added(h0, q, price)];
    }

    /** The BUY branch of `_process_signal`. */
    method ExecuteBuy(signal: Signal, close: real)
      requires Valid() && signal.action == BuySignal
      modifies this, broker, positions.Values
      ensures Valid()
      ensures broker == old(broker) && portfolioValues == old(portfolioValues) && dates == old(dates)
      ensures forall p :: p in positions.Values ==> p in old(positions.Values) || fresh(p)
      ensures State() == AfterSignal(old(State()), commissionRate, minCommission, slippage, signal, close)
      ensures Executes(old(State()), commissionRate, minCommission, signal) ==> Recorded(old(broker.orders), old(broker.trades))
      ensures !Executes(old(State()), commissionRate, minCommission, signal) ==> broker.orders == old(broker.orders) && broker.trades == old(broker.trades)
    {
      ghost var a := State();
      var sym := signal.symbol;
      var t := PlaceOrder(sym, Buy, signal.quantity, signal.price, close);
      if t.None? {
        return;
      }
      ghost var cash1 := broker.cash;
      BuyShares(sym, t.value.quantity, t.value.price, close);
      assert broker.cash == cash1;
      BuyStep(a, commissionRate, minCommission, slippage, signal, close);
    }

    /** The SELL branch of `_process_signal`. */
    method ExecuteSell(signal: Signal, close: real)
      requires Valid() && signal.action == SellSignal
      modifies this, broker, positions.Values
      ensures Valid()
      ensures broker == old(broker) && portfolioValues == old(portfolioValues) && dates == old(dates)
      ensures forall p :: p in positions.Values ==> p in old(positions.Values) || fresh(p)
      ensures State() == AfterSignal(old(State()), commissionRate, minCommission, slippage, signal, close)
      ensures Executes(old(State()), commissionRate, minCommission, signal) ==> Recorded(old(broker.orders), old(broker.trades))
      ensures !Executes(old(State()), commissionRate, minCommission, signal) ==> broker.orders == old(broker.orders) && broker.trades == old(broker.trades)
    {
      ghost var a := State();
      var sym := signal.symbol;
      if sym !in positions || positions[sym].quantity == 0 {
        assert !Executes(a, commissionRate, minCommission, signal);
        assert State() == a;
        return;
      }
      var held := positions[sym].quantity;
      var q := if signal.quantity < held then signal.quantity else held;
      assert q == SellQuantity(a, signal);
      var t := PlaceOrder(sym, Sell, q, signal.price, close);
      if t.None? {
        return;
      }
      ghost var cash1 := broker.cash;
      RemoveShares(sym, t.value.quantity);
      assert Holdings() == a.holdings[sym := Removed(a.holdings[sym], q)];
      assert State() == Account(cash1, a.holdings[sym := Removed(a.holdings[sym], q)], a.symbols);
      SellStep(a, commissionRate, minCommission, slippage, signal, close);
    }

    /** `__init__`: each setting is the argument when one is given and non-zero, else the
        configured value; the first setting whose configured value cannot be read as a number
        is the error. */
    static method Create(capital: Option<real>, rate: Option<real>, minimum: Option<real>, slip: Option<real>,
                         config: Configuration.Config, env: map<string, string>) returns (r: Result<BacktestEngine, Error>)
      ensures var c, cr, mc, sl := OrElse(capital, config.InitialCapital(env)), OrElse(rate, config.CommissionRate(env)),
                                   OrElse(minimum, config.MinCommission(env)), OrElse(slip, config.Slippage(env));
              && (r.Ok? <==> c.Ok? && cr.Ok? && mc.Ok? && sl.Ok?)
              && (c.Err? ==> r == Err(c.error))
              && (c.Ok? && cr.Err? ==> r == Err(cr.error))
              && (c.Ok? && cr.Ok? && mc.Err? ==> r == Err(mc.error))
              && (c.Ok? && cr.Ok? && mc.Ok? && sl.Err? ==> r == Err(sl.error))
              && (r.Ok? ==> && fresh(r.value) && fresh(r.value.broker) && r.value.Valid()
                            && r.value.initialCapital == c.value && r.value.commissionRate == cr.value
                            && r.value.minCommission == mc.value && r.value.slippage == sl.value
                            && r.value.broker.cash == c.value && r.value.broker.orders == [] && r.value.broker.trades == []
                            && r.value.positions == map[] && r.value.portfolioValues == [] && r.value.dates == [])
    {
      var c := OrElse(capital, config.InitialCapital(env));
      if c.Err? {
        return Err(c.error);
      }
      var cr := OrElse(rate, config.CommissionRate(env));
      if cr.Err? {
        return Err(cr.error);
      }
      var mc := OrElse(minimum, config.MinCommission(env));
      if mc.Err? {
        return Err(mc.error);
      }
      var sl := OrElse(slip, config.Slippage(env));
      if sl.Err? {
        return Err(sl.error);
      }
      var engine := new BacktestEngine(c.value, cr.value, mc.value, sl.value);
      return Ok(engine);
    }

    /** Marks the position of `symbol`, if there is one, to `close`. */
    method Mark(symbol: string, close: real)
      requires Valid()
      modifies positions.Values
      ensures Valid()
      ensures State() == Marked(old(State()), symbol, close)
    {
      if symbol in positions {
        var pos := positions[symbol];
        assert forall s :: s in positions && s != symbol ==> positions[s] != pos;
        pos.UpdatePrice(close);
      }
    }

    /** One turn of the event loop: marks the run symbol's position to the close, asks the
        strategy for a signal, processes it, and records the portfolio value and the date. A
        failing `next` stops the turn after the mark and before anything is recorded. */
    method Step(strategy: Strategy, bar: Bar, symbol: string) returns (signal: Result<Option<Signal>, Error>)
      requires Valid()
      modifies this, broker, positions.Values
      ensures Valid() && broker == old(broker)
      ensures forall p :: p in positions.Values ==> p in old(positions.Values) || fresh(p)
      ensures signal == strategy.decide(strategy.View(), bar)
      ensures signal.Err? ==> && State() == Marked(old(State()), symbol, bar.close)
                              && portfolioValues == old(portfolioValues) && dates == old(dates)
      ensures signal.Ok? ==> && State() == AfterBar(old(State()), commissionRate, minCommission, slippage, symbol, bar.close, signal.value)
                             && portfolioValues == old(portfolioValues) + [AccountValue(State())]
                             && dates == old(dates) + [bar.date]
    {
      Mark(symbol, bar.close);
      signal := Respond(strategy, bar);
    }

    /** The part of a turn after the mark: `next`, the signal processed if there is one, and
        the value and date recorded unless `next` failed. */
    method Respond(strategy: Strategy, bar: Bar) returns (signal: Result<Option<Signal>, Error>)
      requires Valid()
      modifies this, broker, positions.Values
      ensures Valid() && broker == old(broker)
      ensures forall p :: p in positions.Values ==> p in old(positions.Values) || fresh(p)
      ensures signal == strategy.decide(strategy.View(), bar)
      ensures signal.Err? ==> State() == old(State()) && portfolioValues == old(portfolioValues) && dates == old(dates)
      ensures signal.Ok? && signal.value.None? ==> State() == old(State())
      ensures signal.Ok? && signal.value.Some? ==>
                State() == AfterSignal(old(State()), commissionRate, minCommission, slippage, signal.value.value, bar.close)
      ensures signal.Ok? ==> portfolioValues == old(portfolioValues) + [AccountValue(State())] && dates == old(dates) + [bar.date]
    {
      signal := strategy.Next(bar);
      if signal.Err? {
        return;
      }
      if signal.value.Some? {
        Act(signal.value.value, bar);
      }
      Record(bar.date);
    }

    /** `_process_signal` as the event loop sees it: the books move as `AfterSignal` says and
        the recorded series stay untouched. */
    method Act(signal: Signal, bar: Bar)
      requires Valid()
      modifies this, broker, positions.Values
      ensures Valid() && broker == old(broker)
      ensures portfolioValues == old(portfolioValues) && dates == old(dates)
      ensures forall p :: p in positions.Values ==> p in old(positions.Values) || fresh(p)
      ensures State() == AfterSignal(old(State()), commissionRate, minCommission, slippage, signal, bar.close)
    {
      ProcessSignal(signal, bar);
    }

    /** Appends the current portfolio value and `date` to the recorded series. */
    method Record(date: Date)
      requires forall s :: s in symbols ==> s in positions
      modifies this`portfolioValues, this`dates
      ensures portfolioValues == old(portfolioValues) + [PortfolioValue()] && dates == old(dates) + [date]
      ensures State() == old(State())
    {
      var value := PortfolioValue();
      portfolioValues := portfolioValues + [value];
      dates := dates + [date];
    }

    /** One iteration of the event loop: the strategy's index set to `i`, then `Step`. */
    method Turn(strategy: Strategy, bar: Bar, i: nat, symbol: string) returns (signal: Result<Option<Signal>, Error>)
      requires Valid()
      modifies this, broker, positions.Values, strategy`currentIndex
      ensures Valid() && broker == old(broker)
      ensures forall p :: p in positions.Values ==> p in old(positions.Values) || fresh(p)
      ensures strategy.View() == old(strategy.View()).(currentIndex := i)
      ensures signal == strategy.decide(old(strategy.View()).(currentIndex := i), bar)
      ensures signal.Err? ==> portfolioValues == old(portfolioValues) && dates == old(dates)
      ensures signal.Ok? ==> && State() == AfterBar(old(State()), commissionRate, minCommission, slippage, symbol, bar.close, signal.value)
                             && portfolioValues == old(portfolioValues) + [AccountValue(State())]
                             && dates == old(dates) + [bar.date]
    {
      strategy.currentIndex := i;
      signal := Step(strategy, bar, symbol);
    }

    /** Bar `i` of a run from `a`: one `Turn`, which extends the replay, the recorded dates and
        the decided prefix by one bar, or stops the run when `next` fails. */
    method Advance(strategy: Strategy, data: seq<Bar>, i: nat, symbol: string, ghost run: Session, ghost a: Account,
                   ghost values: seq<real>, ghost days: seq<Date>) returns (signal: Result<Option<Signal>, Error>)
      requires Valid() && i < |data| && AccountValid(a)
      requires run == Session(commissionRate, minCommission, slippage, symbol, strategy.decide, strategy.View().(currentIndex := 0))
      requires State() == StateAfter(run, a, data, i) && portfolioValues == values + ValuesAfter(run, a, data, i)
      requires dates == days + DatesOf(data[..i]) && AllDecided(run.decide, run.view, data[..i])
      modifies this, broker, positions.Values, strategy`currentIndex
      ensures Valid() && broker == old(broker)
      ensures forall p :: p in positions.Values ==> p in old(positions.Values) || fresh(p)
      ensures strategy.View().(currentIndex := 0) == run.view
      ensures signal.Err? ==> !AllDecided(run.decide, run.view, data)
      ensures signal.Ok? ==> && State() == StateAfter(run, a, data, i + 1)
                             && portfolioValues == values + ValuesAfter(run, a, data, i + 1)
                             && dates == days + DatesOf(data[..i + 1])
                             && AllDecided(run.decide, run.view, data[..i + 1])
    {
      ghost var before, values0, dates0 := State(), portfolioValues, dates;
      signal := Turn(strategy, data[i], i, symbol);
      AdvanceSpec(run, a, data, i, before, State(), signal, values, values0, portfolioValues, days, dates0, dates);
    }

    /** The event loop of `run` over every bar, stopping at the first failing `next`. */
    method RunBars(strategy: Strategy, data: seq<Bar>, symbol: string) returns (e: Option<Error>)
      requires Valid()
      modifies this, broker, positions.Values, strategy`currentIndex
      ensures Valid() && broker == old(broker)
      ensures forall p :: p in positions.Values ==> p in old(positions.Values) || fresh(p)
      ensures e.None? <==> AllDecided(strategy.decide, strategy.View().(currentIndex := 0), data)
      ensures e.None? ==>
                var run := Session(commissionRate, minCommission, slippage, symbol, strategy.decide, strategy.View().(currentIndex := 0));
                && State() == StateAfter(run, old(State()), data, |data|)
                && portfolioValues == old(portfolioValues) + ValuesAfter(run, old(State()), data, |data|)
                && dates == old(dates) + DatesOf(data)
    {
      ghost var run := Session(commissionRate, minCommission, slippage, symbol, strategy.decide, strategy.View().(currentIndex := 0));
      ghost var a := State();
      var i := 0;
      assert data[..0] == [];
      while i < |data|
        invariant 0 <= i <= |data|
        invariant Valid() && broker == old(broker)
        invariant forall p :: p in positions.Values ==> p in old(positions.Values) || fresh(p)
        invariant run == Session(commissionRate, minCommission, slippage, symbol, strategy.decide, strategy.View().(currentIndex := 0))
        invariant State() == StateAfter(run, a, data, i) && portfolioValues == old(portfolioValues) + ValuesAfter(run, a, data, i)
        invariant dates == old(dates) + DatesOf(data[..i]) && AllDecided(run.decide, run.view, data[..i])
      {
        var signal := Advance(strategy, data, i, symbol, run, a, old(portfolioValues), old(dates));
        if signal.Err? {
          return Some(signal.error);
        }
        i := i + 1;
      }
      assert data[..i] == data;
      return None;
    }

    /** `run`: refuses empty data; runs the strategy's `init` (its error propagates); then for
        each bar marks the run symbol's position to the close, asks the strategy for a signal
        on the raw bar with the bar's index set, processes the signal, and records one
        portfolio value and the bar's date. The run succeeds exactly when every `next` call
        does; the result carries the values recorded so far (earlier runs included), their
        daily returns, the broker's ledgers and the metrics. The strategy's position counter
        is never touched, since no fill is reported back to it. */
    method Run(strategy: Strategy, data: seq<Bar>, symbol: string, num: Metrics.Numerics) returns (r: Result<BacktestResult, Error>)
      requires Valid()
      modifies this, broker, positions.Values, strategy
      ensures Valid() && broker == old(broker)
      ensures strategy.params == old(strategy.params) && strategy.currentPosition == old(strategy.currentPosition)
      ensures |data| == 0 ==> && r == Err(BacktestFailure) && State() == old(State())
                              && portfolioValues == old(portfolioValues) && dates == old(dates)
      ensures |data| > 0 && strategy.prepare(old(strategy.params), data).Err? ==>
                && r == Err(strategy.prepare(old(strategy.params), data).error) && State() == old(State())
                && portfolioValues == old(portfolioValues) && dates == old(dates)
      ensures |data| > 0 && strategy.prepare(old(strategy.params), data).Ok? ==>
                var rows := strategy.prepare(old(strategy.params), data).value;
                var run := Session(commissionRate, minCommission, slippage, symbol, strategy.decide,
                                   StrategyView(old(strategy.params), Some(rows), old(strategy.currentPosition), 0));
                && strategy.data == Some(rows)
                && (r.Ok? <==> AllDecided(run.decide, run.view, data))
                && (r.Ok? ==> && State() == StateAfter(run, old(State()), data, |data|)
                              && portfolioValues == old(portfolioValues) + ValuesAfter(run, old(State()), data, |data|)
                              && r.value.finalCapital == ValueAfter(run, old(State()), data, |data|))
      ensures r.Ok? ==>
                && |data| > 0
                && dates == old(dates) + DatesOf(data)
                && r.value == BacktestResult(strategy.name, symbol, FirstDate(data), LastDate(data), initialCapital,
                                             Metrics.Last(portfolioValues), portfolioValues, dates,
                                             Metrics.PctChange(portfolioValues), broker.orders, broker.trades,
                                             Metrics.CalculateAll(portfolioValues, Metrics.PctChange(portfolioValues), RiskFreeRate, num))
    {
      if |data| == 0 {
        return Err(BacktestFailure);
      }
      var init := strategy.Init(data);
      if init.Err? {
        return Err(init.error);
      }
      ghost var rows := strategy.prepare(old(strategy.params), data).value;
      ghost var run := Session(commissionRate, minCommission, slippage, symbol, strategy.decide,
                               StrategyView(old(strategy.params), Some(rows), old(strategy.currentPosition), 0));
      ghost var a := State();
      assert a == old(State());
      var e := RunBars(strategy, data, symbol);
      assert strategy.View().(currentIndex := 0) == run.view;
      if e.Some? {
        return Err(e.value);
      }
      assert State() == StateAfter(run, a, data, |data|);
      LastValueAfter(run, a, data, |data|, old(portfolioValues));
      var daily := Metrics.PctChange(portfolioValues);
      r := Ok(BacktestResult(strategy.name, symbol, FirstDate(data), LastDate(data), initialCapital,
                             Metrics.Last(portfolioValues), portfolioValues, dates, daily, broker.orders, broker.trades,
                             Metrics.CalculateAll(portfolioValues, daily, RiskFreeRate, num)));
    }

    /** `reset`: a fresh broker with the same settings; positions, values and dates emptied. */
    method Reset()
      modifies this
      ensures Valid() && fresh(broker)
      ensures broker.cash == initialCapital && broker.orders == [] && broker.trades == []
      ensures positions == map[] && symbols == [] && portfolioValues == [] && dates == []
    {
      broker := new Broker(initialCapital, commissionRate, minCommission, DefaultStampTax, slippage);
      positions := map[];
      symbols := [];
      portfolioValues := [];
      dates := [];
    }
  }
}
