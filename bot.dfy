/** The trading bot of app/bot/index.js: one futures symbol, one mutable state
    record, entries on alerts, a protective limit order after each entry and
    two self-rescheduling exit listeners that watch the stop-loss and the
    take-profit order.

    The exchange is abstract. Every request the bot sends is appended to the
    ghost `trace`; every reply it reads is a parameter of the method that
    reads it. */
module TradingBot {
  import opened Options
  import opened Constants

  /** An exchange order id. */
  type OrderId = nat

  /** `this.config`: the symbol, the margin (leverage) and the four
      percentages. Only the long take-profit is ever compared with `null`. */
  datatype Config = Config(
    symbol: string,
    margin: real,
    shortStoplossPercentage: real,
    shortTakeprofitPercentage: real,
    longStoplossPercentage: real,
    longTakeprofitPercentage: Option<real>)

  /** A request to the exchange, for the configured symbol. */
  datatype Command =
    | MiniTickerStream                        // futuresMiniTickerStream(symbol, tick)
    | Account                                 // futuresAccount()
    | Leverage(leverage: real)                // futuresLeverage(symbol, margin)
    | MarketBuy(quantity: real)               // futuresMarketBuy(symbol, quantity)
    | MarketSell(quantity: real)              // futuresMarketSell(symbol, quantity)
    | LimitBuy(quantity: real, price: real)   // futuresBuy(symbol, quantity, price)
    | Cancel(orderId: Option<OrderId>)        // futuresCancel(symbol, {orderId})
    | OrderStatus(orderId: Option<OrderId>)   // futuresOrderStatus(symbol, {orderId})
    | ListenForAlerts                         // startListening(onAlert)

  /** The reply to a market order placed with `newOrderRespType: "RESULT"`. */
  datatype MarketOrder = MarketOrder(orderId: OrderId, avgPrice: real, origQty: real, executedQty: real)

  /** The reply to a limit order. */
  datatype LimitOrder = LimitOrder(orderId: OrderId)

  /** What an exit listener does after one run: call itself again after a
      second, or end. */
  datatype Next = Reschedule | Stop

  // ---------------------------------------------------------------------
  // Sizing
  // ---------------------------------------------------------------------

  /** `x` is a whole number of thousandths (the lot size of the symbol). */
  ghost predicate IsThousandths(x: real) {
    (x * 1000.0).Floor as real == x * 1000.0
  }

  /** `Math.floor(x * 1000) / 1000`: the largest multiple of 1/1000 that is
      not above `x`. */
  function RoundDown3(x: real): (r: real)
    ensures IsThousandths(r)
    ensures r <= x < r + 0.001
  {
    (x * 1000.0).Floor as real / 1000.0
  }

  /** The largest quantity the balance buys at `price` with the margin. */
  function MaxTradeAmount(balance: real, margin: real, price: real): (m: real)
    requires price != 0.0
    ensures IsThousandths(m)
    ensures m <= balance * margin / price < m + 0.001
  {
    RoundDown3(balance * margin / price)
  }

  /** `getMaxTradeAmount`: the largest quantity less a 5% safety margin,
      rounded down to thousandths again. */
  function TradeAmount(balance: real, margin: real, price: real): (r: real)
    requires price != 0.0
    ensures IsThousandths(r)
    ensures r <= 0.95 * MaxTradeAmount(balance, margin, price) < r + 0.001
  {
    var m := MaxTradeAmount(balance, margin, price);
    RoundDown3(m - m * 0.05)
  }

  /** The order size neither exceeds the rounded maximum nor what the balance
      buys, is a whole number of lots, and is non-negative for a
      non-negative balance. */
  lemma SizingBound(balance: real, margin: real, price: real)
    requires balance >= 0.0 && margin >= 0.0 && price > 0.0
    ensures var m := MaxTradeAmount(balance, margin, price);
            var r := TradeAmount(balance, margin, price);
            && 0.0 <= r <= m <= balance * margin / price
            && IsThousandths(r) && IsThousandths(m)
  {
    var m := MaxTradeAmount(balance, margin, price);
    assert 0.0 <= balance * margin / price;
    assert (0.0 * 1000.0).Floor == 0;
    assert 0.0 <= m by {
      assert 0.0 <= balance * margin / price * 1000.0;
    }
    var d := m - m * 0.05;
    assert 0.0 <= d <= m;
    assert 0.0 <= d * 1000.0;
  }

  /** A balance of 1000 at leverage 4 and price 100 buys 40 units, 38 after
      the safety margin. */
  lemma SizingExample()
    ensures MaxTradeAmount(1000.0, 4.0, 100.0) == 40.0
    ensures TradeAmount(1000.0, 4.0, 100.0) == 38.0
  {
  }

  // ---------------------------------------------------------------------
  // Stop-loss and take-profit levels
  // ---------------------------------------------------------------------

  /** `avg - avg / 100 * pct`: `pct` percent below `avg`. The long stop-loss
      and the short take-profit. */
  function Below(avg: real, pct: real): (r: real)
    ensures r == avg * (1.0 - pct / 100.0)
    ensures avg > 0.0 && pct > 0.0 ==> r < avg
    ensures avg > 0.0 && pct < 100.0 ==> r > 0.0
  {
    avg - avg / 100.0 * pct
  }

  /** `avg + avg / 100 * pct`: `pct` percent above `avg`. The short stop-loss
      and the long take-profit. */
  function Above(avg: real, pct: real): (r: real)
    ensures r == avg * (1.0 + pct / 100.0)
    ensures avg > 0.0 && pct > 0.0 ==> r > avg
  {
    avg + avg / 100.0 * pct
  }

  /** With positive percentages each stop-loss lies on the adverse side of
      the entry and each take-profit on the favourable side: a long loses
      below its entry, a short above it. */
  lemma LevelsStraddleEntry(avg: real, cfg: Config)
    requires avg > 0.0
    requires cfg.longStoplossPercentage > 0.0 && cfg.shortStoplossPercentage > 0.0
    requires cfg.shortTakeprofitPercentage > 0.0
    ensures Below(avg, cfg.longStoplossPercentage) < avg < Above(avg, cfg.shortStoplossPercentage)
    ensures Below(avg, cfg.shortTakeprofitPercentage) < avg
    ensures cfg.longTakeprofitPercentage.Some? && cfg.longTakeprofitPercentage.value > 0.0 ==>
              Above(avg, cfg.longTakeprofitPercentage.value) > avg
  {
  }

  /** An entry at 100 with a 5% stop-loss stops out at 95: a price of 94.99
      triggers the long stop-loss check, 95.01 does not. */
  lemma StopLossExample()
    ensures Below(100.0, 5.0) == 95.0
    ensures 94.99 <= Below(100.0, 5.0) && !(95.01 <= Below(100.0, 5.0))
  {
  }

  // ---------------------------------------------------------------------
  // The requests of the entries and the flips
  // ---------------------------------------------------------------------

  /** `long()`: the balance query and the market buy of `placeMarketOrderBuy`,
      then, when a long take-profit is configured, the limit order at the
      take-profit level for the quantity the entry executed. */
  function LongEntryCommands(cfg: Config, price: real, balance: real, order: MarketOrder): (cs: seq<Command>)
    requires price != 0.0
    ensures |cs| == if cfg.longTakeprofitPercentage.Some? then 3 else 2
    ensures cs[1] == MarketBuy(TradeAmount(balance, cfg.margin, price))
  {
    [Account, MarketBuy(TradeAmount(balance, cfg.margin, price))]
      + match cfg.longTakeprofitPercentage
        case Some(pct) => [LimitBuy(order.executedQty, Above(order.avgPrice, pct))]
        case None => []
  }

  /** `short()`: the balance query, the market sell, then the limit buy at the
      short take-profit level for the quantity the entry executed. */
  function ShortEntryCommands(cfg: Config, price: real, balance: real, order: MarketOrder): (cs: seq<Command>)
    requires price != 0.0
    ensures |cs| == 3
    ensures cs[1] == MarketSell(TradeAmount(balance, cfg.margin, price))
  {
    [ Account,
      MarketSell(TradeAmount(balance, cfg.margin, price)),
      LimitBuy(order.executedQty, Below(order.avgPrice, cfg.shortTakeprofitPercentage)) ]
  }

  /** The exit that precedes a flip: cancel the take-profit order, then a
      market order in the exit direction sized by a fresh balance query (not
      by the recorded quantity). */
  function FlipExitCommands(cfg: Config, price: real, exitBalance: real, takeProfitOrderId: Option<OrderId>, exit: Side): (cs: seq<Command>)
    requires price != 0.0
    ensures |cs| == 3 && cs[0] == Cancel(takeProfitOrderId)
  {
    var size := TradeAmount(exitBalance, cfg.margin, price);
    [Cancel(takeProfitOrderId), Account, if exit == Long then MarketSell(size) else MarketBuy(size)]
  }

  /** The exchange requests that move a position, as opposed to queries and
      cancels. */
  predicate IsOrder(c: Command) {
    c.MarketBuy? || c.MarketSell? || c.LimitBuy?
  }

  /** The orders among `cs`. */
  function Orders(cs: seq<Command>): (os: seq<Command>)
    ensures |os| <= |cs|
    ensures forall c :: c in os <==> c in cs && IsOrder(c)
  {
    if cs == [] then []
    else (if IsOrder(cs[0]) then [cs[0]] else []) + Orders(cs[1..])
  }

  lemma {:induction false} OrdersAppend(a: seq<Command>, b: seq<Command>)
    ensures Orders(a + b) == Orders(a) + Orders(b)
  {
    if a != [] {
      assert (a + b)[0] == a[0];
      assert (a + b)[1..] == a[1..] + b;
      OrdersAppend(a[1..], b);
    } else {
      assert a + b == b;
    }
  }

  /** The only order of a flip's exit is the market order in the exit
      direction. */
  lemma FlipExitOrders(cfg: Config, price: real, exitBalance: real, id: Option<OrderId>, exit: Side)
    requires price != 0.0
    ensures var cs := FlipExitCommands(cfg, price, exitBalance, id, exit);
            Orders(cs) == [cs[2]]
  {
    var cs := FlipExitCommands(cfg, price, exitBalance, id, exit);
    assert cs[1..][1..][1..] == [];
    assert Orders(cs[1..][1..]) == [cs[2]];
    assert Orders(cs[1..]) == [cs[2]];
  }

  /** The orders of a long entry: the market buy, then the take-profit order
      when one is configured. */
  lemma LongEntryOrders(cfg: Config, price: real, balance: real, order: MarketOrder)
    requires price != 0.0
    ensures var cs := LongEntryCommands(cfg, price, balance, order);
            Orders(cs) == cs[1..]
  {
    var cs := LongEntryCommands(cfg, price, balance, order);
    if cfg.longTakeprofitPercentage.Some? {
      assert cs[1..][1..][1..] == [];
      assert Orders(cs[1..][1..]) == [cs[2]];
      assert cs[1..] == [cs[1], cs[2]];
    } else {
      assert cs[1..][1..] == [];
      assert Orders(cs[1..]) == [cs[1]];
      assert cs[1..] == [cs[1]];
    }
  }

  /** The orders of a short entry: the market sell and the take-profit order. */
  lemma ShortEntryOrders(cfg: Config, price: real, balance: real, order: MarketOrder)
    requires price != 0.0
    ensures var cs := ShortEntryCommands(cfg, price, balance, order);
            Orders(cs) == cs[1..]
  {
    var cs := ShortEntryCommands(cfg, price, balance, order);
    assert cs[1..][1..][1..] == [];
    assert Orders(cs[1..][1..]) == [cs[2]];
    assert cs[1..] == [cs[1], cs[2]];
  }

  /** A flip from short to long sends exactly one market buy, sized by the
      fresh balance, to close the short, then the orders of the long entry. */
  lemma FlipToLongOrders(cfg: Config, price: real, exitBalance: real, id: Option<OrderId>, balance: real, order: MarketOrder)
    requires price != 0.0
    ensures Orders(FlipExitCommands(cfg, price, exitBalance, id, Short) + LongEntryCommands(cfg, price, balance, order))
         == [MarketBuy(TradeAmount(exitBalance, cfg.margin, price)), MarketBuy(TradeAmount(balance, cfg.margin, price))]
            + match cfg.longTakeprofitPercentage
              case Some(pct) => [LimitBuy(order.executedQty, Above(order.avgPrice, pct))]
              case None => []
  {
    OrdersAppend(FlipExitCommands(cfg, price, exitBalance, id, Short), LongEntryCommands(cfg, price, balance, order));
    FlipExitOrders(cfg, price, exitBalance, id, Short);
    LongEntryOrders(cfg, price, balance, order);
  }

  /** A flip from long to short sends exactly one market sell, sized by the
      fresh balance, to close the long, then the orders of the short entry. */
  lemma FlipToShortOrders(cfg: Config, price: real, exitBalance: real, id: Option<OrderId>, balance: real, order: MarketOrder)
    requires price != 0.0
    ensures Orders(FlipExitCommands(cfg, price, exitBalance, id, Long) + ShortEntryCommands(cfg, price, balance, order))
         == [ MarketSell(TradeAmount(exitBalance, cfg.margin, price)),
              MarketSell(TradeAmount(balance, cfg.margin, price)),
              LimitBuy(order.executedQty, Below(order.avgPrice, cfg.shortTakeprofitPercentage)) ]
  {
    OrdersAppend(FlipExitCommands(cfg, price, exitBalance, id, Long), ShortEntryCommands(cfg, price, balance, order));
    FlipExitOrders(cfg, price, exitBalance, id, Long);
    ShortEntryOrders(cfg, price, balance, order);
  }

  // ---------------------------------------------------------------------
  // The bot
  // ---------------------------------------------------------------------

  class Bot {
    const config: Config

    var side: Option<Side>
    var shortStoploss: Option<real>
    var shortTakeprofit: Option<real>
    var longStoploss: Option<real>
    var longTakeprofit: Option<real>
    var executedQty: Option<real>
    var currentPrice: Option<real>
    var takeProfitOrderId: Option<OrderId>
    var isStreamReady: bool
    var listenToShortExit: bool
    var listenToLongExit: bool

    /** Every request sent to the exchange, oldest first. */
    ghost var trace: seq<Command>

    /** What every reachable state satisfies: the stream is ready exactly
        when a price has arrived, and a listener only runs over a recorded
        quantity, a stop-loss level and a price. */
    ghost predicate Valid()
      reads this
    {
      && (isStreamReady <==> currentPrice.Some?)
      && (listenToLongExit ==> currentPrice.Some? && executedQty.Some? && longStoploss.Some?)
      && (listenToShortExit ==> currentPrice.Some? && executedQty.Some? && shortStoploss.Some?)
    }

    /** The listeners agree with the recorded side, so at most one of them
        is listening. */
    ghost predicate ListenersMatchSide()
      reads this
    {
      (listenToLongExit ==> side == Some(Long)) && (listenToShortExit ==> side == Some(Short))
    }

    /** A price has arrived and it can size an order. */
    predicate HasPrice()
      reads this
    {
      currentPrice.Some? && currentPrice.value > 0.0
    }

    /** The fields `long()` has set after an entry filled as `order`, with
        `tp` the reply to the take-profit order; `side0`, `target0` and `id0`
        are the side, long take-profit and take-profit order id before. */
    ghost predicate LongEntered(order: MarketOrder, tp: LimitOrder, side0: Option<Side>, target0: Option<real>, id0: Option<OrderId>)
      reads this
    {
      && executedQty == Some(order.origQty)
      && longStoploss == Some(Below(order.avgPrice, config.longStoplossPercentage))
      && listenToLongExit
      && match config.longTakeprofitPercentage
         case Some(pct) =>
           longTakeprofit == Some(Above(order.avgPrice, pct)) && takeProfitOrderId == Some(tp.orderId) && side == Some(Long)
         case None =>
           longTakeprofit == target0 && takeProfitOrderId == id0 && side == side0
    }

    /** The fields `short()` has set after an entry filled as `order`, with
        `tp` the reply to the take-profit order. */
    ghost predicate ShortEntered(order: MarketOrder, tp: LimitOrder)
      reads this
    {
      && executedQty == Some(order.origQty)
      && shortStoploss == Some(Above(order.avgPrice, config.shortStoplossPercentage))
      && shortTakeprofit == Some(Below(order.avgPrice, config.shortTakeprofitPercentage))
      && takeProfitOrderId == Some(tp.orderId)
      && side == Some(Short)
      && listenToShortExit
    }

    /** The constructor: a flat, idle state and the price stream subscribed. */
    constructor (config: Config)
      ensures this.config == config
      ensures side.None? && executedQty.None? && currentPrice.None? && takeProfitOrderId.None?
      ensures shortStoploss.None? && shortTakeprofit.None? && longStoploss.None? && longTakeprofit.None?
      ensures !isStreamReady && !listenToShortExit && !listenToLongExit
      ensures trace == [MiniTickerStream]
      ensures Valid() && ListenersMatchSide()
    {
      this.config := config;
      side, executedQty, currentPrice, takeProfitOrderId := None, None, None, None;
      shortStoploss, shortTakeprofit, longStoploss, longTakeprofit := None, None, None, None;
      isStreamReady, listenToShortExit, listenToLongExit := false, false, false;
      trace := [MiniTickerStream];
    }

    /** `tick`: a price arrives on the stream. */
    method Tick(close: real)
      requires Valid()
      modifies this`currentPrice, this`isStreamReady
      ensures Valid() && HasPrice() == (close > 0.0)
      ensures currentPrice == Some(close) && isStreamReady
    {
      currentPrice := Some(close);
      isStreamReady := true;
    }

    /** `getMaxTradeAmount`, with `balance` the wallet balance the account
        query returns. */
    method GetMaxTradeAmount(balance: real) returns (amount: real)
      requires HasPrice()
      modifies this`trace
      ensures trace == old(trace) + [Account]
      ensures Valid() == old(Valid()) && ListenersMatchSide() == old(ListenersMatchSide())
      ensures amount == TradeAmount(balance, config.margin, currentPrice.value)
    {
      trace := trace + [Account];
      amount := TradeAmount(balance, config.margin, currentPrice.value);
    }

    /** `placeMarketOrderBuy`: a market buy of the largest tradeable amount. */
    method PlaceMarketOrderBuy(balance: real, reply: MarketOrder) returns (order: MarketOrder)
      requires HasPrice()
      modifies this`trace
      ensures trace == old(trace) + [Account, MarketBuy(TradeAmount(balance, config.margin, currentPrice.value))]
      ensures Valid() == old(Valid()) && ListenersMatchSide() == old(ListenersMatchSide())
      ensures order == reply
    {
      var amount := GetMaxTradeAmount(balance);
      trace := trace + [MarketBuy(amount)];
      order := reply;
    }

    /** `placeMarketOrderSell`: a market sell of the largest tradeable amount. */
    method PlaceMarketOrderSell(balance: real, reply: MarketOrder) returns (order: MarketOrder)
      requires HasPrice()
      modifies this`trace
      ensures trace == old(trace) + [Account, MarketSell(TradeAmount(balance, config.margin, currentPrice.value))]
      ensures Valid() == old(Valid()) && ListenersMatchSide() == old(ListenersMatchSide())
      ensures order == reply
    {
      var amount := GetMaxTradeAmount(balance);
      trace := trace + [MarketSell(amount)];
      order := reply;
    }

    /** `long()`: enter long at market, record the quantity and the levels,
        place the take-profit order when one is configured and start the
        long exit listener. `side` becomes LONG only in the take-profit
        branch. */
    method EnterLong(balance: real, reply: MarketOrder, tp: LimitOrder)
      requires Valid() && HasPrice()
      modifies this`trace, this`executedQty, this`longStoploss, this`longTakeprofit
      modifies this`takeProfitOrderId, this`side, this`listenToLongExit
      ensures Valid()
      ensures LongEntered(reply, tp, old(side), old(longTakeprofit), old(takeProfitOrderId))
      ensures trace == old(trace) + LongEntryCommands(config, currentPrice.value, balance, reply)
      ensures config.longTakeprofitPercentage.Some? && old(ListenersMatchSide()) && !listenToShortExit ==> ListenersMatchSide()
    {
      var order := PlaceMarketOrderBuy(balance, reply);
      var orderAvgPrice := order.avgPrice;
      executedQty := Some(order.origQty);
      longStoploss := Some(Below(orderAvgPrice, config.longStoplossPercentage));
      match config.longTakeprofitPercentage {
        case Some(pct) =>
          longTakeprofit := Some(Above(orderAvgPrice, pct));
          trace := trace + [LimitBuy(order.executedQty, longTakeprofit.value)];
          takeProfitOrderId := Some(tp.orderId);
          side := Some(Long);
        case None =>
      }
      listenToLongExit := true;
    }

    /** `short()`: enter short at market, record the quantity and the levels,
        place the take-profit order and start the short exit listener. */
    method EnterShort(balance: real, reply: MarketOrder, tp: LimitOrder)
      requires Valid() && HasPrice()
      modifies this`trace, this`executedQty, this`shortStoploss, this`shortTakeprofit
      modifies this`takeProfitOrderId, this`side, this`listenToShortExit
      ensures Valid()
      ensures ShortEntered(reply, tp)
      ensures trace == old(trace) + ShortEntryCommands(config, currentPrice.value, balance, reply)
      ensures old(ListenersMatchSide()) && !listenToLongExit ==> ListenersMatchSide()
    {
      var order := PlaceMarketOrderSell(balance, reply);
      var orderAvgPrice := order.avgPrice;
      executedQty := Some(order.origQty);
      shortStoploss := Some(Above(orderAvgPrice, config.shortStoplossPercentage));
      shortTakeprofit := Some(Below(orderAvgPrice, config.shortTakeprofitPercentage));
      trace := trace + [LimitBuy(order.executedQty, shortTakeprofit.value)];
      takeProfitOrderId := Some(tp.orderId);
      side := Some(Short);
      listenToShortExit := true;
    }

    /** The state after a LONG alert: the long entry's fields, the short
        listener off if the bot was short, the short levels untouched, and
        the flip's exit requests (when short) before the long entry's. */
    twostate predicate AlertedLong(exitBalance: real, balance: real, reply: MarketOrder, tp: LimitOrder)
      reads this
    {
      && currentPrice.Some? && currentPrice.value != 0.0
      && LongEntered(reply, tp, old(side), old(longTakeprofit), old(takeProfitOrderId))
      && listenToShortExit == (old(listenToShortExit) && old(side) != Some(Short))
      && shortStoploss == old(shortStoploss) && shortTakeprofit == old(shortTakeprofit)
      && trace == old(trace)
                  + (if old(side) == Some(Short)
                     then FlipExitCommands(config, currentPrice.value, exitBalance, old(takeProfitOrderId), Short)
                     else [])
                  + LongEntryCommands(config, currentPrice.value, balance, reply)
    }

    /** The state after a SHORT alert, symmetric to `AlertedLong`. */
    twostate predicate AlertedShort(exitBalance: real, balance: real, reply: MarketOrder, tp: LimitOrder)
      reads this
    {
      && currentPrice.Some? && currentPrice.value != 0.0
      && ShortEntered(reply, tp)
      && listenToLongExit == (old(listenToLongExit) && old(side) != Some(Long))
      && longStoploss == old(longStoploss) && longTakeprofit == old(longTakeprofit)
      && trace == old(trace)
                  + (if old(side) == Some(Long)
                     then FlipExitCommands(config, currentPrice.value, exitBalance, old(takeProfitOrderId), Long)
                     else [])
                  + ShortEntryCommands(config, currentPrice.value, balance, reply)
    }

    /** The LONG branch of `onAlert`: when short, stop the short listener,
        cancel the take-profit order and buy back at market, sized afresh
        from `exitBalance`; then enter long. */
    method OnLongAlert(exitBalance: real, exitReply: MarketOrder, balance: real, reply: MarketOrder, tp: LimitOrder)
      requires Valid() && HasPrice()
      modifies this`trace, this`executedQty, this`takeProfitOrderId, this`side
      modifies this`longStoploss, this`longTakeprofit, this`listenToLongExit, this`listenToShortExit
      ensures Valid() && AlertedLong(exitBalance, balance, reply, tp)
      ensures config.longTakeprofitPercentage.Some? && old(ListenersMatchSide()) ==> ListenersMatchSide()
    {
      if side == Some(Short) {
        listenToShortExit := false;
        trace := trace + [Cancel(takeProfitOrderId)];
        var exitShort := PlaceMarketOrderBuy(exitBalance, exitReply);
        EnterLong(balance, reply, tp);
      } else {
        EnterLong(balance, reply, tp);
      }
    }

    /** The SHORT branch of `onAlert`: when long, stop the long listener,
        cancel the take-profit order and sell at market, sized afresh from
        `exitBalance`; then enter short. */
    method OnShortAlert(exitBalance: real, exitReply: MarketOrder, balance: real, reply: MarketOrder, tp: LimitOrder)
      requires Valid() && HasPrice()
      modifies this`trace, this`executedQty, this`takeProfitOrderId, this`side
      modifies this`shortStoploss, this`shortTakeprofit, this`listenToShortExit, this`listenToLongExit
      ensures Valid() && AlertedShort(exitBalance, balance, reply, tp)
      ensures config.longTakeprofitPercentage.Some? && old(ListenersMatchSide()) ==> ListenersMatchSide()
    {
      if side == Some(Long) {
        listenToLongExit := false;
        trace := trace + [Cancel(takeProfitOrderId)];
        var exitLong := PlaceMarketOrderSell(exitBalance, exitReply);
        EnterShort(balance, reply, tp);
      } else {
        EnterShort(balance, reply, tp);
      }
    }

    /** `onAlert`: a LONG alert flips from short or enters long from any
        other side, so a repeated alert enters again; SHORT is symmetric.
        `alertSide == None` stands for any other value: no request and no
        change. The price of the alert is not used. */
    method OnAlert(price: string, alertSide: Option<Side>, exitBalance: real, exitReply: MarketOrder,
                   balance: real, reply: MarketOrder, tp: LimitOrder)
      requires Valid() && HasPrice()
      modifies this`trace, this`executedQty, this`takeProfitOrderId, this`side
      modifies this`longStoploss, this`longTakeprofit, this`listenToLongExit
      modifies this`shortStoploss, this`shortTakeprofit, this`listenToShortExit
      ensures Valid()
      ensures alertSide == Some(Long) ==> AlertedLong(exitBalance, balance, reply, tp)
      ensures alertSide == Some(Short) ==> AlertedShort(exitBalance, balance, reply, tp)
      ensures alertSide == None ==>
                && trace == old(trace) && side == old(side) && executedQty == old(executedQty)
                && takeProfitOrderId == old(takeProfitOrderId)
                && longStoploss == old(longStoploss) && longTakeprofit == old(longTakeprofit)
                && shortStoploss == old(shortStoploss) && shortTakeprofit == old(shortTakeprofit)
                && listenToLongExit == old(listenToLongExit) && listenToShortExit == old(listenToShortExit)
      ensures config.longTakeprofitPercentage.Some? && old(ListenersMatchSide()) ==> ListenersMatchSide()
    {
      match alertSide {
        case Some(Long) => OnLongAlert(exitBalance, exitReply, balance, reply, tp);
        case Some(Short) => OnShortAlert(exitBalance, exitReply, balance, reply, tp);
        case None =>
      }
    }

    /** One run of `longExitListener`; `filledQty` is the executed quantity
        the take-profit order's status query returns, when it is queried.
        Listening and at or below the stop-loss: cancel the take-profit order,
        sell the recorded quantity at market, go flat and stop. Listening,
        above the stop-loss and a take-profit configured: poll the order and
        go flat and stop once it has executed the recorded quantity, else run
        again. Listening without a take-profit: stop, changing nothing. Not
        listening: run again, changing nothing. */
    method LongExitListener(filledQty: real) returns (next: Next)
      requires Valid()
      modifies this`trace, this`listenToLongExit, this`side
      ensures Valid()
      ensures !old(listenToLongExit) ==>
                next == Reschedule && trace == old(trace) && side == old(side) && !listenToLongExit
      ensures old(listenToLongExit) && currentPrice.value <= longStoploss.value ==>
                && next == Stop && !listenToLongExit && side == None
                && trace == old(trace) + [Cancel(takeProfitOrderId), MarketSell(executedQty.value)]
      ensures old(listenToLongExit) && currentPrice.value > longStoploss.value && config.longTakeprofitPercentage.Some? ==>
                && trace == old(trace) + [OrderStatus(takeProfitOrderId)]
                && (if filledQty == executedQty.value
                    then next == Stop && !listenToLongExit && side == None
                    else next == Reschedule && listenToLongExit && side == old(side))
      ensures old(listenToLongExit) && currentPrice.value > longStoploss.value && config.longTakeprofitPercentage.None? ==>
                next == Stop && trace == old(trace) && listenToLongExit && side == old(side)
      ensures old(ListenersMatchSide()) ==> ListenersMatchSide()
    {
      if listenToLongExit {
        if currentPrice.value <= longStoploss.value {
          trace := trace + [Cancel(takeProfitOrderId)];
          trace := trace + [MarketSell(executedQty.value)];
          listenToLongExit := false;
          side := None;
          next := Stop;
        } else if config.longTakeprofitPercentage.Some? {
          trace := trace + [OrderStatus(takeProfitOrderId)];
          if filledQty == executedQty.value {
            listenToLongExit := false;
            side := None;
            next := Stop;
          } else {
            next := Reschedule;
          }
        } else {
          next := Stop;
        }
      } else {
        next := Reschedule;
      }
    }

    /** One run of `shortExitListener`; `filledQty` is the executed quantity
        the take-profit order's status query returns. The status is queried
        first, whatever follows. Listening and at or above the stop-loss:
        cancel the take-profit order, buy back the recorded quantity at
        market, go flat and stop. Listening and the take-profit order has
        executed the recorded quantity: go flat and stop. Listening otherwise:
        run again. Not listening: stop, changing nothing else. */
    method ShortExitListener(filledQty: real) returns (next: Next)
      requires Valid()
      modifies this`trace, this`listenToShortExit, this`side
      ensures Valid()
      ensures !old(listenToShortExit) ==>
                next == Stop && trace == old(trace) + [OrderStatus(takeProfitOrderId)]
                && side == old(side) && !listenToShortExit
      ensures old(listenToShortExit) && currentPrice.value >= shortStoploss.value ==>
                && next == Stop && !listenToShortExit && side == None
                && trace == old(trace) + [OrderStatus(takeProfitOrderId), Cancel(takeProfitOrderId), MarketBuy(executedQty.value)]
      ensures old(listenToShortExit) && currentPrice.value < shortStoploss.value ==>
                && trace == old(trace) + [OrderStatus(takeProfitOrderId)]
                && (if filledQty == executedQty.value
                    then next == Stop && !listenToShortExit && side == None
                    else next == Reschedule && listenToShortExit && side == old(side))
      ensures old(ListenersMatchSide()) ==> ListenersMatchSide()
    {
      trace := trace + [OrderStatus(takeProfitOrderId)];
      if listenToShortExit {
        if currentPrice.value >= shortStoploss.value {
          trace := trace + [Cancel(takeProfitOrderId)];
          trace := trace + [MarketBuy(executedQty.value)];
          listenToShortExit := false;
          side := None;
          next := Stop;
        } else if filledQty == executedQty.value {
          listenToShortExit := false;
          side := None;
          next := Stop;
        } else {
          next := Reschedule;
        }
      } else {
        next := Stop;
      }
    }

    /** `startBot`: only once a price has arrived does the bot listen for
        alert mail, query the balance, set the leverage to the margin and
        query the balance again for the sizing it logs. */
    method StartBot() returns (started: bool)
      requires Valid()
      modifies this`trace
      ensures Valid() && ListenersMatchSide() == old(ListenersMatchSide())
      ensures started == (currentPrice.Some? && isStreamReady)
      ensures trace == old(trace) + (if started then [ListenForAlerts, Account, Leverage(config.margin), Account] else [])
    {
      started := currentPrice.Some? && isStreamReady;
      if started {
        trace := trace + [ListenForAlerts, Account, Leverage(config.margin), Account];
      }
    }
  }
}
