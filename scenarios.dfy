/** Concrete runs of the bot, written as clients of the class: each one starts
    a fresh bot, feeds it prices, alerts and exchange replies, and states what
    the bot ends up with. The ghost trace of requests is checked in the
    bodies. */
module BotScenarios {
  import opened Options
  import opened Constants
  import opened TradingBot

  /** Margin 4, short stop-loss 2%, short take-profit 3%, long stop-loss 5%. */
  function ExampleConfig(longTakeprofit: Option<real>): Config {
    Config("ETHUSDT", 4.0, 2.0, 3.0, 5.0, longTakeprofit)
  }

  /** A short of 10 at 100, then a LONG alert. The short is closed by a market
      buy of 38, the size a fresh balance of 1000 buys, not of the 10 that
      were sold; the bot ends long 38 with only the long listener on. */
  method FlipShortToLong() returns (side: Option<Side>, quantity: Option<real>, listeningShort: bool, listeningLong: bool)
    ensures side == Some(Long) && quantity == Some(38.0)
    ensures !listeningShort && listeningLong
  {
    var cfg := ExampleConfig(Some(5.0));
    var b := new Bot(cfg);
    b.Tick(100.0);
    b.EnterShort(1000.0, MarketOrder(1, 100.0, 10.0, 10.0), LimitOrder(2));
    assert b.executedQty == Some(10.0) && b.takeProfitOrderId == Some(2);
    ghost var before := b.trace;
    b.OnAlert("100", Some(Long), 1000.0, MarketOrder(3, 100.0, 38.0, 38.0), 1000.0, MarketOrder(4, 100.0, 38.0, 38.0), LimitOrder(5));
    assert b.trace == before + FlipExitCommands(cfg, 100.0, 1000.0, Some(2), Short)
                             + LongEntryCommands(cfg, 100.0, 1000.0, MarketOrder(4, 100.0, 38.0, 38.0));
    SizingExample();
    assert FlipExitCommands(cfg, 100.0, 1000.0, Some(2), Short)[2] == MarketBuy(38.0);
    assert b.takeProfitOrderId == Some(5);
    side, quantity, listeningShort, listeningLong := b.side, b.executedQty, b.listenToShortExit, b.listenToLongExit;
  }

  /** Two LONG alerts in a row: the second is not ignored, it buys again and
      the recorded quantity becomes that of the second fill. */
  method RepeatedLongEntersAgain() returns (side: Option<Side>, quantity: Option<real>, takeProfitOrderId: Option<OrderId>)
    ensures side == Some(Long) && quantity == Some(20.0) && takeProfitOrderId == Some(4)
  {
    var cfg := ExampleConfig(Some(5.0));
    var b := new Bot(cfg);
    b.Tick(100.0);
    b.OnAlert("100", Some(Long), 0.0, MarketOrder(0, 0.0, 0.0, 0.0), 1000.0, MarketOrder(1, 100.0, 10.0, 10.0), LimitOrder(2));
    assert b.side == Some(Long) && b.executedQty == Some(10.0);
    ghost var before := b.trace;
    b.OnAlert("100", Some(Long), 0.0, MarketOrder(0, 0.0, 0.0, 0.0), 1000.0, MarketOrder(3, 100.0, 20.0, 20.0), LimitOrder(4));
    assert b.trace == before + LongEntryCommands(cfg, 100.0, 1000.0, MarketOrder(3, 100.0, 20.0, 20.0));
    side, quantity, takeProfitOrderId := b.side, b.executedQty, b.takeProfitOrderId;
  }

  /** A long entered at 100 with a 5% stop-loss: at 95.01 the listener polls
      the unfilled take-profit order and runs again; at 94.99 it cancels that
      order, sells the recorded 10 at market and the bot is flat. */
  method LongStopLoss() returns (first: Next, second: Next, side: Option<Side>, listening: bool)
    ensures first == Reschedule && second == Stop
    ensures side == None && !listening
  {
    var cfg := ExampleConfig(Some(5.0));
    var b := new Bot(cfg);
    b.Tick(100.0);
    b.EnterLong(1000.0, MarketOrder(1, 100.0, 10.0, 10.0), LimitOrder(2));
    StopLossExample();
    assert b.longStoploss == Some(95.0);
    b.Tick(95.01);
    first := b.LongExitListener(0.0);
    b.Tick(94.99);
    ghost var before := b.trace;
    second := b.LongExitListener(0.0);
    assert b.trace == before + [Cancel(Some(2)), MarketSell(10.0)];
    side, listening := b.side, b.listenToLongExit;
  }

  /** A short whose take-profit order reports the recorded quantity executed:
      the listener goes flat and stops without placing an order. */
  method ShortTakeProfitFilled() returns (next: Next, side: Option<Side>, listening: bool)
    ensures next == Stop && side == None && !listening
  {
    var cfg := ExampleConfig(None);
    var b := new Bot(cfg);
    b.Tick(100.0);
    b.EnterShort(1000.0, MarketOrder(1, 100.0, 10.0, 10.0), LimitOrder(2));
    b.Tick(99.0);
    ghost var before := b.trace;
    next := b.ShortExitListener(10.0);
    assert b.trace == before + [OrderStatus(Some(2))];
    side, listening := b.side, b.listenToShortExit;
  }

  /** Without a long take-profit, a flip from short to long leaves the
      recorded side SHORT while the long listener runs: the listeners no
      longer match the side, and a later SHORT alert does not close the long
      but enters short beside it, with both listeners on. */
  method FlipWithoutLongTakeProfit() returns (sideAfterFlip: Option<Side>, bothListening: bool)
    ensures sideAfterFlip == Some(Short)
    ensures bothListening
  {
    var cfg := ExampleConfig(None);
    var b := new Bot(cfg);
    b.Tick(100.0);
    b.EnterShort(1000.0, MarketOrder(1, 100.0, 10.0, 10.0), LimitOrder(2));
    b.OnAlert("100", Some(Long), 1000.0, MarketOrder(3, 100.0, 38.0, 38.0), 1000.0, MarketOrder(4, 100.0, 38.0, 38.0), LimitOrder(5));
    assert b.listenToLongExit && !b.ListenersMatchSide();
    sideAfterFlip := b.side;
    ghost var before := b.trace;
    b.OnAlert("100", Some(Short), 1000.0, MarketOrder(6, 100.0, 38.0, 38.0), 1000.0, MarketOrder(7, 100.0, 38.0, 38.0), LimitOrder(8));
    assert b.trace == before + ShortEntryCommands(cfg, 100.0, 1000.0, MarketOrder(7, 100.0, 38.0, 38.0));
    bothListening := b.listenToLongExit && b.listenToShortExit;
  }
}
