# A verified model of the crypto-bot position machine and alert parser

This project models the two pieces of sequential logic of a small futures
trading bot:

- **The bot** (`app/bot/index.js`, module `TradingBot`, file `bot.dfy`). One
  mutable state record: the recorded side, the entry quantity, the long and
  short stop-loss and take-profit levels, the take-profit order id, the last
  price, and the two flags that keep the exit listeners running. It is the
  class `TradingBot.Bot`. On an alert the bot flips or enters a position. An
  entry sizes the order from the balance, the margin and the price, enters
  at market, computes the levels and places a limit order at the take-profit
  level. Then an exit listener runs once a second. It closes the position at
  market when the price crosses the stop-loss. It goes flat when the
  take-profit order reports the recorded quantity executed.
- **The alert parser** (`app/email/index.js`, module `AlertEmail`, file
  `email.dfy`). The mail subject is cut into tokens by the global regular
  expression `/(\d+.\d+|\d+)/g`. A fourth token of `1111` means a long
  alert and `1000` a short alert, at the price given by the first token.
  Only mail dated after the module was loaded is parsed.

The exchange is abstract. Every request the bot sends is appended to the
ghost field `trace` as a `Command`: market buy and sell, limit buy, cancel,
order status, account, leverage, price stream and the start of the mail
listener. Every reply the bot reads is a method parameter: the wallet
balance, the market-order fill, the limit-order id and the executed quantity
of the take-profit order. Each exit listener is one method call that
returns `Reschedule` (the `setTimeout` of one second) or `Stop`.

Prices, quantities and percentages are `real`; `Math.floor` is `.Floor`.
Nullable fields are `Option`. The sides `LONG` and `SHORT` come from
`app/bot/constants.js`, which is not part of this model. They are the
datatype `Constants.Side`, whose two values are the e-mail's `"long"` and
`"short"`.

`scenarios.dfy` (module `BotScenarios`) holds client runs of the class with
concrete numbers: a flip, a repeated alert, a stop-loss, a take-profit fill,
and a flip without a long take-profit.

### Behaviour of the code worth knowing

The model follows the code:

- A second alert for the side already held is not ignored. It enters again,
  and the recorded quantity becomes that of the new fill
  (`RepeatedLongEntersAgain`).
- The market order that closes the old side on a flip is sized by a fresh
  `getMaxTradeAmount`, not by the recorded quantity. Only the stop-loss exits
  use the recorded quantity (`FlipShortToLong`, `FlipToLongOrders`).
- The long take-profit order is placed with `futuresBuy`, a buy limit, as is
  the short one (`LongEntryCommands`).
- `side` becomes LONG only when a long take-profit is configured. Without
  one, a flip from short leaves `side` SHORT while the long listener runs.
  A later SHORT alert then enters short beside the long position, with both
  listeners on (`FlipWithoutLongTakeProfit`). The invariant that the
  listeners agree with the side (`Bot.ListenersMatchSide`) is preserved by
  `OnAlert` and the two listeners only when a long take-profit is
  configured; `Tick`, `StartBot` and the order helpers keep it always. The
  entries called on their own keep it only when the other side's listener
  is off.
- Without a long take-profit, the long listener stops after its first run
  above the stop-loss. The stop-loss is checked once only.
- The two listeners differ when their flag is off. The long one runs again;
  the short one stops. The short one queries the order status first, even
  when it is not listening.
- The comment on the sizing speaks of an error margin of 0.01%, but the
  code takes 5% off the rounded maximum (app/bot/index.js:88-89). The model
  follows the code (`TradeAmount`, `SizingExample`).
- There is no flatten signal and no retry-forever wrapper around the
  exchange calls.

## Model

| member | source | states |
|---|---|---|
| `AlertEmail.RunEnd` | app/email/index.js:12 | the greedy `\d+` at `i`: every character it covers is a digit, it stops only at the end or at a non-digit, and it covers at least one character when a digit is at `i` |
| `AlertEmail.MatchesFrom` | app/email/index.js:12-13 | the global search from `i`: matches do not overlap and none is empty, so there are at most as many matches as characters left |
| `AlertEmail.FirstAlternative` | app/email/index.js:12-13 | the first alternative `\d+.\d+` as a backtracking matcher runs it, first `\d+` giving back one digit per failure; a match covers at least three characters |
| `AlertEmail.MatchAt` | app/email/index.js:12-13 | a match starts exactly at the digits of the subject and ends beyond its start; first alternative before the second |
| `AlertEmail.MatchAll` | app/email/index.js:13 | `match` returns null exactly when the subject has no digit, and otherwise the non-empty list of matches |
| `AlertEmail.MatchAtIsTokenEnd` | app/email/index.js:12 | the backtracking semantics equals the closed form: the digit run, extended by one non-line-terminator character and a second digit run when a digit follows that character |
| `AlertEmail.BacktrackInsideRun` | app/email/index.js:12 | backtracking inside the first digit run succeeds only at the run's end and only for runs of three or more digits |
| `AlertEmail.TokenAtIsToken` | app/email/index.js:12-13 | the match at a digit is a digit run or two digit runs joined by one character that is neither a digit nor a line terminator |
| `AlertEmail.MatchesAreTokens` | app/email/index.js:12-13 | every match of the global search has that token shape and starts and ends with a digit |
| `AlertEmail.NoMatchIffNoDigit` | app/email/index.js:13-15 | the global search finds nothing exactly when no digit follows the search position |
| `AlertEmail.FirstMatchAtFirstDigit` | app/email/index.js:12-13 | leftmost-first: the first match begins at the first digit of the subject |
| `AlertEmail.SpaceJoinsRuns` | app/email/index.js:12 | `"12 34"` is one token |
| `AlertEmail.LineBreakSeparates` | app/email/index.js:12 | `"12\n34"` is two tokens, since `.` does not match a line terminator |
| `AlertEmail.FirstPairMerges` | app/email/index.js:12 | `"1 2 3"` is the tokens `"1 2"` and `"3"` |
| `AlertEmail.CommaSeparatedTokens` | app/email/index.js:12-13 | numbers set apart by a comma and a space are four separate tokens |
| `AlertEmail.SpaceSeparatedTokens` | app/email/index.js:12-13 | numbers set apart by single spaces merge, so the code moves to the third token |
| `AlertEmail.ParseAlert` | app/email/index.js:9-29 | an alert iff the mail has a sender and at least four tokens with the fourth `"1111"` or `"1000"`; its price is the first token verbatim; long iff the code is `"1111"`; at most one alert per mail |
| `AlertEmail.AlertPriceIsLeadingToken` | app/email/index.js:26 | an alert's price is a numeric token, the one beginning at the subject's first digit |
| `AlertEmail.NoDigitNoAlert` | app/email/index.js:13-28 | a subject without a digit (match returns null, the indexing throws and the error is swallowed) yields no alert |
| `AlertEmail.AlertExamples` | app/email/index.js:14-26 | a comma-separated subject with code 1000 is a short alert at its first number; the space-separated one is none; a mail without a sender is none |
| `AlertEmail.OnMail` | app/email/index.js:80-83 | only mail dated strictly after the start time is parsed; such mail is parsed exactly as `ParseAlert` does |
| `TradingBot.RoundDown3` | app/bot/index.js:89 | `Math.floor(x * 1000) / 1000` is a whole number of thousandths, at most `x` and less than 1/1000 below it |
| `TradingBot.MaxTradeAmount` | app/bot/index.js:83-86 | the rounded maximum is a whole number of thousandths within 1/1000 below balance times margin over price |
| `TradingBot.SizingBound` | app/bot/index.js:83-89 | for a non-negative balance and margin and a positive price, 0 ≤ order size ≤ rounded maximum ≤ balance·margin/price, both whole thousandths |
| `TradingBot.SizingExample` | app/bot/index.js:83-89 | balance 1000, margin 4, price 100: maximum 40, order size 38 |
| `TradingBot.Below` | app/bot/index.js:319-321 | `avg - avg/100·pct` equals `avg·(1 − pct/100)`, lies below a positive `avg` for a positive `pct`, and stays positive below 100% |
| `TradingBot.Above` | app/bot/index.js:278-280 | `avg + avg/100·pct` equals `avg·(1 + pct/100)` and lies above a positive `avg` for a positive `pct` |
| `TradingBot.LevelsStraddleEntry` | app/bot/index.js:278-326 | with positive percentages the long stop is below the entry, the short stop above it, the short target below it and the long target above it |
| `TradingBot.StopLossExample` | app/bot/index.js:319-321 | entry 100 with a 5% stop gives 95; 94.99 meets the stop-loss test, 95.01 does not |
| `TradingBot.LongEntryCommands` | app/bot/index.js:311-333 | a long entry sends two requests, plus the take-profit order when one is configured; the second is the market buy of the computed size |
| `TradingBot.ShortEntryCommands` | app/bot/index.js:273-290 | a short entry sends three requests, the second the market sell of the computed size |
| `TradingBot.FlipExitCommands` | app/bot/index.js:137-143 | a flip's exit sends three requests and cancels the current take-profit order first |
| `TradingBot.FlipToLongOrders` | app/bot/index.js:136-153 | a flip from short sends exactly one market buy sized by the fresh balance to exit, then the long entry's orders |
| `TradingBot.FlipToShortOrders` | app/bot/index.js:154-170 | a flip from long sends exactly one market sell sized by the fresh balance to exit, then the short entry's market sell and limit buy |
| `TradingBot.Bot.constructor` | app/bot/index.js:36-69 | the initial state: flat, nothing recorded, not listening, stream not ready, and the price stream subscribed |
| `TradingBot.Bot.Tick` | app/bot/index.js:96-99 | a price sets `currentPrice` and marks the stream ready; nothing else changes |
| `TradingBot.TradeAmount` | app/bot/index.js:83-89 | the order size is the largest whole number of thousandths not above 95% of the rounded maximum (bounds in `SizingBound`) |
| `TradingBot.Bot.GetMaxTradeAmount` | app/bot/index.js:78-93 | one account request; the result is the sizing formula on the returned balance and the current price; no state field changes |
| `TradingBot.Bot.PlaceMarketOrderBuy` | app/bot/index.js:101-116 | an account request, then a market buy of the computed size; the reply is returned; no state field changes, so the invariants hold after it iff they held before |
| `TradingBot.Bot.PlaceMarketOrderSell` | app/bot/index.js:118-133 | an account request, then a market sell of the computed size; the reply is returned; no state field changes, so the invariants hold after it iff they held before |
| `TradingBot.Bot.EnterLong` | app/bot/index.js:311-354 | the recorded quantity is the fill's `origQty`, the long stop is `Below(avgPrice, longStoplossPercentage)`, and the long listener is on; side, target and order id change only when a long take-profit is configured; the trace grows by the long entry's requests; listeners keep agreeing with the side when a long take-profit is configured and the short listener is off |
| `TradingBot.Bot.EnterShort` | app/bot/index.js:270-309 | quantity is `origQty`, both short levels are set, the order id is that of the placed limit buy, side SHORT and the short listener on; exactly one market sell and one limit buy are sent |
| `TradingBot.Bot.OnLongAlert` | app/bot/index.js:136-153 | when short: short listener off, cancel of the current order id, market-buy exit sized from the fresh balance, then the long entry; otherwise only the long entry; short levels untouched |
| `TradingBot.Bot.OnShortAlert` | app/bot/index.js:154-170 | when long: long listener off, cancel of the current order id, market-sell exit sized from the fresh balance, then the short entry; otherwise only the short entry; long levels untouched |
| `TradingBot.Bot.OnAlert` | app/bot/index.js:135-172 | LONG while SHORT: short listener off, cancel of the current order id, market-buy exit, long entry; LONG otherwise: only the long entry; SHORT symmetric; any other side: no request and no state change; listeners keep agreeing with the side when a long take-profit is configured |
| `TradingBot.Bot.LongExitListener` | app/bot/index.js:186-229 | not listening: run again, nothing changed; at or below the stop: cancel, market-sell the recorded quantity, flat, stop; above it with a take-profit: one status poll, flat and stop iff filled with the recorded quantity, else run again; without one: stop, nothing changed |
| `TradingBot.Bot.ShortExitListener` | app/bot/index.js:231-268 | the status is always polled first; not listening: stop; at or above the stop: cancel, market-buy the recorded quantity, flat, stop; filled: flat, stop; otherwise run again |
| `TradingBot.Bot.StartBot` | app/bot/index.js:356-372 | the bot starts iff a price has arrived and the stream is ready; only then does it listen for alerts, query the balance, set the leverage to the margin and query the balance again; the invariants are kept |
| `BotScenarios.FlipShortToLong` | app/bot/index.js:135-153 | from a short of 10 a LONG alert exits with a market buy of 38, the fresh size, and ends long 38 with only the long listener on |
| `BotScenarios.RepeatedLongEntersAgain` | app/bot/index.js:151-153 | a second LONG alert enters again and records the new fill's quantity and order id |
| `BotScenarios.LongStopLoss` | app/bot/index.js:189-222 | entry 100, stop 5%: at 95.01 the listener runs again, at 94.99 it cancels, sells the recorded 10 and the bot is flat |
| `BotScenarios.ShortTakeProfitFilled` | app/bot/index.js:233-261 | a take-profit that reports the recorded quantity executed makes the short listener go flat and stop without placing an order |
| `BotScenarios.FlipWithoutLongTakeProfit` | app/bot/index.js:318-344 | without a long take-profit a flip from short leaves side SHORT, and a following SHORT alert leaves both listeners on |

## Left out

- The exchange client (node-binance-api), the price-stream subscription and the IMAP mail listener are foreign I/O. Requests are recorded in the trace and replies are parameters. The mail listener's connect, disconnect and reconnect handling and its `done` and `mailListener` globals are not modelled.
- Exchange failures and the `try`/`catch` blocks of `getMaxTradeAmount`, `long` and `short` are not modelled. Every request is taken to succeed.
- Timers and concurrency. `setTimeout` is the `Reschedule` result. The calls made without `await` are modelled as sequential steps: `cancelLimitOrder` in `onAlert`, `long()` and `short()`, and the first listener run inside `long()` and `short()`. That first run is a separate call to the listener method. Stale listeners that keep running side by side are not modelled.
- Strings are sequences of Unicode code points. The regular expression has no `u` flag, so JavaScript matches it against UTF-16 code units. A character outside the Basic Multilingual Plane between two digits joins them into one token in the model but not in JavaScript.
- Floating point. `parseFloat`, IEEE rounding inside `Math.floor` and the string quantities compared with `===` are modelled as reals and real equality.
- TradingBot.Bot.EnterLong: the trace records the take-profit price as the exact level. The source sends `toFixed(2)` of it.
- TradingBot.Bot.EnterShort: the trace records the take-profit price as the exact level. The source sends `toFixed(2)` of it.
- TradingBot.Bot.OnAlert: it requires a positive price (`HasPrice`), and so do the entries and `GetMaxTradeAmount`. In the source the mail listener starts only after the readiness guard of `startBot`. Sizing with a missing or zero price, which gives `Infinity` or `NaN` in JavaScript, is not modelled. The alert's price argument is accepted but unused, as in the source.
- TradingBot.Bot.StartBot: the balance and leverage replies are only logged, so they are not parameters.
- The state fields `orderId`, `currentProfit`, `isBotOn` and `isBotStarting` are never written or read by the core and are not modelled.
- JavaScript coercions of `null` or `undefined` configuration values are not modelled. Only the long take-profit percentage is `Option`, because only it is compared with `null`.
- `app/index.js` (an HTTP route and bootstrap code) and `app/logger.js` (console output) are not part of this model. Neither are the two `index copy.js` variants.
