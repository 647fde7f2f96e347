# SPY option ladder and brokerage worker

This project models the core of the SPY trading suite in `build.py` and proves properties of that model. The core has two parts.

- **The option price ladder** runs in the trading page's script. The page builds a grid of 1001 option prices ($0.00 to $10.00 in one-cent steps). It keeps a selection offset that is relative to the at-the-money index 250. It draws a window of at most 31 rows around the selected index. Each row pairs an option price with the underlying price at which it triggers, `spy + (idx − 250)` cents. The page derives the entry, take-profit and stop-loss levels from the selection. It checks two guards before it sends an order.
- **The brokerage worker** belongs to `SPYTradingSuite`. It takes commands off a FIFO queue, one at a time. It connects, disconnects, places limit BUY orders, cancels orders and closes positions. In doing so it updates the shared fields `ib`, `ib_connected`, `last_ib_error`, `last_order_id`, `orders` and `trades`. The trade and connect handlers enqueue a command, wait, and then answer from whatever those fields hold. The cancel, close and disconnect handlers enqueue a command and reply with a fixed success at once. The price handler only stores the price. The option-chain handler calls the brokerage itself, on the request's thread, and answers from the first chain it gets.

The modules are:

- `Base`: an option type, small numeric helpers and the server's known-price test `PriceKnown`.
- `Ladder`: the grid, the window, the rows, the at-the-money flag and the trade levels. These are pure functions. The loop that builds the grid is a method.
- `LadderPage`: the page's globals as a class `Page`. Its handlers are methods proved against `Ladder`.
- `Worker`: the suite's fields as a value `State`. There is one transition function per `_ib_*` handler, and `Run` drains a queue of commands.
- `Gateway`: the reply rules of the HTTP handlers.
- `OptionChain`: the expiration and strike selection of the option-chain endpoint.
- `Suite`: the suite object as a class `TradingSuite`. It holds the fields and the `ibQueue` sequence. The worker handlers, the worker loop and the request handlers are methods. The worker handlers, the loop and the trade and connect handlers are proved against `Worker` and `Gateway`. The option-chain handler is proved against `OptionChain`.

Representation choices:

- Option prices are integer cents. Underlying prices, triggers, take-profit and stop-loss values are exact `real` dollars.
- The brokerage library is not called. Whatever it would answer while one command is handled is an `Answers` input:
  - whether the old session is live;
  - whether disconnecting raised;
  - the outcome of connecting;
  - the qualified contract;
  - the broker's order id;
  - whether the cancel raised.
- The disconnect, connect, qualify, place and cancel calls the worker makes are appended to `calls`, and so are the two calls the option-chain handler makes from the request's thread (qualifying the stock, asking for the option parameters). The model can therefore state the order of those calls. Creating a session object (`IB()`) and asking it `isConnected()` are not logged; the `Answers` fields `oldSessionLive` and `connect` stand for their results.
- Python and JavaScript truthiness is written out where the code relies on it:
  - an empty error message counts as no error;
  - an order id of 0 counts as no order id;
  - on the server, a reported price of 0 counts as no price (`PriceKnown`); the page tests only whether a price is present, so a price of 0 is a price there;
  - a strike of 0 or an empty expiry counts as no contract chosen.

Three facts about the ladder shape the model:

- The at-the-money index is 250 (the code's `midIdx`).
- In exact arithmetic, the test `|trigger − spy| < 0.005` holds only at grid index 250, for any price.
- The up and down buttons stop at ±250, but a click on a displayed row can move the offset further up. The offsets the page can reach are −250 to 750.

## Model

| member | source | states |
|---|---|---|
| Ladder.BuildOptionPrices | build.py:374-377 | the push loop builds exactly 1001 entries, and entry i is i cents |
| Ladder.WindowBounds | build.py:522-528 | for every reachable offset, the window is within the grid and contains the selected index; it has at most 31 rows, and exactly 31 when 15 ≤ sel < 986 |
| Ladder.RowValues | build.py:526-535 | row i of the window is grid index start+i, its option price is that many cents, and its trigger is spy + (idx − 250) cents; trigger minus option price is always spy − 2.50; its style is the mid / selected / plain rule |
| Ladder.ConsecutiveRows | build.py:530-533 | neighbouring rows differ by exactly one cent in option price and in trigger |
| Ladder.RowsIncreasing | build.py:530-533 | option prices and triggers strictly increase down the window |
| Ladder.MidExactlyAtMidIdx | build.py:531-535 | the at-the-money test holds if and only if the grid index is 250 |
| Ladder.MidRow | build.py:535-545 | a row has the mid highlight if and only if it is index 250; at most one row has it; one has it if and only if the window covers 250 |
| Ladder.SelectedRowShown | build.py:524-545 | the selected index is always shown, with option price equal to its index; it has the selected style unless it is the mid row (mid wins), and no other row has the selected style |
| Ladder.LevelsFromSelection | build.py:500-505 | entry equals the quick-trade trigger and the selected row's trigger, which is spy + offset cents; TP − entry = tp and entry − SL = sl, with no ordering imposed |
| Ladder.NoPriceWaits | build.py:517-519 | before any price is known, the panel is the waiting notice and no levels exist |
| Ladder.LevelsExample | build.py:503-505 | spy 149.23, offset 2, tp 0.05, sl 0.03 give 149.25 / 149.30 / 149.22 |
| Ladder.RerenderThreshold | build.py:489 | the ladder is redrawn on the first price, and afterwards exactly when the price moved by more than one cent from the previous reported price (not from the price it was last drawn at, so many small moves can leave the drawn ladder behind the price without limit; the page invariant does not bound that gap either) |
| LadderPage.DisplayedSelection | build.py:552-555 | in every valid page state with a price, the drawn panel shows the selected row, the stored option price is that row's price, and the quick trigger is the entry level |
| LadderPage.Page.constructor | build.py:362-377 | page load: the grid is built, the offset is 0, no price or contract is known, and the panel waits |
| LadderPage.Page.RenderLadder | build.py:516-558 | with no price nothing changes; otherwise the panel becomes `Render` of the current price and offset, and the stored option price becomes the selected row's |
| LadderPage.Page.UpdatePrice | build.py:484-490 | the previous price is remembered; the panel is redrawn at the new price exactly when `NeedsRerender` holds, and otherwise is unchanged |
| LadderPage.Page.SelectLadder | build.py:560-563 | clicking displayed index idx sets the offset to idx − 250 and the option price to idx cents; the panel is redrawn at the current price; the price, the previous price, the grid and the chosen contract are unchanged; the page invariant is kept |
| LadderPage.Page.LadderUp | build.py:565-568 | the offset goes up by one only while it is below 250; the panel is redrawn at the current price; the price, the previous price, the grid and the chosen contract are unchanged; the invariant (offset in [−250, 750], panel in step) is kept |
| LadderPage.Page.LadderDown | build.py:570-573 | the offset goes down by one only while it is above −250; the panel is redrawn at the current price; the price, the previous price, the grid and the chosen contract are unchanged; the invariant is kept |
| LadderPage.Page.CenterLadder | build.py:575-578 | the offset becomes 0; the panel is redrawn at the current price; the price, the previous price, the grid and the chosen contract are unchanged; the invariant is kept |
| LadderPage.Page.SetStrike | build.py:580-600 | the contract is accepted if and only if both a non-zero strike and a non-empty expiry are given; a refusal changes nothing |
| LadderPage.Page.QuickExecute | build.py:602-632 | with no contract chosen the result is refused for that reason; otherwise with no price it is refused for that reason; otherwise the request carries the selected row's option price, the entry trigger spy + offset cents, the contract, qty, tp and sl |
| Worker.Connect | build.py:1008-1029 | connected after the handler if and only if the new session opened and the teardown of a live session did not raise; success clears the error and installs a session never used before; a teardown that raises keeps the old session and records the disconnect's message; otherwise the new session is kept and a failure records "Connection failed" or the raised message; orders, positions and the order id are untouched; the invariant (connected ⇒ session) is kept |
| Worker.Disconnect | build.py:1031-1039 | with a session and no exception, the session is dropped and the connected flag cleared; a disconnect that raises leaves the session and the connected flag as they were; without a session nothing changes; tables, error and order id are untouched |
| Worker.ExecuteTrade | build.py:1041-1085 | an order id is recorded if and only if connected, the contract qualified and the order was placed; otherwise the orders are unchanged and an error is recorded, which is the raised message when qualifying or placing raised; on success the only change to orders is the broker's id, and the error is not cleared; when disconnected, "IBKR not connected" is recorded |
| Worker.CancelOrder | build.py:1087-1095 | an unknown id changes nothing; a known order leaves the table if and only if a session exists and the cancel did not raise; the error and the order id are never touched |
| Worker.ClosePosition | build.py:1097-1103 | only the given key leaves the position table, and nothing else changes |
| Worker.ApplyPreservesInv | build.py:987-1004 | every command, including an unknown kind, keeps the worker invariant |
| Worker.TablesChangeOnlyByTheirCommand | build.py:987-1103 | only a trade adds an order (exactly the broker id, which becomes the last order id); only a cancel removes one (exactly its id); only a close removes a position; nothing adds a position |
| Worker.TradeWhileDisconnected | build.py:1045-1046 | a trade while disconnected records "IBKR not connected", clears the order id, and makes no order and no brokerage call |
| Worker.TradeWithoutContract | build.py:1058-1061 | a trade whose contract does not qualify records the not-found message, and qualification is its only brokerage call |
| Worker.TradeSucceeds | build.py:1063-1073 | a placed trade adds exactly its id with a BUY limit order of the requested quantity and price, keeps the error, and calls qualify then place |
| Worker.ReconnectTearsDownOnce | build.py:1012-1017 | reconnecting while live disconnects the old session exactly once, before opening a session distinct from every one used before |
| Worker.CancelIdempotent | build.py:1087-1095 | cancelling an unknown order is a no-op, and cancelling the same order twice equals cancelling it once |
| Worker.RunPreservesInv | build.py:987-1004 | draining any queue keeps the worker invariant |
| Worker.RunAppend | build.py:987-1004 | draining two batches in turn is draining their concatenation (FIFO) |
| Worker.RunExtendsCalls | build.py:987-1004 | brokerage calls are only ever appended |
| Worker.RunNeverAddsPositions | build.py:921 | the position table never gains a key, and from the initial state it stays empty |
| Worker.ConnectThenTrade | build.py:987-1004 | a connect queued before a trade runs first, so a successful connect lets the trade reach the broker through the new session |
| Gateway.ExecuteTradeReply | build.py:1156-1169 | success if and only if no (non-empty) error and a non-zero order id; success carries that id with code 200; failures are code 500; a recorded error is the message |
| Gateway.ConnectReply | build.py:1246-1250 | success if and only if connected; otherwise code 500 with the recorded error, or "Connection failed" when the error is empty |
| Gateway.TradeReplyReflectsOutcome | build.py:1141-1169 | when its own trade is the only command handled before the reply, the reply succeeds if and only if an order was placed under a non-zero id; a non-matching contract gives the not-found message; an order placed under id 0 is reported as failed although it is in the table |
| Gateway.ConnectReplyReflectsOutcome | build.py:1229-1250 | when its own connect is the command handled, the reply succeeds if and only if the new session opened; otherwise it carries the connect's message or "Connection failed" |
| Gateway.ForeignErrorReachesTradeReply | build.py:1156-1157 | an error recorded by a connect that another caller queued reaches a trade reply, although the trade's order is in the table |
| OptionChain.Sort | build.py:1275-1276 | the result is sorted and a permutation of the input |
| OptionChain.TakeSortedIsSmallest | build.py:1275 | the first n of a sorted list are sorted, come from it, and are no larger than anything left out |
| OptionChain.ExpirationsAreTheEarliest | build.py:1275 | at most 10 expirations, sorted, taken from the chain, and none left out precedes one shown |
| OptionChain.NearStrikes | build.py:1281 | every strike kept is within $50 of the price, and each strike appears exactly as often as in the input when near and not at all otherwise |
| OptionChain.NearStrikesOfPermutation | build.py:1276-1281 | filtering the sorted list keeps the same near strikes, in the same numbers, as filtering the original |
| OptionChain.StrikesShown | build.py:1276-1284 | at most 20 strikes, sorted, taken from the chain; with a known price every one is within $50 of it, as many are shown as there are near strikes up to 20, and they are the lowest such strikes; without one they are the lowest 20 |
| OptionChain.ChainReplyFor | build.py:1255-1297 | not connected gives 400; a raising brokerage call gives 500 with its message; no chains gives 404; success if and only if connected with at least one chain, and then the reply holds the first chain's expirations and strikes as selected by `Expirations` and `Strikes` (bounded and sorted) and its exchange |
| Suite.TradingSuite.constructor | build.py:912-926 | no session, not connected, no error, no order id, empty tables, empty queue, no price |
| Suite.TradingSuite.IbConnect | build.py:1008-1029 | the fields change exactly as `Worker.Connect` says, and the invariant is kept |
| Suite.TradingSuite.IbDisconnect | build.py:1031-1039 | the fields change exactly as `Worker.Disconnect` says |
| Suite.TradingSuite.IbExecuteTrade | build.py:1041-1085 | the fields change exactly as `Worker.ExecuteTrade` says |
| Suite.TradingSuite.IbCancelOrder | build.py:1087-1095 | the fields change exactly as `Worker.CancelOrder` says |
| Suite.TradingSuite.IbClosePosition | build.py:1097-1103 | the fields change exactly as `Worker.ClosePosition` says |
| Suite.TradingSuite.Step | build.py:987-1004 | takes a command if and only if the queue is non-empty; pops the oldest and applies it (an unknown kind changes nothing); an empty queue changes nothing |
| Suite.TradingSuite.Drain | build.py:982-1004 | handling n commands leaves the fields as `Worker.Run` over the oldest n and the queue as the rest |
| Suite.TradingSuite.ExecuteTradeRequest | build.py:1137-1171 | when not connected, it refuses with 400 and queues nothing; otherwise it clears error and order id, queues the trade behind earlier commands, and replies by `ExecuteTradeReply` on the fields after the worker's turn |
| Suite.TradingSuite.ConnectRequest | build.py:1229-1250 | it queues a connect with defaults 127.0.0.1, 7497 and client 1, and replies by `ConnectReply` on the fields after the worker's turn |
| Suite.TradingSuite.CancelRequest | build.py:1174-1178 | it queues the cancel and always replies "Order cancelled" |
| Suite.TradingSuite.CloseRequest | build.py:1220-1224 | it queues the close and always replies "Position closed" |
| Suite.TradingSuite.DisconnectRequest | build.py:1339-1342 | it queues the disconnect and always replies "Disconnected" |
| Suite.TradingSuite.UpdatePriceRequest | build.py:1125-1132 | the price is stored only when present and non-zero; the reply is success |
| Suite.TradingSuite.OptionChainRequest | build.py:1255-1297 | when not connected it replies 400 and calls nothing; otherwise it calls the brokerage through the current session (qualify the stock, then the option parameters unless that raised); a raise gives 500, no chain gives 404, and success holds exactly when a chain came back, with the first chain's selection filtered by the stored price; the worker invariant is kept |

## Left out

- The page's DOM is not modelled: HTML, CSS, `innerHTML`, `alert`, the TradingView widget and the `fetch` calls. The model keeps only the values the ladder functions compute.
- Reading the underlying price from the chart's page text is not modelled (the regex scraping and the 140–160 plausibility window), and neither is the manual input box. `Page.UpdatePrice` takes the price as a parameter.
- JavaScript floating point and `toFixed(2)` / `round` display rounding are not modelled. Prices are exact cents or exact reals. `NeedsRerender` and the at-the-money test are therefore exact comparisons.
- `Page.SelectLadder` requires that the clicked index is one of the displayed rows. The page only offers those indices as buttons.
- The worker thread, its event loop, the one-second queue timeout and the handlers' `time.sleep` waits are not modelled as concurrency. The wait is modelled as the worker handling a given number of queued commands (`worked`) before the handler reads the fields. Commands queued by other callers during the wait are not interleaved beyond what is already in the queue.
- The brokerage library (`IB()`, `connect`, `isConnected`, `qualifyContracts`, `placeOrder`, `cancelOrder`, `reqSecDefOptParams`) is replaced by the `Answers` and `ChainAnswer` inputs.
- An exception re-raised by `_ib_execute_trade` is caught by the worker loop. That loop stores the same message again, so the model records it once.
- The option-chain handler calls the brokerage from the request's thread while the worker may be using the same session. The model appends those calls at the moment the handler runs and does not interleave them with the worker's calls.
- OptionChain.ChainReplyFor: the reply's `current_spy_price` echo and its summary message text are not modelled.
- Logging, configuration loading, the local-IP lookup, Flask routing, `run` and `main` are not modelled.
- Requests whose JSON body is missing or malformed reach the handlers' generic `except` (500 with the exception text). They are not modelled.
- The routes `/api/status`, `/api/get_orders` and `/api/verify_contract`, and the page's cancel / close buttons and connection form, are not part of this model.
- Gateway.ExecuteTradeReply: the success message is the constant "Order placed". The quantity and price that the source formats into it are left out.
- Worker.ExecuteTrade: strike, price and expiry are carried as the text they print as. The option contract object built from them is not modelled beyond that text.
