# Bybit BTCUSDT ticker bot — a Dafny model

This project models the part of the Bybit trading bot that holds state: the
handler that streams `tickers.BTCUSDT` updates. It also models the small
deterministic pieces around that handler. Both versions of the bot class are
covered:

- `src/bybit_trading_bot.py` is the current bot (module `BybitBot`). It keeps
  the latest ticker in a dictionary. It merges every non-empty delta frame
  into that dictionary with `dict.update`. It prints a block only when the
  delta carries `lastPrice`, `indexPrice` or `price24hPcnt`. The fields are
  rendered inside a single `try`, so the first field that does not parse ends
  the field lines.
- `trading_bot.py` is the older bot (module `LegacyBot`). It keeps no state.
  It prints the same eight raw lines for every non-empty ticker frame.

Modules:

- `TickerStore` (`ticker_store.dfy`): the stored ticker as `map<string,string>`, the `update` merge, the significance gate, and folds of merges.
- `Messages` (`messages.dfy`): decoded frames, the receive-loop events, frame dispatch and the abstract console lines.
- `Exchange` (`exchange.dfy`): the two websocket endpoints, Python truthiness, the HTTP session the constructor builds, and the credential guard of `place_order`.
- `BybitBot` (`bybit_bot.dfy`): the current constructor, rendering, the handler step, the receive loop as a fold, and the loop as a method.
- `LegacyBot` (`legacy_bot.dfy`): the older constructor, the stateless handler, and lemmas that contrast it with the current bot.

The receive loop is a fold over a sequence of `Inbound` events:

- `Message(frame)` is a decoded JSON object.
- `Malformed` is a message that is not a JSON object.
- `Dropped` is a transport fault.

Either fault prints the one `WebSocket error` line and ends the loop.
Reaching the end of the sequence stands for the stream closing normally.

Float parsing is a parameter, `parses: string -> bool`. An output line is an
abstract token, for example `Field(name, raw)`, and not formatted text.

Facts about the code that shape the model:

- The constructor reads `BYBIT_API_KEY`, `BYBIT_API_SECRET` and `BYBIT_TESTNET` (src/bybit_trading_bot.py:13-15).
- `latest_ticker` is created in `__init__` (line 19) and outlives one call of `subscribe_to_bitcoin_ticker`, so `Run` takes it as a parameter.
- `update` returns nothing; the gate tests the partial's own keys (line 54).

## Model

| member | source | states |
|---|---|---|
| TickerStore.Merge | src/bybit_trading_bot.py:51 | every key of the partial maps to the partial's value; every other stored key keeps its value; the key set is exactly the union, so nothing is removed |
| TickerStore.MergeIdempotent | src/bybit_trading_bot.py:51 | merging the same partial twice in a row gives the same store as merging it once |
| TickerStore.MergeEmpty | src/bybit_trading_bot.py:49-51 | an empty partial leaves the store unchanged |
| TickerStore.Lookup | src/bybit_trading_bot.py:56-73 | `dict.get`: a value is returned iff the key is stored, and it is the stored value |
| TickerStore.IsSignificant | src/bybit_trading_bot.py:54 | the gate holds iff the partial's key set meets {lastPrice, indexPrice, price24hPcnt} |
| TickerStore.MergeAll | src/bybit_trading_bot.py:44-51 | across any sequence of merges the stored key set only grows |
| TickerStore.MergeAllLatestWins | src/bybit_trading_bot.py:44-51 | after a sequence of merges a key holds the value of the latest partial that carried it |
| TickerStore.MergeAllUntouched | src/bybit_trading_bot.py:44-51 | a key no partial carries is present afterwards iff it was before, with its old value |
| Messages.Classify | src/bybit_trading_bot.py:47-84 | dispatch: the topic test wins over `success`; a matching frame with missing, null or empty data is an empty ticker; an ack is a non-matching frame with truthy `success` |
| Exchange.Endpoint | src/bybit_trading_bot.py:16 | the URL is the testnet URL iff the flag is true, and the production URL iff it is false |
| Exchange.MakeConfig | src/bybit_trading_bot.py:16-28 | the endpoint follows the flag; the HTTP session is authenticated, with the bot's key and secret, iff both are truthy |
| Exchange.PlaceOrder | src/bybit_trading_bot.py:91-102 | refuses without calling the session iff the key or the secret is missing or empty; otherwise sends one `linear` order call with the request's fields through the bot's session |
| Exchange.SentOnlyWhenAuthenticated | src/bybit_trading_bot.py:21-28 | an order is sent exactly when the constructor built an authenticated session |
| BybitBot.OrElse | src/bybit_trading_bot.py:13-14 | `a or b`: a truthy first value is kept, otherwise the second is taken; the result is truthy iff either is |
| BybitBot.EffectiveTestnet | src/bybit_trading_bot.py:15 | an explicit argument wins; an unset environment value means testnet; otherwise testnet iff the value spells "true" in any mix of case |
| BybitBot.Configure | src/bybit_trading_bot.py:12-28 | truthy arguments win over the environment; the endpoint is the testnet URL iff the effective flag is true; the session is authenticated iff both resolved credentials are truthy |
| BybitBot.PlaceOrderGuard | src/bybit_trading_bot.py:91-93 | `place_order` refuses iff neither argument nor environment supplies a truthy key, or likewise a secret |
| BybitBot.RenderFields | src/bybit_trading_bot.py:60-79 | field lines show stored, truthy, parsing values of the listed fields; only the last line can be an error line, and it carries a value that does not parse |
| BybitBot.RenderAllParse | src/bybit_trading_bot.py:60-77 | when every truthy field parses, the lines are exactly the truthy fields, in the fixed order, with their stored values |
| BybitBot.RenderStopsAtFirstFailure | src/bybit_trading_bot.py:60-79 | when field j is the first truthy field that does not parse, the lines are the truthy fields before j, then exactly one error line, and nothing after it |
| BybitBot.RenderBlock | src/bybit_trading_bot.py:55-81 | a block starts with the header and the symbol line (BTCUSDT when no symbol is stored) and ends with the separator, even after an error; between them are only display-field lines and at most one final error line; lastPrice is never rendered |
| BybitBot.Step | src/bybit_trading_bot.py:47-84 | no key is lost; a non-empty ticker partial is merged; other frames leave the store alone; lines appear iff (ticker update and significant) or (other topic and truthy success); a ticker frame never prints the ack; a non-ticker frame prints only the ack or nothing |
| BybitBot.EmptyTickerIsNoOp | src/bybit_trading_bot.py:47-49 | a matching frame whose data is missing, null or empty changes nothing and prints nothing |
| BybitBot.QuietPartialUpdatesSilently | src/bybit_trading_bot.py:51-54 | a partial holding only volume, high or low fields updates the store and prints nothing |
| BybitBot.SignificantRendersMergedStore | src/bybit_trading_bot.py:51-58 | a significant partial prints the block of the merged store, so omitted fields show their earlier values |
| BybitBot.MalformedChangeScenario | src/bybit_trading_bot.py:60-81 | with an unparsable change, the volume line is not printed: the block is header, default symbol, one error line, separator |
| BybitBot.BuildUpScenario | src/bybit_trading_bot.py:51-81 | symbol plus last price prints a block with no field lines; a later index price and change print both, under the stored symbol |
| BybitBot.Connect | src/bybit_trading_bot.py:33-41 | a successful connection keeps the bot's stored ticker, runs the loop and prints the subscription line; a failed one prints only the error line and ends |
| BybitBot.Receive | src/bybit_trading_bot.py:44-87 | a decoded frame takes exactly the store and the lines `Step` gives, and the loop keeps running even after a format error; a fault appends one error line and ends the loop without touching the store; an ended loop is inert |
| BybitBot.ReceiveAll | src/bybit_trading_bot.py:44-87 | across a stream the key set only grows, earlier output is never changed, and an ended loop stays as it is |
| BybitBot.Run | src/bybit_trading_bot.py:30-87 | no stored key is lost; the first line is the subscription line, or the error line when the connection failed, in which case nothing else happens |
| BybitBot.TickerPartials | src/bybit_trading_bot.py:47-51 | every collected partial is non-empty and is the data of some decoded ticker frame of the stream |
| BybitBot.RunTraceIsHandled | src/bybit_trading_bot.py:44-84 | with no fault, the output is the subscription line followed by each frame's own `Step` lines, the store carried from frame to frame |
| BybitBot.HandledSilentIff | src/bybit_trading_bot.py:47-84 | handling a stream prints nothing iff no frame is a significant ticker update or an acknowledgement |
| BybitBot.RunSilentIff | src/bybit_trading_bot.py:44-84 | with no fault, the loop prints nothing beyond the subscription line iff every frame fails the gate and is no acknowledgement |
| BybitBot.RunOpenIff | src/bybit_trading_bot.py:32-87 | the loop is still running iff it connected and every message decoded |
| BybitBot.RunStateIsMergedPartials | src/bybit_trading_bot.py:44-51 | with no fault, the final store is the earlier store with every non-empty ticker partial merged in, in arrival order |
| BybitBot.StopsAtFault | src/bybit_trading_bot.py:44-87 | messages after the first fault change nothing, and the loop has ended |
| BybitBot.SocketErrorIsLast | src/bybit_trading_bot.py:86-87 | while running no error line was printed; once ended, the error line is the single, last one |
| BybitBot.RunKeepsLatestValue | src/bybit_trading_bot.py:18-51 | each stored field holds the value of the latest ticker frame that carried it, however many frames since omitted it |
| BybitBot.ConsumeStream | src/bybit_trading_bot.py:30-87 | the loop as written computes the fold `Run`, never drops a stored key, and ends running only if every message decoded |
| LegacyBot.Configure | trading_bot.py:8-21 | credentials are taken as given; the endpoint is the testnet URL iff `testnet`; the session is authenticated iff key and secret are truthy |
| LegacyBot.DefaultsToTestnetMarketData | trading_bot.py:8-12 | a bot built with no arguments uses the testnet URL and refuses orders |
| LegacyBot.PlaceOrderGuard | trading_bot.py:59-61 | `place_order` refuses iff key or secret is missing or empty |
| LegacyBot.Block | trading_bot.py:43-50 | the block is always header, symbol, last price, change, volume, high, low, separator; each field shows the frame's value, or None iff absent |
| LegacyBot.Step | trading_bot.py:40-52 | every non-empty ticker frame prints the full block whatever keys it has; lines appear iff ticker update or (other topic and truthy success); a ticker frame never prints the ack |
| LegacyBot.Connect | trading_bot.py:26-34 | a successful connection runs the loop and prints the subscription line; a failed one prints only the error line and ends |
| LegacyBot.Receive | trading_bot.py:37-55 | a decoded frame appends exactly that frame's lines and keeps the loop running; a fault appends one error line and ends it; an ended loop is inert |
| LegacyBot.ReceiveAll | trading_bot.py:37-55 | across a stream earlier output is never changed, and an ended loop stays as it is |
| LegacyBot.Run | trading_bot.py:25-55 | the first line is the subscription line, or the error line when the connection failed, in which case nothing else happens |
| LegacyBot.RunIsStateless | trading_bot.py:37-52 | with no fault, the trace is the subscription line followed by what each frame prints on its own |
| LegacyBot.HistoryIndependent | trading_bot.py:40-50 | two running sessions with any histories print the same lines for the same frame |
| LegacyBot.CarriedStateContrast | trading_bot.py:41-49 | for a change sent earlier and then omitted, the current bot prints the remembered change and the older bot prints None |
| LegacyBot.GateContrast | trading_bot.py:40-50 | a volume-only partial prints the full eight lines here and nothing in the current bot |

## Left out

- Websocket connect, send and receive, and the asyncio loop: I/O. The loop is a fold over `Inbound` events. Connection success is a boolean parameter of `Run`.
- JSON decoding: frames arrive decoded. A payload that is not a JSON object is the `Malformed` event, which ends the loop like the outer `except`.
- Ticker values that are not strings: stored values are strings, so the `TypeError` branch of the render `try` never arises.
- A `data` value that is not an object. A falsy one (`[]`, `0`, `""`, `false`) is skipped by `if ticker_data:` and the loop goes on; the model writes it as a frame with `data` None, which is an `EmptyTicker`. In the current bot, a truthy value that `dict.update` cannot take (a number, a string, a list of elements that are not pairs) raises outside the render `try` and ends the loop through the outer `except`; the model writes it as the `Malformed` event.
- A `data` value that is a truthy list of key/value pairs, such as `[["lastPrice", "1"]]`: the current bot's `dict.update` accepts it and merges the pairs, and the gate then tests membership in the list, not in its keys, so the frame updates the store silently. The model has no such frame. The older bot raises on any truthy list (`.get` on a list, trading_bot.py:44), which is the `Malformed` event.
- Float parsing and the `:,.2f` and `%` formatting: floating point. Parsing is the parameter `parses`. Lines are abstract tokens that carry the raw value.
- The body of the `pybit` HTTP session and the success and exception paths of `place_order` after the call: foreign library code. `OrderAttempt.Sent` marks where the call happens.
- `load_dotenv` and `os.getenv`: environment reads. The values are the parameter `BybitBot.Env`.
- `main.py` and `main()` in `trading_bot.py`: the entry point and the KeyboardInterrupt message. They contain no logic.
- BybitBot.Lower: lowers ASCII letters only. Python's `str.lower()` also maps non-ASCII letters, which are not modelled.
- TickerStore.MergeAll: its own contract states only that keys are never lost. MergeAllLatestWins and MergeAllUntouched state the values.
- BybitBot.ReceiveAll: its own contract states only that keys are kept, output is only appended and an ended loop is inert. RunTraceIsHandled and RunStateIsMergedPartials state what a fault-free stream produces.
