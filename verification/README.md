# Bloop tracker: position lifecycle and P&L, in Dafny

A model of the signal-processing core of the Bloop tracker webhook server.
The server receives directional signals from a charting alert. Every signal is
appended to a signal log. `LONG` and `SHORT` signals then drive a single open
position:

- with no position, a signal opens one;
- a signal in the held direction changes nothing;
- a signal in the other direction closes the position and opens one the other
  way at the same price and instant.

Closing records a trade carrying gross points, percent of the entry price and
whole-second duration. The statistics endpoint aggregates the log and the
ledger: counts, total, average, best and worst points, winners and win rate.

Storage is abstracted. The signal log and the trade ledger are append-only
sequences, and the single-row position table is an `Option<Position>`. Because
the position is an `Option`, "at most one open position" holds by
construction. Prices are Dafny `real`, which is exact rational arithmetic.
Instants are integer microseconds: that is the resolution of the timestamps
the server writes, and it lets the model state the truncation toward zero that
`int(total_seconds())` performs.

Modules, one per concern:

- `Wrappers`: `Option` and `Result`.
- `Domain`: directions, payloads, signal records, positions, trades, errors.
- `Normalise`: upper-casing the signal and filling in defaults.
- `PnL`: gross points, percent, duration, building the trade record.
- `Tracker`: the store, reading and writing the position, closing it, and the
  per-signal transition rule. It also holds the consistency invariant.
- `Stats`: aggregate figures.
- `Server`: the webhook request and the statistics report.
- `History`: sequences of signals and what the resulting store is determined by.

Two behaviours of the server are worth knowing:

- The server keeps a single position row for all instruments. A signal's
  symbol only labels the position it opens (`History.SymbolOnlyLabels`).
- An entry price of zero is not rejected. A signal without a price opens a
  position at 0. Every later opposite signal is logged and then fails on the
  percent division, so that position can never be closed
  (`History.ZeroEntryIsStuck`). The trade-counting properties therefore
  assume that every signal that opens a position carries a nonzero price. A
  repeat of the held direction may carry any price, since it opens nothing.

## Model

| member | source | states |
|---|---|---|
| Domain.ParseDirection | webhook_server.py:159 | only the exact tokens "LONG" and "SHORT" are tradable; a parsed direction prints back as the token it came from |
| Normalise.Upper | webhook_server.py:139 | the signal token is upper-cased letter by letter with its length kept |
| Normalise.TradableIgnoresCase | webhook_server.py:139-159 | a signal is tradable in a direction exactly when its token spells that direction in any letter case |
| Normalise.DefaultSignalNotTradable | webhook_server.py:139 | a payload with no signal key gets the "UNKNOWN" token, which is never tradable |
| Normalise.ReadPrice | webhook_server.py:140 | a missing price reads as 0, a numeric one as itself, and a non-numeric one fails the request |
| Normalise.NormaliseSignal | webhook_server.py:131-143 | a body that is not an object fails, and so does an object whose price is not numeric; otherwise the logged record holds the upper-cased signal (default "UNKNOWN"), the price (default 0), the symbol (default "USTEC"), the timeframe (default "1m"), the arrival instant and the payload |
| PnL.GrossPoints | webhook_server.py:92-95 | points are positive exactly when the price moved the position's way (up for a long, down for a short), negative exactly when it moved against it, zero exactly when exit equals entry |
| PnL.GrossPointsAntisymmetric | webhook_server.py:92-95 | a long and a short over the same prices win exactly what the other loses |
| PnL.Percent | webhook_server.py:97 | percent times entry price is points times 100, defined only for a nonzero entry price; for a positive entry it has the sign of the points |
| PnL.DurationSeconds | webhook_server.py:100-102 | the duration is the elapsed whole seconds truncated toward zero: bounded by the elapsed time on both sides and of its sign, also when exit precedes entry |
| PnL.DurationZeroUnderOneSecond | webhook_server.py:102 | the duration is zero exactly when less than one second elapsed in either direction |
| PnL.CloseTrade | webhook_server.py:91-111 | a close fails exactly when the entry price is zero; otherwise the trade copies the position's symbol, direction, entry time and entry price, takes the given exit, and carries the figures those determine |
| PnL.RealisedSign | webhook_server.py:92-97 | a recorded trade made points exactly when the price moved its way and lost exactly when it moved against it; with a positive entry its percent has the sign of its points |
| Tracker.GetOpenPositionReadsBack | webhook_server.py:67-74 | reading the position row gives exactly the position last written, and nothing on a fresh store or after a close |
| Tracker.SetOpenPosition | webhook_server.py:76-83 | writing the position replaces whatever row was there, reads back as exactly the written position, and leaves the log and ledger untouched |
| Tracker.ClosePosition | webhook_server.py:85-124 | with no position nothing is written and no trade returned; a zero entry price raises before anything is written; otherwise exactly one trade built from the position is appended and the position is deleted |
| Tracker.Ingest | webhook_server.py:147-166 | every signal is logged first; a non-tradable or same-direction signal leaves ledger and position alone; with no position one is opened at the signal's direction, price, time and symbol; an opposite signal appends exactly one trade from the old position and opens the new one, or fails and changes nothing if the entry price was zero |
| Tracker.IngestPreservesConsistent | webhook_server.py:155-166 | each signal keeps the store consistent: trades exist only while a position is open, every trade's figures are those of its entry and exit, each trade opens where and when the previous one closed in the other direction, and the open position continues the last trade likewise |
| Stats.CountSignal | webhook_server.py:240-247 | the count of a token is at most the log's length, zero exactly when no record has it, full exactly when every record has it |
| Stats.LongsAndShortsWithinTotal | webhook_server.py:243-247 | longs plus shorts never exceed the total signal count |
| Stats.Winners | webhook_server.py:254 | winners are at most the trades, zero exactly when no trade has positive points, all exactly when every trade does |
| Stats.TotalPnl | webhook_server.py:252 | the ledger total is 0 for an empty ledger, positive when every trade won, and never positive when no trade won |
| Stats.TotalPnlAppend | webhook_server.py:171 | the total over two stretches of the ledger is the sum of their totals, so appending a trade adds exactly its points |
| Stats.WinRate | webhook_server.py:266 | win rate is 0 with no trades, otherwise the number that times the trade count gives 100 times the winners |
| Stats.WinRateBounds | webhook_server.py:254-266 | the win rate lies in [0, 100], is 0 exactly when no trade has positive points, and 100 exactly when the ledger is non-empty and every trade has positive points |
| Stats.AveragePnl | webhook_server.py:253 | the average is 0 with no trades, otherwise the number that times the trade count gives the total |
| Stats.BestTrade | webhook_server.py:255 | the best trade is absent exactly for an empty ledger, otherwise it is at least every trade's points and equal to one of them |
| Stats.WorstTrade | webhook_server.py:256 | the worst trade is absent exactly for an empty ledger, otherwise it is at most every trade's points and equal to one of them |
| Server.Webhook | webhook_server.py:131-200 | a body that is not an object or a non-numeric price fails the request with that error and nothing written; a zero entry price fails the request with the zero-entry error after the signal is logged; otherwise the signal is appended exactly once before the position rule, and a successful answer reports the signal, its price, the trade it closed (exactly the one appended, if any), the signal and trade counts after it, and a P&L total that grew by exactly the closed trade's points |
| Server.StatsReport | webhook_server.py:233-280 | longs and shorts are the exact-match counts of the log; winners, win rate, total, average, best and worst are those of the ledger (best and worst 0 when it is empty); every figure is zero over an empty ledger; longs plus shorts stay within the signal total; win rate lies in [0, 100] and is 100 exactly when every trade won; best and worst bound every trade |
| History.RunLogsEverySignal | webhook_server.py:147-153 | after any history the signal log is the old log followed by every signal in arrival order |
| History.RunPreservesConsistent | webhook_server.py:155-166 | any history keeps the store consistent, so the ledger is one alternating chain of trades that ends at the open position |
| History.RunCountsChanges | webhook_server.py:159-166 | when the held position and every signal that opens a position (the first tradable one when none is held, and each that reverses the last direction) have a nonzero price, a history adds exactly one trade per direction change among the held direction and the tradable signals, and leaves the position in the last of those directions, or absent if there were none |
| History.RunFromEmpty | webhook_server.py:159-166 | from an empty store, when every signal that opens a position (the first tradable one, and each that reverses direction) has a nonzero price, the store stays consistent, the log is the signals in order, trades equal the direction changes among tradable signals, and the final position has the last tradable direction or is absent when no tradable signal came |
| History.ZeroEntryIsStuck | webhook_server.py:97 | once a position is open at price zero, no later history changes it or records a trade |
| History.StatsCountTradables | webhook_server.py:243-247 | the long and short counts together count exactly the tradable signals |
| History.SymbolOnlyLabels | webhook_server.py:161-166 | the symbol a signal names does not affect which trade it closes, what it answers, or the direction of the position it leaves |
| History.UnpricedRepeatScenario | webhook_server.py:159-166 | LONG@100, a LONG with no price, then SHORT@110 meet the opening-price hypothesis and record one trade for their one direction change |
| History.ReversalScenario | webhook_server.py:155-166 | LONG@100, LONG@105, SHORT@110, SHORT@90 one minute apart record one long trade of 10 points (10%) lasting 120 seconds and leave a short open at 110 |

## Left out

- HTTP routing, JSON and raw-text body parsing, and response serialisation are not modelled. A decoded body is either an object, modelled as a `Payload` with optional fields, or `NotAnObject`. A non-JSON body is a payload with none of the modelled keys. Other keys of the body are not modelled.
- A `signal`, `symbol` or `timeframe` value that is not a string is not modelled: the payload fields are typed strings. The server fails such a request before logging it when the value is a non-string signal (it has no `upper`), or a list or object symbol or timeframe (the log insert cannot bind it). A number or null symbol or timeframe is logged as it is.
- `Normalise.Upper` maps only the ASCII letters. Python's `upper()` also maps other scripts and can change a string's length.
- `Normalise.ReadPrice` takes any price that reads as a number as an exact real. The rounding, infinities and NaN of IEEE doubles are left out.
- SQLite connections, SQL text, table creation and the `LIMIT 100` listing endpoints are replaced by sequences and an `Option`.
- The clock (`utcnow`) becomes the `now` parameter of `Server.Webhook`. ISO-8601 formatting and parsing become integer microseconds, which round-trip exactly.
- `PnL.DurationSeconds` uses the exact elapsed microseconds. The float rounding inside `total_seconds()` for spans longer than a few hundred years is not modelled.
- `print` logging, emoji and traceback output are side effects only and are not modelled.
- The display rounding `round(..., 1)` and `round(..., 2)` of the statistics are not modelled. `Server.StatsReport` reports exact figures.
- `Server.Webhook` answers with the whole closed trade. The server answers with six of its fields: direction, entry and exit price, points, percent and duration.
- History.RunCountsChanges: says nothing about a history in which a signal that opens a position has price zero; `History.ZeroEntryIsStuck` states what the server does then.
- History.RunFromEmpty: the same opening-price hypothesis as `History.RunCountsChanges`, for the same reason.
- Concurrency between simultaneous requests is not modelled. Each request is one atomic step in arrival order.
- Spread cost, net P&L, enrichment fields, running price extremes and bulk recalculation are not part of this model: the modelled server has none of them.
- The health, index, signal-list, trade-list and position endpoints only read and format stored data; they are not modelled.
