# QuantEdge — a verified model of the market-data core

QuantEdge is a React Native app for the Indian equity market with a small
FastAPI quote service behind it. This project models, in Dafny, the parts of
it that follow exact rules:

- the client's quote refresh cycle (`useLivePrices`): the 83-instrument
  catalogue is split into chunks of 30 symbols, one `/bulk` request per chunk
  is made in turn, and the answers are folded into one price map that is
  joined onto the static catalogue;
- the quote service (`main.py`): the symbol map, the five-minute cache with
  its `timedelta.seconds` comparison, the parsing and cache key of `/bulk`,
  and the `/price`, `/bulk`, `/all` and `/symbols` endpoints;
- the watchlist kept by `App.js` (at most 15 distinct symbols) and the lookup
  of the selected stock in the live list;
- the search and sector filters of the Markets and Watchlist screens;
- the Options screen: ATM strike, the nine-strike ladder, max pain, the
  BUY/WAIT labels and the option values computed for a strike and expiry;
- the exact parts of the analytics helpers in `stocks.js`: `SECTORS`, the
  shape of the normal-CDF approximation, the Black–Scholes and Greeks guards,
  and the simulated forecast of `runPrediction`.

The network, the clock, `Math.random()` and the transcendental functions
are inputs of the model. Each chunk request's outcome is `Ok(map)` or
`Fail`. Yahoo Finance is a function from ticker to an optional snapshot.
Random draws are reals in [0, 1). `exp`, `log` and `sqrt` are a record of
three real functions. Prices are reals. `Math.round(x)` is
`floor(x + 1/2)`.

A refresh cycle is all-or-nothing. The first failed chunk abandons the
cycle: the previous prices and time stamp stay, and the status becomes
error. A fully successful cycle replaces the price map outright. Nothing
stops two cycles from overlapping.

Modules: `Seqs` (filter, find, de-duplication, concatenation), `Text`
(case mapping, `includes`, `strip`, `split`/`join`, string sorting),
`Numeric`, `Market` (catalogue and records), `LivePrices`, `Backend`,
`Watchlist`, `Screens`, `Pricing`, `Prediction` and `Options`.

## Model

| member | source | states |
|---|---|---|
| Seqs.Distinct | QuantEdgeApp/src/utils/stocks.js:106 | `[...new Set(xs)]` has no duplicates and holds exactly the elements of `xs` |
| Seqs.DistinctFirstAppearanceOrder | QuantEdgeApp/src/utils/stocks.js:106 | the de-duplicated elements come in the order of their first appearance |
| Seqs.Find | QuantEdgeApp/App.js:67 | `find` gives nothing iff no element matches, else a matching element with no match before it |
| Seqs.Filter | QuantEdgeApp/src/screens/MarketsScreen.js:13 | `filter` keeps exactly the elements of the input that pass the test, and never lengthens the list |
| Seqs.FilterCount | QuantEdgeApp/src/screens/MarketsScreen.js:13 | `filter` keeps every copy of an element that passes and none of one that fails |
| Seqs.FilterMonotone | QuantEdgeApp/src/screens/MarketsScreen.js:13-17 | filtering with a weaker test keeps a superset, in the same order |
| Text.Strip | QuantEdgeApp/quantedge-backend/main.py:184 | `strip()` is the piece with only its leading and trailing whitespace removed: a contiguous slice whose surroundings are all whitespace and whose ends are not, empty iff the piece is all whitespace |
| Text.JoinSplit | QuantEdgeApp/quantedge-backend/main.py:184 | joining the pieces of `split(",")` gives back the request string |
| Text.SplitJoin | QuantEdgeApp/quantedge-backend/main.py:185 | splitting a join of separator-free pieces gives back the pieces |
| Text.Sort | QuantEdgeApp/quantedge-backend/main.py:185 | `sorted()` on strings returns a code-point-ordered permutation of its input |
| Text.SortOrderIndependent | QuantEdgeApp/quantedge-backend/main.py:185 | `sorted()` depends only on the multiset of its input |
| Market.Sectors | QuantEdgeApp/src/utils/stocks.js:106 | `SECTORS` is "All" then each catalogue sector once, and nothing else |
| Market.SectorsInFirstAppearanceOrder | QuantEdgeApp/src/utils/stocks.js:106 | the sectors after "All" follow the catalogue's first-appearance order |
| Market.StockListShape | QuantEdgeApp/src/utils/stocks.js:5-104 | the catalogue `STOCK_LIST` holds 83 instruments |
| Market.Symbols | QuantEdgeApp/src/hooks/useLivePrices.js:15 | `STOCK_LIST.map(s => s.sym)`: one symbol per instrument, in catalogue order |
| LivePrices.ChunkCount | QuantEdgeApp/src/hooks/useLivePrices.js:21-22 | the number of 30-symbol chunks is the least count that covers n symbols (ceil(n/30)) |
| LivePrices.SplitIntoChunks | QuantEdgeApp/src/hooks/useLivePrices.js:20-23 | the chunks concatenate back to the symbols; there are ceil(n/30) of them, each of 1 to 30 symbols, all but the last of exactly 30 |
| LivePrices.MergeAll | QuantEdgeApp/src/hooks/useLivePrices.js:24-35 | folding no chunks gives the empty map; after a fold every key of the last chunk carries that chunk's value |
| LivePrices.CatalogueTakesThreeChunks | QuantEdgeApp/src/hooks/useLivePrices.js:21-22 | the 83-instrument catalogue takes three requests per cycle |
| LivePrices.MergeAllLookup | QuantEdgeApp/src/hooks/useLivePrices.js:25-35 | in the folded map a key carries the value of the last chunk that returned it |
| LivePrices.MergeAllKeys | QuantEdgeApp/src/hooks/useLivePrices.js:34 | the folded map's keys are exactly the keys some chunk returned |
| LivePrices.SuccessReplacesPrices | QuantEdgeApp/src/hooks/useLivePrices.js:36 | after a successful cycle a symbol is priced iff this cycle's answers contained it; older prices are not kept |
| LivePrices.LiveView | QuantEdgeApp/src/hooks/useLivePrices.js:54-59 | one row per catalogue entry in order, static fields kept, live fields from the quote or 0/0/0 |
| LivePrices.PriceFeed.Stocks | QuantEdgeApp/src/hooks/useLivePrices.js:54-59 | one row per catalogue entry in order, its price, percentage and absolute change from the current price map or all 0 |
| LivePrices.PriceFeed.constructor | QuantEdgeApp/src/hooks/useLivePrices.js:9-12 | initial state: no prices, connecting, never updated, not refreshing |
| LivePrices.PriceFeed.FetchPrices | QuantEdgeApp/src/hooks/useLivePrices.js:17-45 | a cycle always ends not refreshing; all chunks ok: prices replaced by the fold, live, time stamped; any failure: prices and time kept, error |
| LivePrices.PriceFeed.Begin | QuantEdgeApp/src/hooks/useLivePrices.js:18 | only a non-silent refresh raises the refreshing flag |
| LivePrices.PriceFeed.RunChunks | QuantEdgeApp/src/hooks/useLivePrices.js:19-41 | the chunk loop stops at the first failure, keeping the old prices, and publishes only when every chunk succeeded |
| Backend.ListSymbols | QuantEdgeApp/quantedge-backend/main.py:164-166 | `/symbols` lists each symbol of the map exactly once, and the count is the map's size |
| Backend.FetchOne | QuantEdgeApp/quantedge-backend/main.py:126-141 | a quote exists iff the upper-cased symbol maps to a non-empty ticker whose lookup succeeds; it carries the upper-cased symbol, the snapshot's price and previous close, change = price − previous close, and a percentage that is 0 when the previous close is 0 |
| Backend.SecondsField | QuantEdgeApp/quantedge-backend/main.py:116 | the compared seconds component always lies in [0, 86400) |
| Backend.CacheGet | QuantEdgeApp/quantedge-backend/main.py:113-118 | a value is returned iff the key is stored and the seconds component of its age is under 300, and it is the stored value |
| Backend.CacheSet | QuantEdgeApp/quantedge-backend/main.py:120-121 | the key now holds the value stamped with the write time; every other entry is kept |
| Backend.CacheHitWithinTtl | QuantEdgeApp/quantedge-backend/main.py:113-121 | a stored value is returned for the next 300 seconds |
| Backend.CacheMissAfterTtl | QuantEdgeApp/quantedge-backend/main.py:113-118 | from 300 seconds until the end of that day the value is a miss |
| Backend.CacheSetIsolated | QuantEdgeApp/quantedge-backend/main.py:120-121 | storing under one key leaves every other key's lookups unchanged |
| Backend.CacheRevivesEachDay | QuantEdgeApp/quantedge-backend/main.py:116 | because only the seconds component is compared, an expired entry is served again in the first five minutes of every later day |
| Backend.Normalise | QuantEdgeApp/quantedge-backend/main.py:184 | a piece becomes its strip, character by character upper-cased: upper case, no surrounding whitespace, no comma unless the piece had one |
| Backend.ParseSymbols | QuantEdgeApp/quantedge-backend/main.py:184 | the bulk symbols are the non-blank pieces in request order, stripped and upper-cased, at most 50, each non-empty |
| Backend.ParseJoined | QuantEdgeApp/quantedge-backend/main.py:184 | up to 50 canonical symbols sent comma-separated parse back to themselves |
| Backend.ParseSymbolsCanonical | QuantEdgeApp/quantedge-backend/main.py:184 | re-sending a parsed symbol list parses to the same list |
| Backend.Truthy | QuantEdgeApp/quantedge-backend/main.py:173 | the `if cached:` test: a single quote is always truthy, a bulk result only when it holds at least one quote |
| Backend.BulkKey | QuantEdgeApp/quantedge-backend/main.py:185 | a bulk key never collides with a `/price` key or with the `/all` key |
| Backend.BulkKeyOrderIndependent | QuantEdgeApp/quantedge-backend/main.py:185 | requests naming the same symbols in any order share one cache entry |
| Backend.BulkKeyCollision | QuantEdgeApp/quantedge-backend/main.py:185 | a request for `INFY_TCS` and one for `INFY,TCS` share one cache entry |
| Backend.GatherQuotes | QuantEdgeApp/quantedge-backend/main.py:189-193 | the result's keys are exactly the requested symbols whose fetch succeeded, each with its fetched quote |
| Backend.QuoteService.constructor | QuantEdgeApp/quantedge-backend/main.py:109-110 | the service starts with the symbol map and an empty cache |
| Backend.QuoteService.GetPrice | QuantEdgeApp/quantedge-backend/main.py:168-179 | a hit answers the cached quote with cached=True and writes nothing; a miss with a failed fetch is the 404 and writes nothing; otherwise the fresh quote is stored, stamped with the write time after the lookup, and answered with cached=False |
| Backend.QuoteService.ServeMany | QuantEdgeApp/quantedge-backend/main.py:186-195 | a fresh non-empty entry is answered as cached; an empty or stale one is refetched, stored with the write time after the gather, and answered; count is always the number of keys |
| Backend.QuoteService.GetBulk | QuantEdgeApp/quantedge-backend/main.py:181-195 | `/bulk` answers from the entry under the sorted-symbol key, or gathers the parsed symbols and caches the result, stamped with the write time after the gather |
| Backend.QuoteService.GetAll | QuantEdgeApp/quantedge-backend/main.py:197-209 | `/all` answers from the `all_prices` entry, or gathers every symbol of the map and caches the result, stamped with the write time after the gather |
| Watchlist.Without | QuantEdgeApp/App.js:57 | removal keeps exactly the other symbols, in their order |
| Watchlist.WithoutAbsent | QuantEdgeApp/App.js:57 | removing an unlisted symbol changes nothing |
| Watchlist.WithoutNoDuplicates | QuantEdgeApp/App.js:57 | removal keeps the list free of duplicates |
| Watchlist.RemoveUndoesAdd | QuantEdgeApp/App.js:45-59 | removing a symbol just appended restores the list |
| Watchlist.InitialValid | QuantEdgeApp/App.js:36 | the initial four symbols are distinct and within the capacity of 15 |
| Watchlist.WatchlistState.constructor | QuantEdgeApp/App.js:36 | the watchlist starts as NIFTY50, BANKNIFTY, RELIANCE, HDFCBANK |
| Watchlist.WatchlistState.Add | QuantEdgeApp/App.js:45-54 | a listed symbol or a full list (15 or more) leaves the list unchanged; otherwise the symbol is appended; no duplicates and at most 15 are preserved |
| Watchlist.WatchlistState.Remove | QuantEdgeApp/App.js:56-59 | every occurrence is removed, the rest keep their order, and the invariant is preserved |
| Watchlist.LiveSelected | QuantEdgeApp/App.js:67 | the first live row with the selected symbol, or the selection itself when none matches |
| Screens.MarketsFilter | QuantEdgeApp/src/screens/MarketsScreen.js:13-17 | the rows matching the query in symbol, name or sector (case-insensitively) and the chosen sector, each kept as often as it occurs, as a subsequence of the rows |
| Screens.MarketsDefaultShowsAll | QuantEdgeApp/src/screens/MarketsScreen.js:13-17 | with an empty search and "All" every row is listed |
| Screens.MarketsSectorWithinAll | QuantEdgeApp/src/screens/MarketsScreen.js:15-16 | for one query, a sector's rows are a subsequence of the "All" rows |
| Screens.SectorChips | QuantEdgeApp/src/screens/MarketsScreen.js:81 | at most 14 chips, the first ones of `SECTORS` |
| Screens.WatchedStocks | QuantEdgeApp/src/screens/WatchlistScreen.js:13 | exactly the rows whose symbol is watched, each kept as often as it occurs, in row order |
| Screens.Unwatched | QuantEdgeApp/src/screens/WatchlistScreen.js:15-22 | no watched symbol, only query matches, only the chosen sector, nothing for an empty search with "All", every qualifying row otherwise, in row order |
| Screens.UnwatchedIsMarketsMinusWatched | QuantEdgeApp/src/screens/WatchlistScreen.js:15-22 | once a query or sector is given, the watchlist screen's results are the Markets results without the watched rows |
| Screens.Displayed | QuantEdgeApp/src/screens/WatchlistScreen.js:125 | the first 20 results are shown, or all of them when there are at most 20 |
| Screens.MatchesQueryBasics | QuantEdgeApp/src/screens/MarketsScreen.js:14-15 | an empty search matches every row, and a row matches its own symbol, name or sector typed in any letter case |
| Screens.InSectorCases | QuantEdgeApp/src/screens/MarketsScreen.js:16 | the "All" chip and the row's own sector admit the row, every other chip rejects it |
| Pricing.NormCDFSymmetric | QuantEdgeApp/src/utils/stocks.js:118-122 | N(x) + N(−x) = 1 for every x ≠ 0, whatever `exp` is |
| Pricing.NormCDFByTail | QuantEdgeApp/src/utils/stocks.js:118-122 | below 0 the approximation is half the tail factor `t·poly(t)·exp(−x²/2)`, from 0 on one minus half of it |
| Pricing.NormCDFAtZero | QuantEdgeApp/src/utils/stocks.js:118-122 | at 0 both signs are +1 and the coefficients sum to 0.999999999, so N(0) = 0.5000000005 and N(0) + N(−0) ≠ 1 |
| Pricing.NormPDFEven | QuantEdgeApp/src/utils/stocks.js:123 | the normal density is even: φ(−x) = φ(x) |
| Pricing.D1D2Gap | QuantEdgeApp/src/utils/stocks.js:127 | for positive sigma·√T, d1 − d2 = sigma·√T and d1·sigma·√T = ln(S/K) + (r + sigma²/2)·T |
| Pricing.CalcBS | QuantEdgeApp/src/utils/stocks.js:125-129 | the price is 0 whenever T, sigma, S or K is not positive |
| Pricing.PutCallParity | QuantEdgeApp/src/utils/stocks.js:125-129 | where d1 and d2 are not 0, call − put = S − K·e^(−rT) |
| Pricing.CalcGreeks | QuantEdgeApp/src/utils/stocks.js:131-140 | T ≤ 0 or sigma ≤ 0 gives dc 0.5, dp −0.5 and zero gamma, theta, vega; otherwise dc = N(d1); always dc − dp = 1 |
| Pricing.GreeksIgnoreSpotAndStrike | QuantEdgeApp/src/utils/stocks.js:126-132 | the Greeks guard looks at neither S nor K: a zero spot or a zero strike gets computed Greeks while its price is 0 |
| Prediction.FakeHistory | QuantEdgeApp/src/utils/stocks.js:142 | one close per draw, each 0.88·base plus the draw's share of 0.24·base |
| Prediction.FakeHistoryBounds | QuantEdgeApp/src/utils/stocks.js:142 | for a positive base each close lies in [0.88·base, 1.12·base) |
| Prediction.Trend | QuantEdgeApp/src/utils/stocks.js:147 | the trend times the first close is the change from first to last close; a zero first close gives 0 |
| Prediction.Momentum | QuantEdgeApp/src/utils/stocks.js:148 | momentum is 1 iff trend > 0.02, −1 iff trend < −0.02, 0 otherwise |
| Prediction.MomentumFromCloses | QuantEdgeApp/src/utils/stocks.js:146-148 | for a positive first close, momentum is up iff the last close is more than 2 % above the first, down iff more than 2 % below |
| Prediction.RsiAdjustment | QuantEdgeApp/src/utils/stocks.js:150 | the RSI term is positive iff RSI is below 30, negative iff above 70, and at most 0.04 either way |
| Prediction.Score | QuantEdgeApp/src/utils/stocks.js:150 | for momentum in {−1, 0, 1} and a sentiment draw the score lies in [−0.615, 0.615); it is momentum·0.3 + (sent − 0.5)·0.25 ± 0.15 by the MACD's sign, plus 0.04 for RSI below 30 and minus 0.04 for RSI above 70 |
| Prediction.Horizon | QuantEdgeApp/src/utils/stocks.js:155-157 | for a positive last close a horizon price lies within last·w/2 of the trend target last·(1 + score·k) |
| Prediction.BullProbability | QuantEdgeApp/src/utils/stocks.js:151 | `50 + score·50` clamped to [20, 85] |
| Prediction.RsiNeverOversold | QuantEdgeApp/src/utils/stocks.js:149-150 | the drawn RSI lies in [30, 80), so the oversold +0.04 adjustment never applies |
| Prediction.ScoreBounds | QuantEdgeApp/src/utils/stocks.js:149-151 | the score lies in [−0.615, 0.575), so the clamp at 85 never applies |
| Prediction.BullBearSum | QuantEdgeApp/src/utils/stocks.js:158 | bull + bear is 100, or 101 exactly when bp is half-way between two integers |
| Prediction.RunPrediction | QuantEdgeApp/src/utils/stocks.js:144-167 | 30 closes, current = last close; bull and bear are the rounded clamped probability of the score from the closes' momentum, the sentiment, RSI and MACD draws (bull in [20, 79], bear in [21, 80], sum 100 or 101); rsi and macd from their draws; the 1-, 5- and 30-day prices are horizon prices of that score (k 0.015, 0.04, 0.12; bands ±0.4 %, ±1 %, ±3 %); model scores in their bands; sentiment and regime from their lists; levels at 0.97, 1.03, 0.95 and 1.06 of the last close |
| Prediction.LevelsOrdered | QuantEdgeApp/src/utils/stocks.js:164-165 | for a positive price: 0 < stop-loss < support < last < resistance < target |
| Options.EffectivePrice | QuantEdgeApp/src/screens/OptionsScreen.js:15 | the stock's price, or 25587 when there is no stock or its price is 0 |
| Options.AtmStrike | QuantEdgeApp/src/screens/OptionsScreen.js:18 | a multiple of 50 within 25 of the price |
| Options.AtmStrikeNearest | QuantEdgeApp/src/screens/OptionsScreen.js:18 | no multiple of 50 is closer to the price than the ATM strike |
| Options.StrikeLadder | QuantEdgeApp/src/screens/OptionsScreen.js:38-40 | nine multiples of 50, consecutive ones 50 apart, the middle one the ATM strike |
| Options.StrikeLadderIncreasing | QuantEdgeApp/src/screens/OptionsScreen.js:38-40 | the ladder is strictly increasing, entries i < j differ by 50·(j − i) |
| Options.MaxPain | QuantEdgeApp/src/screens/OptionsScreen.js:33 | a multiple of 50 within 25 of 0.99·K |
| Options.Rec | QuantEdgeApp/src/screens/OptionsScreen.js:91-92 | BUY iff the probability is above 65 |
| Options.Compute | QuantEdgeApp/src/screens/OptionsScreen.js:21-35 | values for T = expiry/365, r = 0.065, sigma = iv or 0.25; call probability in [60, 80], put in [40, 60], IV rank in [30, 80], put-call ratio in [0.7, 1.3), max pain as above |
| Options.PutNeverBuy | QuantEdgeApp/src/screens/OptionsScreen.js:30 | the put card's probability is at most 60, so it always says WAIT |
| Options.OptionsPanel.constructor | QuantEdgeApp/src/screens/OptionsScreen.js:11-13 | expiry 30 days, strike 0, no values |
| Options.OptionsPanel.ResetStrike | QuantEdgeApp/src/screens/OptionsScreen.js:17-19 | a new stock or price moves the strike to the ATM strike |
| Options.OptionsPanel.SelectStrike | QuantEdgeApp/src/screens/OptionsScreen.js:65 | picking a strike sets it and nothing else |
| Options.OptionsPanel.SelectExpiry | QuantEdgeApp/src/screens/OptionsScreen.js:78 | picking an expiry sets it and nothing else |
| Options.OptionsPanel.Recompute | QuantEdgeApp/src/screens/OptionsScreen.js:21-36 | nothing is computed with strike 0 or no stock; otherwise the values are recomputed for the current strike and expiry |

## Left out

- Network I/O, the 15-second abort and the 60-second polling timer: each request's outcome is an input, and one cycle is modelled at a time.
- The `/bulk` request URL is built without URL-encoding the symbols. A symbol containing `&` (such as `M&M`) ends the `symbols` parameter early, so it and the symbols after it in its chunk are not requested. Each chunk's outcome is an input of the model, so this truncation is not represented.
- Overlapping refresh cycles: the source has no guard against them. Interleaving is not modelled.
- The refresh time stamp (`toLocaleTimeString`) and the service's IST time (`strftime`) are opaque string inputs.
- Backend.FetchOne: the rounding of price, previous close, change and percentage to two decimals is not modelled.
- Backend.FetchOne: the Yahoo lookup is a deterministic function of the ticker, and each request uses one clock value for every quote.
- Backend.ListSymbols: returns the symbols in an unspecified order; Python lists them in insertion order.
- Text.ToUpper: only ASCII letters change case. `ToLower` is the same. The symbols, names and sectors of the catalogue and the symbol map are ASCII.
- Pricing.CalcBS: `exp`, `log` and `sqrt` are inputs, so prices are not checked against true Black–Scholes values.
- Divisions that the source does not guard give 0 when the divisor is 0; JavaScript would produce an infinity or NaN. This covers `S/K` and the Greeks' divisions by S, by `sigma·√T` and by `√(2π)` when the supplied `sqrt` returns 0, and the trend when the first close is 0. For the trend, NaN and 0 both give momentum 0.
- Floating-point rounding: all arithmetic is exact on reals.
- Formatting (`toFixed`, `toLocaleString`, `(sigma·100).toFixed(1)`) is not modelled: values are kept unformatted.
- A selected stock taken straight from the static catalogue has no price. It is modelled as a row with zero prices, which every consumer in the modelled core treats like a missing price. The `chg !== undefined` test at QuantEdgeApp/src/screens/PredictScreen.js:70 would tell the two apart; that display test is not part of this model.
- Prediction.RunPrediction: the draws are a record of named inputs rather than a stream consumed in call order.
- FastAPI wiring: rate limits, CORS, the `/` and `/health` endpoints, logging.
- Screen layout, navigation, toasts, the theme toggle, charts, `SignalsScreen` and the language-model call of `PredictScreen`.
