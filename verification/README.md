# Binance asset tracker: market-data core in Dafny

This project models the data core of a mobile crypto-asset tracker. The tracker lists
Binance trading pairs quoted in USDT or INR, shows every price in Indian rupees, and
enriches each asset with a CoinGecko name, a logo and a 24-hour sparkline. It streams
live ticks into each list tile, and draws a scrollable price chart for one asset over a
chosen time frame.

The modules follow the source files:

| module | source | flavour |
|---|---|---|
| `MemoryCache` | `src/services/api.ts` (cache, `fetchUSDTINRPrice`) | class `Cache` over a map field; the rate lookup is a method proved against `ResolvedRate`/`RateEntries` |
| `Metadata` | `src/services/api.ts` (`fetchCoinGeckoDetails`, `mapToCoinGeckoId`) | the chunk loop is a method with invariants; chunking, merging and the request/pause transcript are functions with lemmas |
| `MarketData` | `src/services/api.ts` (`fetchAssets`, `fetchAssetDetail`, `fetchHistoricalData`, `fetchMultipleAssets24hData`, `subscribeToTickerWebSocket`) | pure builders with lemmas; the fetchers are methods over the cache; the per-subscription rate is a class `TickerStream` |
| `AssetListData` | `src/hooks/useAssetData.ts` (`useAssetData`) | class `AssetListSync` whose methods update the hook's state |
| `AssetDetailData` | `src/hooks/useAssetData.ts` (`useAssetDetailData`) | class `AssetDetailSync`, plus the pure time-frame table, chart formatting and statistics refresh |
| `ChartGeometry` | `src/components/CustomChart.tsx` | pure: bounds, value-to-pixel mapping, points, path, label decimation, nearest point |
| `FormatPrice` | `src/utils/formatPrice.js` (`removeDecimal`, `formatNumberWithUnits`) | pure parsing; the scaling loop is a method |
| `AssetTile` | `src/components/AssetItem.tsx` | class `PriceTile` for the tick and flash state; pure colour, sign and sparkline filter |
| `Common`, `Strings` | (support) | `Option`, `Result`, and the JavaScript string operations the core uses, on ASCII text |

Every provider reply is a parameter of the model, already parsed. `None`, or an `Err`
result, stands for a request that fails or throws. Replies that depend on what is asked
are total functions of the request: the logo reply of each chunk of ids, and the kline
replies of each symbol. The clock (`endTime`), the locale rendering of chart labels and
the scroll offset are parameters too.

JavaScript truthiness is written out wherever the source relies on `||` or `!x`:
- a cached rate of 0 counts as missing;
- an empty logo URL or name falls back;
- a zero volume or market cap becomes "N/A".

A USDT pair's prices and volumes are multiplied by the USDT→INR rate. An INR pair's are
multiplied by 1.

Not every failed sub-fetch of the asset join degrades to a placeholder. A failed
sparkline series (`fetchMultipleAssets24hData` rethrows) or a failed `/coins/markets`
request fails the whole `fetchAssets` call, and `MarketData.FetchAssets` states exactly
that.

## Model

| member | source | states |
|---|---|---|
| `Strings.ReplaceFirstAt` | src/services/api.ts:141-143 | `replace` with a string pattern changes only the first occurrence: the text before it, then the replacement, then the text after it |
| `Strings.RemoveSuffix` | src/services/api.ts:141-143 | when the quote currency occurs in the pair only as its suffix, replacing its first occurrence by "" strips exactly that suffix |
| `Strings.ToLowerNormalises` | src/services/api.ts:118 | a lower-cased symbol contains no upper-case letter, and lower-casing it again changes nothing |
| `Strings.ToUpper` | src/services/api.ts:167 | the upper-cased market symbol has the same length, with every letter upper-cased |
| `Strings.NatToString` | src/services/api.ts:276 | the rank text is non-empty and made only of decimal digits |
| `MemoryCache.Lookup` | src/services/api.ts:14-16 | a key is found iff it is present with a truthy value (a stored rate of 0 reads as missing); what is found is the stored value |
| `MemoryCache.PutThenLookup` | src/services/api.ts:10-16 | a value stored with `cacheData` reads back iff it is truthy; the lookup of every other key is unaffected |
| `MemoryCache.CachedRateIsReused` | src/services/api.ts:19-23 | a cached non-zero rate is returned whatever the request would answer, and the cache is left unchanged |
| `MemoryCache.FallbackIsSticky` | src/services/api.ts:32-36 | a failed rate request yields 83; since 83 is cached, every later lookup yields 83 whatever its own request answers, and changes nothing |
| `MemoryCache.RateLookupStable` | src/services/api.ts:18-37 | repeating the lookup with the same reply returns the same rate and leaves the cache as the first lookup left it |
| `MemoryCache.TruthyRateSettles` | src/services/api.ts:19-23 | once a lookup has returned a non-zero rate, every later lookup returns it and writes nothing, whatever its own request answers |
| `MemoryCache.ZeroRateRefetched` | src/services/api.ts:21-31 | a reply of 0 is cached but falsy, so the next lookup requests again and returns its own reply |
| `MemoryCache.RateIgnoresOtherKeys` | src/services/api.ts:10-12 | storing under any key other than the rate key does not change the rate that is returned |
| `MemoryCache.Cache.constructor` | src/services/api.ts:7 | the cache starts empty |
| `MemoryCache.Cache.Put` | src/services/api.ts:10-12 | the entry is set and every other entry is kept; rates stay only under the rate key |
| `MemoryCache.Cache.UsdtInrRate` | src/services/api.ts:18-37 | returns the cached truthy rate, else the reply, else 83; on a miss it stores what it returns and changes nothing else |
| `Metadata.BatchKey` | src/services/api.ts:42 | a batch key starts with `COINGECKO_BATCH_`, so it never collides with the rate key |
| `Metadata.ChunksPartition` | src/services/api.ts:52-55 | n ids give ⌈n/50⌉ chunks, each holding 1 to 50 ids, and the chunks concatenated are the ids in order |
| `Metadata.ChunkAt` | src/services/api.ts:54-55 | chunk k is exactly the slice from 50k to min(50k + 50, n) |
| `Metadata.AbsorbKeys` | src/services/api.ts:68-70 | merging a reply adds exactly the ids the reply lists to the keys already present |
| `Metadata.CollectedKeys` | src/services/api.ts:54-88 | the merged map has an entry for an id iff some chunk whose request succeeded listed it; failed chunks are skipped, not fatal |
| `Metadata.TranscriptRequests` | src/services/api.ts:54-66 | the loop issues one request per chunk, in chunk order, and no other request |
| `Metadata.PausesFollowSuccess` | src/services/api.ts:79-81 | every one-second pause directly follows a request that succeeded, and the loop never ends with a pause |
| `Metadata.AllAnsweredPauses` | src/services/api.ts:79-81 | when every request succeeds, n chunks are separated by exactly n − 1 pauses |
| `Metadata.HundredTwentyIds` | src/services/api.ts:52-81 | 120 ids take 3 requests and, when all succeed, 2 pauses |
| `Metadata.BatchLookupCached` | src/services/api.ts:42-91 | after one batch lookup the batch is cached, and a second lookup of the same ids returns the same map whatever the providers would answer |
| `Metadata.AbsorbReply` | src/services/api.ts:68-70 | the `forEach` loop yields the map in which each coin's image is stored under its id, later coins overwriting earlier ones |
| `Metadata.RequestChunks` | src/services/api.ts:51-88 | the loop's merged map is the one collected over the chunks in order, and its requests and pauses are the transcript above |
| `Metadata.FetchLogoBatch` | src/services/api.ts:39-92 | a cached batch is returned with no request; otherwise the chunk loop's map is returned and cached under the batch key |
| `Metadata.CoinGeckoIdSpec` | src/services/api.ts:94-119 | an unlisted symbol maps to its lower-case form, which has no upper-case letter; a listed symbol maps to its table entry, which is non-empty, so the lower-case fallback is taken exactly for unlisted symbols |
| `Metadata.CoinGeckoIdExamples` | src/services/api.ts:96-118 | BTC maps to bitcoin, MATIC to matic-network (a table entry that is not the symbol), and SOL (unlisted) to sol |
| `MarketData.FilterQuotedMembers` | src/services/api.ts:130-133 | a ticker is kept iff it is in the snapshot and its pair ends with USDT or INR |
| `MarketData.FilterQuotedAppend` | src/services/api.ts:130-133 | filtering works element by element, so the kept tickers stay in snapshot order |
| `MarketData.Slice` | src/services/api.ts:138 | `slice` clips both ends to the array's length, and element i of the slice is element start + i |
| `MarketData.HasMoreIff` | src/services/api.ts:215 | there are no more pages exactly when page · limit reaches the number of quoted tickers |
| `MarketData.PagesTile` | src/services/api.ts:136-138 | pages 1..k together are the first k · limit quoted tickers: none skipped, none repeated |
| `MarketData.HundredTwentyTickers` | src/services/api.ts:136-138 | 120 quoted tickers in pages of 50 give pages of 50, 50, 20 and 0 tickers, with more pages after page 1 and page 2 but not after page 3 |
| `MarketData.BaseSymbolStripsQuote` | src/services/api.ts:140-144 | when the quote currency occurs only at the end of the pair, the base symbol is the pair without it |
| `MarketData.FindPriceFirst` | src/services/api.ts:175-177 | `find` yields the price of the first quote for the pair, and nothing iff no quote is for the pair |
| `MarketData.Closes` | src/services/api.ts:406 | a series' sparkline values are its candles' closes, one per candle, in order |
| `MarketData.PageSymbols` | src/services/api.ts:140-144 | there is one symbol per ticker of the page, in page order, and symbol i is the base symbol of ticker i |
| `MarketData.CoinIds` | src/services/api.ts:146 | there is one id per page symbol, in order, and id i is the CoinGecko id of symbol i |
| `MarketData.BuildPage` | src/services/api.ts:174-216 | the page has one record per page ticker, at most `limit` of them, and `hasMore` holds iff page · limit is below the number of quoted tickers |
| `MarketData.RecordFields` | src/services/api.ts:179-206 | a record carries the base symbol and the quote's price (else the last price); price, volume, high and low are multiplied by 1 for an INR pair and by the rate otherwise; the percent change is not converted |
| `MarketData.PageRecords` | src/services/api.ts:174-210 | record i of the page is built from quoted ticker (page − 1) · limit + i, with the fields above |
| `MarketData.RecordFallbacks` | src/services/api.ts:188-208 | the logo is the one stored under the coin's id when present and non-empty, and the placeholder URL otherwise; the name is the market name when present and non-empty, and the symbol otherwise; the sparkline is the symbol's series when present, and empty otherwise; the record is never dropped |
| `MarketData.SeriesConversion` | src/services/api.ts:294-334 | the series fails only when both the INR and the USDT request fail; an INR series is returned as is; a USDT series has one candle per row with the time copied and open, high, low, close and volume multiplied by the rate |
| `MarketData.FetchHistoricalData` | src/services/api.ts:285-339 | the result is that series, with the rate taken through the cache, which is left as the rate lookup leaves it |
| `MarketData.SeriesResults` | src/services/api.ts:394-403 | every symbol's 24-hour series is fetched with the same rate, in symbol order |
| `MarketData.SparklinesSucceed` | src/services/api.ts:392-415 | the sparkline map is produced iff every symbol's series succeeds; one failure fails it all |
| `MarketData.SparklinesKeys` | src/services/api.ts:405-408 | when every series succeeds, the map's keys are exactly the requested symbols |
| `MarketData.SparklinesValues` | src/services/api.ts:405-408 | when every series succeeds, each symbol maps to the closes of its own series |
| `MarketData.SparklinesSpec` | src/services/api.ts:392-415 | the three statements above, together |
| `MarketData.FetchSparklines` | src/services/api.ts:392-415 | the fetcher returns that map (or the failure); the cache changes only by the one rate lookup |
| `MarketData.RateSettledAfterBatch` | src/services/api.ts:128-149 | once the rate has been looked up, storing a logo batch does not change the rate later lookups return, nor make them write again |
| `MarketData.FetchAssets` | src/services/api.ts:121-221 | fails with the cache untouched when a snapshot fails; otherwise it succeeds iff every sparkline series and the markets request succeed; it then returns the page built with the resolved rate, the batch logos of the page's ids and the market names, and the cache holds the rate and that batch |
| `MarketData.DetailSentinels` | src/services/api.ts:242-278 | the name is the coin's name when present and non-empty, else the symbol; market cap and supply are the reply's number, or "N/A" exactly when missing or zero; popularity is "#" followed by the rank's digits, or "N/A" exactly when the rank is missing or zero; the logo is the batch entry for the coin's id, and absent exactly when there is none; prices and volume are converted exactly when the pair is not INR |
| `MarketData.FetchAssetDetail` | src/services/api.ts:223-283 | succeeds iff the INR or the USDT snapshot and the coin request succeed; the INR snapshot is preferred; the logo is looked up through the batch cache for the coin's single id |
| `MarketData.NormaliseTick` | src/services/api.ts:362-369 | exactly the close, high, low, open and volume of a tick are multiplied by the rate; every other field passes through |
| `MarketData.TickerStream.constructor` | src/services/api.ts:345-346 | a subscription starts without a rate |
| `MarketData.TickerStream.OnMessage` | src/services/api.ts:357-371 | the rate is looked up only while the subscription has none (or a falsy 0), and is kept afterwards; the tick is normalised with it |
| `MarketData.TwoTicks` | src/services/api.ts:357-371 | two messages on one subscription are both normalised with the rate of the first lookup, unless that rate was 0 |
| `AssetListData.AssetListSync.constructor` | src/hooks/useAssetData.ts:11-16 | no assets, loading, not loading more, no error, page 1, more pages expected |
| `AssetListData.AssetListSync.FetchData` | src/hooks/useAssetData.ts:18-30 | success records `hasMore` and returns the page's assets; failure records the error message, returns nothing and keeps `hasMore` |
| `AssetListData.AssetListSync.InitialLoad` | src/hooks/useAssetData.ts:32-41 | after mounting, the list is page 1's assets (or empty on failure) and loading has ended |
| `AssetListData.AssetListSync.BeginLoadMore` | src/hooks/useAssetData.ts:44-48 | a load starts iff none is running and more pages exist, and then raises `loadingMore` |
| `AssetListData.AssetListSync.FinishLoadMore` | src/hooks/useAssetData.ts:49-54 | the next page's assets are appended after those shown; the page counter advances by one even when the fetch failed; `loadingMore` is lowered |
| `AssetListData.AssetListSync.LoadMoreAssets` | src/hooks/useAssetData.ts:43-55 | a refused call changes nothing; an accepted call keeps the shown assets as a prefix, appends the next page and advances the counter |
| `AssetListData.ScrollTwice` | src/hooks/useAssetData.ts:32-55 | mounting and then loading more twice shows pages 1, 2 and 3 in order, with the page counter at 3 |
| `AssetListData.DoubleTrigger` | src/hooks/useAssetData.ts:44-48 | a second trigger while a load is running is refused, so only one more page is fetched |
| `AssetDetailData.TimeFrameTable` | src/hooks/useAssetData.ts:168-200 | each listed time frame requests its own look-back and interval: 1H one hour of "1m", 24H one day of "15m", 1W one week of "1h", 1M 30 days and 6M 180 days of "4h", 1Y 365 days of "1d", and All daily candles from 2009-01-03 |
| `AssetDetailData.WindowFor` | src/hooks/useAssetData.ts:168-200 | each time frame's start is the end time minus its look-back (a fixed date for "All"), with the frame's interval |
| `AssetDetailData.UnknownMeansOneHour` | src/hooks/useAssetData.ts:197-200 | a time frame the switch does not list gets one hour of one-minute candles, like "1H" |
| `AssetDetailData.CandleBudget` | src/hooks/useAssetData.ts:168-200 | whatever the end time, the windows of 1H, 24H, 1W, 1M and 1Y span 60, 96, 168, 180 and 365 candles, within the 1000-candle request limit; "6M" always spans 1080 four-hour candles; "All" exceeds the limit exactly from 1001 days after 2009-01-03 |
| `AssetDetailData.FormatChartData` | src/hooks/useAssetData.ts:89-143 | one label and one close per candle, in candle order, the label styled by the time frame; an empty series gives the empty chart |
| `AssetDetailData.DetailStats` | src/hooks/useAssetData.ts:149-154 | each of market cap, volume, supply and popularity is the detail's value when truthy, and "N/A" otherwise; no price is selected yet |
| `AssetDetailData.RefreshedStatsFallbacks` | src/hooks/useAssetData.ts:229-241 | after a refresh every statistic is present and truthy; a truthy previous market cap, supply or popularity is kept, and "N/A" appears only when there was none; the volume is the last candle's whenever that is non-zero, else the previous truthy volume; the selected price of the previous statistics is kept |
| `AssetDetailData.ChangePercentSign` | src/hooks/useAssetData.ts:219-222 | for a positive first close, the change is positive, zero or negative exactly when the last close is above, equal to or below it |
| `AssetDetailData.RefreshedDetail` | src/hooks/useAssetData.ts:214-227 | price and volume become the last candle's, the change is measured against the first candle, and every other field is kept |
| `AssetDetailData.FirstIndex` | src/hooks/useAssetData.ts:252 | `indexOf` finds the first index holding the label, and nothing iff the label is absent |
| `AssetDetailData.AssetDetailSync.constructor` | src/hooks/useAssetData.ts:79-87 | no detail, an empty chart, time frame "1H", loading, no error, no statistics |
| `AssetDetailData.AssetDetailSync.SetTimeFrame` | src/hooks/useAssetData.ts:84 | only the time frame changes |
| `AssetDetailData.AssetDetailSync.LoadAssetDetail` | src/hooks/useAssetData.ts:145-158 | success stores the detail and its statistics; failure records the detail error and keeps both |
| `AssetDetailData.AssetDetailSync.BeginSeriesLoad` | src/hooks/useAssetData.ts:160-200 | loading is raised, the error cleared, and the window of the current time frame is chosen |
| `AssetDetailData.AssetDetailSync.CompleteSeriesLoad` | src/hooks/useAssetData.ts:202-248 | success shows the formatted chart and, for a non-empty series, refreshes the detail (when there is one) and the statistics; failure records the chart error and keeps chart, detail and statistics; loading ends in every case |
| `AssetDetailData.AssetDetailSync.LoadHistoricalData` | src/hooks/useAssetData.ts:160-249 | the chart shows the series requested for the current time frame's window, or the chart error when that request fails; a non-empty series refreshes the detail (when there is one) and the statistics from its candles; a failed or empty series keeps both; loading ends |
| `AssetDetailData.AssetDetailSync.UpdateStatsForTime` | src/hooks/useAssetData.ts:251-263 | a known label sets the statistics' price to the value at its first index and keeps the other statistics; an unknown label changes nothing |
| `ChartGeometry.MinOf` | src/components/CustomChart.tsx:44 | the minimum is one of the values and no value is below it |
| `ChartGeometry.MaxOf` | src/components/CustomChart.tsx:45 | the maximum is one of the values and no value is above it |
| `ChartGeometry.PaddingBrackets` | src/components/CustomChart.tsx:47-50 | the padded range contains every value, and strictly widens a series that is not flat |
| `ChartGeometry.GetYDecreasing` | src/components/CustomChart.tsx:52-57 | a larger value is drawn strictly higher (a smaller y) |
| `ChartGeometry.GetYInBand` | src/components/CustomChart.tsx:52-57 | thanks to the 10% padding, every value is drawn between 1/12 and 11/12 of the chart height |
| `ChartGeometry.XSpread` | src/components/CustomChart.tsx:60 | the first point is at x = 0, the last at the full width, and x grows strictly with the index |
| `ChartGeometry.Points` | src/components/CustomChart.tsx:59-64 | one point per value, in order, carrying its value, its x and y, and the label at its index (none past the labels) |
| `ChartGeometry.PathShape` | src/components/CustomChart.tsx:66-68 | the path has one command per point: a move to the first point, then a line to each later point |
| `ChartGeometry.ComputeGeometry` | src/components/CustomChart.tsx:39-71 | an empty series gives bounds 0 and 0, no path and no points; any other series gives one point per value carrying that value, one path command per point starting with a move to the first, and padded bounds strictly enclosing the data |
| `ChartGeometry.GeometryShape` | src/components/CustomChart.tsx:39-71 | for a drawable series the points run left to right from 0 to the width, lie inside the drawing band, are ordered vertically like their values, and are joined by the path in order; the padded bounds strictly enclose the data |
| `ChartGeometry.LabelStep` | src/components/CustomChart.tsx:74-83 | the step is at least 1 and large enough that 12 steps cover all points |
| `ChartGeometry.DecimateCount` | src/components/CustomChart.tsx:85 | the filter keeps the least c points with c · step ≥ N, and at least one point of a non-empty series |
| `ChartGeometry.DecimateSpec` | src/components/CustomChart.tsx:85 | the k-th kept point is point k · step |
| `ChartGeometry.VisibleLabelsBound` | src/components/CustomChart.tsx:73-86 | at most 12 labels are shown, the first point's label always among them, and every label when there are at most 12 points |
| `ChartGeometry.Nearest` | src/components/CustomChart.tsx:101-105 | the chosen point is horizontally nearest to the touch; on a tie the earlier point wins |
| `ChartGeometry.NearestExactHit` | src/components/CustomChart.tsx:101-105 | a touch exactly over a point selects that point when the points run strictly left to right |
| `ChartGeometry.HandleTouch` | src/components/CustomChart.tsx:97-109 | the selection is one of the points, nearest to the touch shifted by the scroll offset (0 when unknown), and reports that point's label and value |
| `ChartGeometry.FivePointBounds` | src/components/CustomChart.tsx:44-50 | the series 10, 20, 15, 25, 30 has minimum 10 and maximum 30, padded to 8 and 32 |
| `ChartGeometry.FivePointExample` | src/components/CustomChart.tsx:39-86 | that series gives bounds 8 and 32 and five points, all of whose labels are shown |
| `FormatPrice.DigitPrefix` | src/utils/formatPrice.js:16 | `parseInt` reads the longest run of leading digits: all digits, a prefix of the text, and stopped by a non-digit |
| `FormatPrice.NoDotUnchanged` | src/utils/formatPrice.js:15 | a number text without a '.' is left alone by the replacement |
| `FormatPrice.ParseIntText` | src/utils/formatPrice.js:16 | `parseInt` reads back the decimal text of every integer, negative ones included |
| `FormatPrice.RemoveDecimalInteger` | src/utils/formatPrice.js:10-17 | an integer passes through `removeDecimal` unchanged |
| `FormatPrice.DeleteFirstDot` | src/utils/formatPrice.js:15 | deleting the first '.' of "p.b", where p has no '.', leaves p followed by b |
| `FormatPrice.RemoveDecimalFraction` | src/utils/formatPrice.js:10-17 | a text "[-]a.b" becomes the integer whose digits are a's followed by b's, with its sign; the point is deleted, not rounded |
| `FormatPrice.TwelvePointFive` | src/utils/formatPrice.js:15-16 | 12.5 becomes 125 |
| `FormatPrice.RemoveDecimalNotAvailable` | src/utils/formatPrice.js:11-13 | "N/A" is answered exactly for a non-number |
| `FormatPrice.UnitFromSpec` | src/utils/formatPrice.js:30-33 | the chosen unit index is at most 5; either it is 5 or the magnitude is below the next power of 1000; and the magnitude reaches every power of 1000 passed on the way |
| `FormatPrice.ScaleToUnit` | src/utils/formatPrice.js:27-33 | the loop stops at that unit, with amount · 1000^unit equal to the magnitude, the amount non-negative and below 1000 unless the unit is the last |
| `FormatPrice.FormatNumberWithUnits` | src/utils/formatPrice.js:19-36 | "N/A" exactly for a non-number, the NaN text exactly when `parseInt` finds no digit, and otherwise the scaled magnitude with the unit word of its index, sign dropped |
| `AssetTile.PriceTile.constructor` | src/components/AssetItem.tsx:19-23 | the tile starts with the asset's price and percent change in the neutral colour, with no flash running |
| `AssetTile.PriceTile.OnTick` | src/components/AssetItem.tsx:27-37 | the tick's close and percent become the tile's; a rise turns green and starts a flash, a fall turns red and starts a flash, an unchanged price changes neither colour nor flash |
| `AssetTile.PriceTile.FlashCompleted` | src/components/AssetItem.tsx:58-60 | the end of a flash restores the neutral colour and leaves price and percent alone |
| `AssetTile.RiseThenSettle` | src/components/AssetItem.tsx:26-61 | a rising tick shows green during the flash, and afterwards the new price in the neutral colour |
| `AssetTile.ColourMatchesSign` | src/components/AssetItem.tsx:63-64 | the change is green iff it is zero or more iff it is shown with "+", and red iff shown without a sign |
| `AssetTile.FiniteValuesAppend` | src/components/AssetItem.tsx:66-67 | the finite filter works piecewise, so kept values stay in data order |
| `AssetTile.FiniteValuesMembers` | src/components/AssetItem.tsx:66-67 | a value is kept iff it occurs as a finite number, and never more values are kept than given |
| `AssetTile.ListSparklineKept` | src/components/AssetItem.tsx:66-68 | a sparkline from the list (all closes finite) is drawn whole and in order, and is drawn iff it has at least two values |

## Left out

- Transport is not modelled: HTTP requests, JSON parsing, timeouts, and the WebSocket's open, error, close and one-second reconnect lifecycle, including the unsubscribe handle. Replies enter as parameters.
- Concurrency is not modelled. `Promise.all`, overlapping asynchronous calls, React's batching of state updates and stale closures are all left out: each step runs to completion, in source order. For example, a double `loadMoreAssets` that reads a stale `loadingMore` is not captured. `AssetListData.DoubleTrigger` states the sequential behaviour only.
- Floating point is modelled as exact `real` arithmetic, with no rounding, `Infinity` or `NaN`. `parseFloat` enters as already-parsed numbers. `toFixed`, `Intl.NumberFormat`, `toLocaleString` and the other locale renderings are parameters or left out, and so is `formatPriceInINR`.
- Rendering (JSX, styles, the animation's timing, scroll-to-end) is not modelled. Only the state and the geometry that rendering reads are.
- The screens, `App.tsx` and `AssetList.tsx` are not part of this model.
- `Strings.ToLower`: ASCII letters only; `toLowerCase`/`toUpperCase` on non-ASCII text are not modelled.
- `FormatPrice.FormatNumberWithUnits`: returns the scaled amount as a real beside its unit word, not the `toFixed(1)` text.
- `FormatPrice.RemoveDecimal`: takes the number's `toString` text as input. The conversion of a number to that text is not modelled, and `parseInt`'s skipping of leading whitespace never arises for such text.
- `ChartGeometry.ComputeGeometry`: requires an empty series or one of at least two distinct values. On a one-point or flat series the source divides by zero and draws `NaN`/`Infinity` coordinates.
- `ChartGeometry.HandleTouch`: requires at least one point. On no points the source's `reduce` without an initial value throws; the no-data view never attaches the touch handler then.
- `AssetDetailData.RefreshedDetail`: requires a non-zero first close. With a zero first close the source computes an infinite or `NaN` percent change. `AssetDetailSync.CompleteSeriesLoad` and `AssetDetailSync.LoadHistoricalData` carry the same precondition.
- `AssetDetailData.CandleBudget`: states which windows span more candles than the 1000 the request allows. Which candles the provider returns for such a window is not modelled; the series is whatever the reply holds.
- `Metadata.CoinGeckoIdSpec`: states that listed ids are non-empty, not that they are lower case (they are, as the table shows).
- `MarketData.BuildPage`: takes the symbol-to-id mapping as a parameter; `MarketData.FetchAssets` passes `Metadata.CoinGeckoId`.
- `MarketData.FetchSparklines` and `MarketData.FetchAssets` feed the same rate reply to every rate lookup of one call. When the first reply is a non-zero rate, or the request fails, later replies are ignored anyway (`MemoryCache.TruthyRateSettles`, `MemoryCache.FallbackIsSticky`). When it is 0, the source requests again for each series and may get different rates (`MemoryCache.ZeroRateRefetched`); the model then still converts every series with one rate.
- The cache has no eviction and no expiry, as in the source. Its last-write-wins races between overlapping fetches are left out with the rest of concurrency.
- The `console` logging of errors is left out.
