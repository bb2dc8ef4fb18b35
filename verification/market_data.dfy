/**
 * The market-data service's transformations (src/services/api.ts): the
 * snapshot page builder (`fetchAssets`), the kline series fetcher with its
 * INR-then-USDT fallback (`fetchHistoricalData`), the per-symbol sparkline
 * map (`fetchMultipleAssets24hData`), the asset detail (`fetchAssetDetail`)
 * and the live-tick normalisation of `subscribeToTickerWebSocket`.
 *
 * Every reply of a provider is a parameter, already parsed: `None` (or a
 * failed `Result`) when the request fails. Prices and volumes of a USDT pair
 * are converted to INR by multiplying with the USDT→INR rate; an INR pair is
 * already in INR and is multiplied by 1.
 */
module MarketData {
  import opened Common
  import opened Strings
  import opened MemoryCache
  import opened Metadata

  /** One row of the 24-hour ticker snapshot, numeric fields parsed. */
  datatype Ticker = Ticker(
    symbol: string,
    lastPrice: real,
    priceChangePercent: real,
    volume: real,
    highPrice: real,
    lowPrice: real)

  /** One row of the latest-price snapshot. */
  datatype PriceQuote = PriceQuote(symbol: string, price: real)

  /** One row of the INR `/coins/markets` reply, used for display names. */
  datatype MarketCoin = MarketCoin(symbol: string, name: string, image: string)

  datatype CoinDetail = CoinDetail(name: string, logoUrl: string)

  /** One entry of the asset list. */
  datatype AssetSummary = AssetSummary(
    symbol: string,
    name: string,
    price: real,
    priceChangePercent: real,
    volume: real,
    high: real,
    low: real,
    logoUrl: string,
    sparklineData: seq<real>)

  /** The result of `fetchAssets`. */
  datatype AssetPage = AssetPage(assets: seq<AssetSummary>, hasMore: bool)

  /** One OHLCV candle. */
  datatype Candle = Candle(time: int, open: real, high: real, low: real, close: real, volume: real)

  /** The replies to the kline requests for `<symbol>INR` and for `<symbol>USDT`. */
  datatype KlineReplies = KlineReplies(inr: Option<seq<Candle>>, usdt: Option<seq<Candle>>)

  const PlaceholderLogo: string := "https://via.placeholder.com/32"

  // ---------------------------------------------------------------- filtering

  /** A pair quoted in USDT or in INR. */
  predicate Quoted(symbol: string) {
    EndsWith(symbol, "USDT") || EndsWith(symbol, "INR")
  }

  /** `tickers.filter(t => t.symbol.endsWith('USDT') || t.symbol.endsWith('INR'))`. */
  function FilterQuoted(tickers: seq<Ticker>): seq<Ticker> {
    if tickers == [] then []
    else (if Quoted(tickers[0].symbol) then [tickers[0]] else []) + FilterQuoted(tickers[1..])
  }

  /** The filter keeps exactly the quoted tickers. */
  lemma {:induction false} FilterQuotedMembers(tickers: seq<Ticker>, t: Ticker)
    ensures t in FilterQuoted(tickers) <==> t in tickers && Quoted(t.symbol)
  {
    if tickers != [] {
      FilterQuotedMembers(tickers[1..], t);
      assert tickers == [tickers[0]] + tickers[1..];
    }
  }

  /** The filter works element by element, so it keeps the original order. */
  lemma {:induction false} FilterQuotedAppend(a: seq<Ticker>, b: seq<Ticker>)
    ensures FilterQuoted(a + b) == FilterQuoted(a) + FilterQuoted(b)
  {
    if a != [] {
      FilterQuotedAppend(a[1..], b);
      assert (a + b)[0] == a[0];
      assert (a + b)[1..] == a[1..] + b;
    } else {
      assert a + b == b;
    }
  }

  // --------------------------------------------------------------- pagination

  function PageStart(page: nat, limit: nat): nat
    requires page >= 1
  {
    (page - 1) * limit
  }

  function PageEnd(page: nat, limit: nat): nat
    requires page >= 1
  {
    PageStart(page, limit) + limit
  }

  /** `Array.prototype.slice(start, end)` with `0 <= start <= end`: clipped to the array's bounds. */
  function Slice<T>(s: seq<T>, start: nat, end: nat): (r: seq<T>)
    requires start <= end
    ensures |r| == Min(end, |s|) - Min(start, |s|)
    ensures forall i :: 0 <= i < |r| ==> r[i] == s[start + i]
  {
    s[Min(start, |s|)..Min(end, |s|)]
  }

  /** The tickers of page `page` (counted from 1) of `limit` items. */
  function PageOf(filtered: seq<Ticker>, page: nat, limit: nat): seq<Ticker>
    requires page >= 1
  {
    Slice(filtered, PageStart(page, limit), PageEnd(page, limit))
  }

  /** `hasMore: endIndex < filteredTickers.length`. */
  predicate HasMore(count: nat, page: nat, limit: nat)
    requires page >= 1
  {
    PageEnd(page, limit) < count
  }

  /** There are no more pages exactly when page·limit reaches the number of filtered tickers. */
  lemma HasMoreIff(count: nat, page: nat, limit: nat)
    requires page >= 1
    ensures !HasMore(count, page, limit) <==> page * limit >= count
  {
    assert PageEnd(page, limit) == page * limit;
  }

  /** The pages 1..k, one after the other. */
  function FirstPages(filtered: seq<Ticker>, k: nat, limit: nat): seq<Ticker> {
    if k == 0 then [] else FirstPages(filtered, k - 1, limit) + PageOf(filtered, k, limit)
  }

  /** Pages 1..k together are the first k·limit filtered tickers: no ticker is skipped or repeated. */
  lemma {:induction false} PagesTile(filtered: seq<Ticker>, k: nat, limit: nat)
    ensures FirstPages(filtered, k, limit) == filtered[..Min(k * limit, |filtered|)]
  {
    if k > 0 {
      PagesTile(filtered, k - 1, limit);
      assert PageStart(k, limit) == (k - 1) * limit;
      assert PageEnd(k, limit) == k * limit;
      assert (k - 1) * limit <= k * limit;
      var lo := Min((k - 1) * limit, |filtered|);
      var hi := Min(k * limit, |filtered|);
      assert filtered[..lo] + filtered[lo..hi] == filtered[..hi];
    }
  }

  /** 120 filtered tickers in pages of 50: sizes 50, 50, 20 and `hasMore` true, true, false. */
  lemma HundredTwentyTickers(filtered: seq<Ticker>)
    requires |filtered| == 120
    ensures |PageOf(filtered, 1, 50)| == 50 && HasMore(120, 1, 50)
    ensures |PageOf(filtered, 2, 50)| == 50 && HasMore(120, 2, 50)
    ensures |PageOf(filtered, 3, 50)| == 20 && !HasMore(120, 3, 50)
    ensures |PageOf(filtered, 4, 50)| == 0
  {
  }

  // ------------------------------------------------------------- conversion

  predicate IsInrPair(symbol: string) {
    EndsWith(symbol, "INR")
  }

  /** The factor applied to prices and volumes: 1 for an INR pair, the USDT→INR rate otherwise. */
  function Factor(inrPair: bool, rate: real): real {
    if inrPair then 1.0 else rate
  }

  /**
   * The base asset of a pair: `symbol.replace('INR', '')` for an INR pair,
   * `symbol.replace('USDT', '')` otherwise (first occurrence only).
   */
  function BaseSymbol(pair: string): string {
    if IsInrPair(pair) then ReplaceFirst(pair, "INR", "") else ReplaceFirst(pair, "USDT", "")
  }

  /** When the quote currency occurs only at the end of the pair, the base is the pair without it. */
  lemma BaseSymbolStripsQuote(stem: string, quote: string)
    requires quote == "INR" || quote == "USDT"
    requires forall j: nat :: j < |stem| ==> !OccursAt(stem + quote, quote, j)
    ensures BaseSymbol(stem + quote) == stem
  {
    var pair := stem + quote;
    RemoveSuffix(stem, quote);
    if quote == "USDT" {
      assert pair[|pair| - 1] == 'T';
      assert !IsInrPair(pair);
    } else {
      assert pair[|pair| - 3..] == "INR";
    }
  }

  /** `priceResponse.data.find(p => p.symbol === symbol)?.price`. */
  function FindPrice(quotes: seq<PriceQuote>, symbol: string): Option<real> {
    if quotes == [] then None
    else if quotes[0].symbol == symbol then Some(quotes[0].price)
    else FindPrice(quotes[1..], symbol)
  }

  /** `find` returns the price of the first quote for the symbol, and nothing when there is none. */
  lemma {:induction false} FindPriceFirst(quotes: seq<PriceQuote>, symbol: string)
    ensures FindPrice(quotes, symbol).None? <==> forall i :: 0 <= i < |quotes| ==> quotes[i].symbol != symbol
    ensures FindPrice(quotes, symbol).Some? ==>
      exists i :: 0 <= i < |quotes| && quotes[i].symbol == symbol && FindPrice(quotes, symbol).value == quotes[i].price
                  && forall j :: 0 <= j < i ==> quotes[j].symbol != symbol
  {
    if quotes != [] && quotes[0].symbol != symbol {
      FindPriceFirst(quotes[1..], symbol);
      if FindPrice(quotes, symbol).Some? {
        var i :| 0 <= i < |quotes[1..]| && quotes[1..][i].symbol == symbol
                 && FindPrice(quotes[1..], symbol).value == quotes[1..][i].price
                 && forall j :: 0 <= j < i ==> quotes[1..][j].symbol != symbol;
        assert forall j :: 0 <= j < i + 1 ==> quotes[j].symbol != symbol by {
          forall j | 0 <= j < i + 1 ensures quotes[j].symbol != symbol {
            if j > 0 { assert quotes[j] == quotes[1..][j - 1]; }
          }
        }
      }
    } else if quotes != [] {
      assert quotes[0].symbol == symbol;
    }
  }

  /** `coins.reduce((acc, c) => { acc[c.symbol.toUpperCase()] = {name, logoUrl}; ... })`: later coins overwrite. */
  function DetailsBySymbol(coins: seq<MarketCoin>): map<string, CoinDetail>
    decreases |coins|
  {
    if coins == [] then map[]
    else
      var last := coins[|coins| - 1];
      DetailsBySymbol(coins[..|coins| - 1])[ToUpper(last.symbol) := CoinDetail(last.name, last.image)]
  }

  /** The sparkline values of a series: the close of every candle, in order. */
  function Closes(candles: seq<Candle>): (r: seq<real>)
    ensures |r| == |candles|
    ensures forall i :: 0 <= i < |candles| ==> r[i] == candles[i].close
  {
    seq(|candles|, i requires 0 <= i < |candles| => candles[i].close)
  }

  // -------------------------------------------------------------- page builder

  /**
   * The combined record of one ticker of the page (the `paginatedTickers.map`
   * callback); `id` is the CoinGecko id of the ticker's base symbol.
   */
  function Record(
    t: Ticker,
    id: string,
    quotes: seq<PriceQuote>,
    rate: real,
    logos: map<string, string>,
    details: map<string, CoinDetail>,
    sparklines: map<string, seq<real>>): AssetSummary
  {
    var factor := Factor(IsInrPair(t.symbol), rate);
    var symbol := BaseSymbol(t.symbol);
    var raw := if FindPrice(quotes, t.symbol).Some? then FindPrice(quotes, t.symbol).value else t.lastPrice;
    AssetSummary(
      symbol,
      if symbol in details && details[symbol].name != "" then details[symbol].name else symbol,
      raw * factor,
      t.priceChangePercent,
      t.volume * factor,
      t.highPrice * factor,
      t.lowPrice * factor,
      if id in logos && logos[id] != "" then logos[id] else PlaceholderLogo,
      if symbol in sparklines then sparklines[symbol] else [])
  }

  /** The page symbols: the base asset of each ticker of the page, in order. */
  function PageSymbols(tickers: seq<Ticker>, page: nat, limit: nat): (r: seq<string>)
    requires page >= 1
    ensures |r| == |PageOf(FilterQuoted(tickers), page, limit)|
    ensures forall i :: 0 <= i < |r| ==> r[i] == BaseSymbol(PageOf(FilterQuoted(tickers), page, limit)[i].symbol)
  {
    var p := PageOf(FilterQuoted(tickers), page, limit);
    seq(|p|, i requires 0 <= i < |p| => BaseSymbol(p[i].symbol))
  }

  function CoinIds(symbols: seq<string>): (r: seq<string>)
    ensures |r| == |symbols|
    ensures forall i :: 0 <= i < |r| ==> r[i] == CoinGeckoId(symbols[i])
  {
    seq(|symbols|, i requires 0 <= i < |symbols| => CoinGeckoId(symbols[i]))
  }

  /**
   * The result of `fetchAssets` once every reply has arrived; `idOf` maps a
   * base symbol to the CoinGecko id its logo is stored under.
   */
  function BuildPage(
    page: nat,
    limit: nat,
    tickers: seq<Ticker>,
    quotes: seq<PriceQuote>,
    rate: real,
    idOf: string -> string,
    logos: map<string, string>,
    details: map<string, CoinDetail>,
    sparklines: map<string, seq<real>>): (r: AssetPage)
    requires page >= 1
    ensures |r.assets| == |PageOf(FilterQuoted(tickers), page, limit)| <= limit
    ensures r.hasMore <==> page * limit < |FilterQuoted(tickers)|
  {
    var filtered := FilterQuoted(tickers);
    var p := PageOf(filtered, page, limit);
    HasMoreIff(|filtered|, page, limit);
    AssetPage(
      seq(|p|, i requires 0 <= i < |p| => Record(p[i], idOf(BaseSymbol(p[i].symbol)), quotes, rate, logos, details, sparklines)),
      HasMore(|filtered|, page, limit))
  }

  /** The record of a ticker: its base symbol, and its quote price, volume, high and low converted. */
  lemma RecordFields(
    t: Ticker, id: string, quotes: seq<PriceQuote>, rate: real,
    logos: map<string, string>, details: map<string, CoinDetail>, sparklines: map<string, seq<real>>)
    ensures var a := Record(t, id, quotes, rate, logos, details, sparklines);
            var f := Factor(IsInrPair(t.symbol), rate);
            && a.symbol == BaseSymbol(t.symbol)
            && a.price == (if FindPrice(quotes, t.symbol).Some? then FindPrice(quotes, t.symbol).value else t.lastPrice) * f
            && a.volume == t.volume * f && a.high == t.highPrice * f && a.low == t.lowPrice * f
            && a.priceChangePercent == t.priceChangePercent
  {
  }

  /**
   * Each ticker of the page yields one record, in order, and each record is
   * that ticker's: the base symbol, the price of the matching quote (else the
   * last price), and price, volume, high and low multiplied by the rate
   * exactly when the pair is not an INR pair; the percent change is never
   * converted.
   */
  lemma PageRecords(
    page: nat, limit: nat, tickers: seq<Ticker>, quotes: seq<PriceQuote>, rate: real, idOf: string -> string,
    logos: map<string, string>, details: map<string, CoinDetail>, sparklines: map<string, seq<real>>, i: nat)
    requires page >= 1
    requires i < |BuildPage(page, limit, tickers, quotes, rate, idOf, logos, details, sparklines).assets|
    ensures var t := PageOf(FilterQuoted(tickers), page, limit)[i];
            var a := BuildPage(page, limit, tickers, quotes, rate, idOf, logos, details, sparklines).assets[i];
            var f := Factor(IsInrPair(t.symbol), rate);
            && t == FilterQuoted(tickers)[PageStart(page, limit) + i]
            && a.symbol == BaseSymbol(t.symbol)
            && a.price == (if FindPrice(quotes, t.symbol).Some? then FindPrice(quotes, t.symbol).value else t.lastPrice) * f
            && a.volume == t.volume * f && a.high == t.highPrice * f && a.low == t.lowPrice * f
            && a.priceChangePercent == t.priceChangePercent
  {
    var t := PageOf(FilterQuoted(tickers), page, limit)[i];
    BuildPageAt(page, limit, tickers, quotes, rate, idOf, logos, details, sparklines, i);
    RecordFields(t, idOf(BaseSymbol(t.symbol)), quotes, rate, logos, details, sparklines);
  }

  lemma BuildPageAt(
    page: nat, limit: nat, tickers: seq<Ticker>, quotes: seq<PriceQuote>, rate: real, idOf: string -> string,
    logos: map<string, string>, details: map<string, CoinDetail>, sparklines: map<string, seq<real>>, i: nat)
    requires page >= 1
    requires i < |PageOf(FilterQuoted(tickers), page, limit)|
    ensures var t := PageOf(FilterQuoted(tickers), page, limit)[i];
            && t == FilterQuoted(tickers)[PageStart(page, limit) + i]
            && BuildPage(page, limit, tickers, quotes, rate, idOf, logos, details, sparklines).assets[i]
               == Record(t, idOf(BaseSymbol(t.symbol)), quotes, rate, logos, details, sparklines)
  {
  }

  /** A record whose joins find nothing degrades to placeholders instead of being dropped. */
  lemma RecordFallbacks(
    t: Ticker, id: string, quotes: seq<PriceQuote>, rate: real,
    logos: map<string, string>, details: map<string, CoinDetail>, sparklines: map<string, seq<real>>)
    ensures var a := Record(t, id, quotes, rate, logos, details, sparklines);
            && (id !in logos ==> a.logoUrl == PlaceholderLogo)
            && (a.logoUrl == PlaceholderLogo || (id in logos && a.logoUrl == logos[id]))
            && (a.symbol !in details ==> a.name == a.symbol)
            && (a.symbol in details && details[a.symbol].name != "" ==> a.name == details[a.symbol].name)
            && (a.symbol !in sparklines ==> a.sparklineData == [])
            && (id in logos && logos[id] != "" ==> a.logoUrl == logos[id])
            && (id in logos && logos[id] == "" ==> a.logoUrl == PlaceholderLogo)
            && (a.symbol in sparklines ==> a.sparklineData == sparklines[a.symbol])
            && (a.symbol in details && details[a.symbol].name == "" ==> a.name == a.symbol)
  {
  }

  // ------------------------------------------------------------ candle series

  function Convert(c: Candle, factor: real): Candle {
    Candle(c.time, c.open * factor, c.high * factor, c.low * factor, c.close * factor, c.volume * factor)
  }

  function ConvertAll(rows: seq<Candle>, factor: real): (r: seq<Candle>)
    ensures |r| == |rows|
  {
    seq(|rows|, i requires 0 <= i < |rows| => Convert(rows[i], factor))
  }

  /**
   * The series `fetchHistoricalData` returns: the INR pair's candles as they
   * are, else the USDT pair's candles converted with the rate, else failure.
   */
  function SeriesFrom(rate: real, replies: KlineReplies): Result<seq<Candle>> {
    match replies.inr
    case Some(rows) => Ok(ConvertAll(rows, Factor(true, rate)))
    case None =>
      match replies.usdt
      case Some(rows) => Ok(ConvertAll(rows, Factor(false, rate)))
      case None => Err("Error fetching historical data")
  }

  /**
   * The series fails only when both pairs fail; it has one candle per reply
   * row, in order, with the time copied and every price and the volume
   * multiplied once: by 1 when the INR pair answered, by the rate otherwise.
   */
  lemma SeriesConversion(rate: real, replies: KlineReplies)
    ensures SeriesFrom(rate, replies).Ok? <==> replies.inr.Some? || replies.usdt.Some?
    ensures replies.inr.Some? ==> SeriesFrom(rate, replies).value == replies.inr.value
    ensures replies.inr.None? && replies.usdt.Some? ==>
      var rows := replies.usdt.value;
      var r := SeriesFrom(rate, replies).value;
      |r| == |rows| &&
      forall i :: 0 <= i < |rows| ==>
        && r[i].time == rows[i].time
        && r[i].open == rows[i].open * rate && r[i].high == rows[i].high * rate
        && r[i].low == rows[i].low * rate && r[i].close == rows[i].close * rate
        && r[i].volume == rows[i].volume * rate
  {
    if replies.inr.Some? {
      var rows := replies.inr.value;
      var r := SeriesFrom(rate, replies).value;
      assert forall i :: 0 <= i < |rows| ==> r[i] == rows[i];
    }
  }

  /** `fetchHistoricalData`: looks up the rate through the cache, then picks and converts the series. */
  method FetchHistoricalData(cache: Cache, rateQuote: Option<real>, replies: KlineReplies)
    returns (r: Result<seq<Candle>>)
    requires cache.Valid()
    modifies cache
    ensures cache.Valid()
    ensures r == SeriesFrom(ResolvedRate(old(cache.entries), rateQuote), replies)
    ensures cache.entries == RateEntries(old(cache.entries), rateQuote)
  {
    var rate := cache.UsdtInrRate(rateQuote);
    var inrPair: bool;
    var rows: seq<Candle>;
    match replies.inr {
      case Some(inrRows) =>
        inrPair, rows := true, inrRows;
      case None =>
        match replies.usdt {
          case Some(usdtRows) =>
            inrPair, rows := false, usdtRows;
          case None =>
            return Err("Error fetching historical data");
        }
    }
    r := Ok(ConvertAll(rows, Factor(inrPair, rate)));
  }

  // --------------------------------------------------------------- sparklines

  /**
   * `Promise.all` over the per-symbol series, then `symbols.reduce` into a map
   * from symbol to closes; any failed series fails the whole result.
   */
  function GatherCloses(symbols: seq<string>, results: seq<Result<seq<Candle>>>): Result<map<string, seq<real>>>
    requires |results| == |symbols|
    decreases |symbols|
  {
    if symbols == [] then Ok(map[])
    else
      var n := |symbols| - 1;
      match GatherCloses(symbols[..n], results[..n])
      case Err(e) => Err(e)
      case Ok(acc) =>
        match results[n]
        case Err(e) => Err(e)
        case Ok(candles) => Ok(acc[symbols[n] := Closes(candles)])
  }

  /** The series of every symbol, each fetched with the same rate. */
  function SeriesResults(symbols: seq<string>, rate: real, klines: string -> KlineReplies): (r: seq<Result<seq<Candle>>>)
    ensures |r| == |symbols|
    ensures forall j :: 0 <= j < |symbols| ==> r[j] == SeriesFrom(rate, klines(symbols[j]))
  {
    seq(|symbols|, j requires 0 <= j < |symbols| => SeriesFrom(rate, klines(symbols[j])))
  }

  /** The sparkline map succeeds iff every symbol's series does. */
  lemma {:induction false} SparklinesSucceed(symbols: seq<string>, rate: real, klines: string -> KlineReplies)
    ensures GatherCloses(symbols, SeriesResults(symbols, rate, klines)).Ok? <==>
            forall j :: 0 <= j < |symbols| ==> SeriesFrom(rate, klines(symbols[j])).Ok?
    decreases |symbols|
  {
    if symbols != [] {
      var n := |symbols| - 1;
      var init := symbols[..n];
      SparklinesSucceed(init, rate, klines);
      assert SeriesResults(symbols, rate, klines)[..n] == SeriesResults(init, rate, klines);
      if !GatherCloses(init, SeriesResults(init, rate, klines)).Ok? {
        var j :| 0 <= j < n && !SeriesFrom(rate, klines(init[j])).Ok?;
        assert init[j] == symbols[j];
      }
    }
  }

  /** One more symbol whose series succeeds adds its closes to the map gathered so far. */
  lemma SparklinesStep(symbols: seq<string>, rate: real, klines: string -> KlineReplies)
    requires symbols != []
    requires SeriesFrom(rate, klines(symbols[|symbols| - 1])).Ok?
    requires GatherCloses(symbols[..|symbols| - 1], SeriesResults(symbols[..|symbols| - 1], rate, klines)).Ok?
    ensures var n := |symbols| - 1;
            GatherCloses(symbols, SeriesResults(symbols, rate, klines))
            == Ok(GatherCloses(symbols[..n], SeriesResults(symbols[..n], rate, klines)).value
                    [symbols[n] := Closes(SeriesFrom(rate, klines(symbols[n])).value)])
  {
    var n := |symbols| - 1;
    var results := SeriesResults(symbols, rate, klines);
    SeriesResultsPrefix(symbols, n, rate, klines);
    assert results[n] == SeriesFrom(rate, klines(symbols[n]));
  }

  lemma SeriesResultsPrefix(symbols: seq<string>, n: nat, rate: real, klines: string -> KlineReplies)
    requires n <= |symbols|
    ensures SeriesResults(symbols, rate, klines)[..n] == SeriesResults(symbols[..n], rate, klines)
  {
  }

  /** When every series succeeds, the map has exactly the requested symbols as keys. */
  lemma {:induction false} SparklinesKeys(symbols: seq<string>, rate: real, klines: string -> KlineReplies)
    requires forall j :: 0 <= j < |symbols| ==> SeriesFrom(rate, klines(symbols[j])).Ok?
    ensures var g := GatherCloses(symbols, SeriesResults(symbols, rate, klines));
            g.Ok? && g.value.Keys == (set s | s in symbols)
    decreases |symbols|
  {
    if symbols != [] {
      var n := |symbols| - 1;
      var init := symbols[..n];
      assert forall j :: 0 <= j < n ==> init[j] == symbols[j];
      SparklinesKeys(init, rate, klines);
      SparklinesStep(symbols, rate, klines);
      assert symbols == init + [symbols[n]];
      assert (set s | s in symbols) == (set s | s in init) + {symbols[n]};
    }
  }

  /** When every series succeeds, each requested symbol is mapped to its own candles' closes. */
  lemma {:induction false} SparklinesValues(symbols: seq<string>, rate: real, klines: string -> KlineReplies)
    requires forall j :: 0 <= j < |symbols| ==> SeriesFrom(rate, klines(symbols[j])).Ok?
    ensures var g := GatherCloses(symbols, SeriesResults(symbols, rate, klines));
            && g.Ok?
            && forall j :: 0 <= j < |symbols| ==>
                 symbols[j] in g.value && g.value[symbols[j]] == Closes(SeriesFrom(rate, klines(symbols[j])).value)
    decreases |symbols|
  {
    if symbols != [] {
      var n := |symbols| - 1;
      var init := symbols[..n];
      assert forall j :: 0 <= j < n ==> init[j] == symbols[j];
      SparklinesValues(init, rate, klines);
      SparklinesStep(symbols, rate, klines);
    }
  }

  /**
   * The sparkline map succeeds iff every symbol's series does; it then maps
   * exactly the requested symbols, each to its candles' closes in order.
   */
  lemma SparklinesSpec(symbols: seq<string>, rate: real, klines: string -> KlineReplies)
    ensures var g := GatherCloses(symbols, SeriesResults(symbols, rate, klines));
            && (g.Ok? <==> forall j :: 0 <= j < |symbols| ==> SeriesFrom(rate, klines(symbols[j])).Ok?)
            && (g.Ok? ==> g.value.Keys == set s | s in symbols)
            && (g.Ok? ==> forall j :: 0 <= j < |symbols| ==>
                 g.value[symbols[j]] == Closes(SeriesFrom(rate, klines(symbols[j])).value))
  {
    SparklinesSucceed(symbols, rate, klines);
    if GatherCloses(symbols, SeriesResults(symbols, rate, klines)).Ok? {
      SparklinesKeys(symbols, rate, klines);
      SparklinesValues(symbols, rate, klines);
    }
  }

  /** `fetchMultipleAssets24hData`: every symbol's 24-hour series, all converted with one rate. */
  method FetchSparklines(cache: Cache, symbols: seq<string>, rateQuote: Option<real>, klines: string -> KlineReplies)
    returns (r: Result<map<string, seq<real>>>)
    requires cache.Valid()
    modifies cache
    ensures cache.Valid()
    ensures r == GatherCloses(symbols, SeriesResults(symbols, ResolvedRate(old(cache.entries), rateQuote), klines))
    ensures cache.entries == if symbols == [] then old(cache.entries) else RateEntries(old(cache.entries), rateQuote)
  {
    ghost var rate := ResolvedRate(cache.entries, rateQuote);
    RateLookupStable(cache.entries, rateQuote);
    var results: seq<Result<seq<Candle>>> := [];
    var i := 0;
    while i < |symbols|
      invariant 0 <= i <= |symbols|
      invariant cache.Valid()
      invariant cache.entries == if i == 0 then old(cache.entries) else RateEntries(old(cache.entries), rateQuote)
      invariant results == SeriesResults(symbols[..i], rate, klines)
    {
      var series := FetchHistoricalData(cache, rateQuote, klines(symbols[i]));
      results := results + [series];
      i := i + 1;
      assert symbols[..i] == symbols[..i - 1] + [symbols[i - 1]];
    }
    assert symbols[..i] == symbols;
    r := GatherCloses(symbols, results);
  }

  // ---------------------------------------------------------------- fetchAssets

  /** Writing a logo batch after a rate lookup leaves the rate settled: the same quote gives the same rate and no change. */
  lemma RateSettledAfterBatch(entries: map<string, CacheValue>, quote: Option<real>, key: string, value: CacheValue)
    requires RateSlotOk(entries) && key != RateKey
    ensures RateSlotOk(RateEntries(entries, quote)[key := value])
    ensures ResolvedRate(RateEntries(entries, quote)[key := value], quote) == ResolvedRate(entries, quote)
    ensures RateEntries(RateEntries(entries, quote)[key := value], quote) == RateEntries(entries, quote)[key := value]
  {
    RateLookupStable(entries, quote);
    var e1 := RateEntries(entries, quote);
    RateIgnoresOtherKeys(e1, key, value, quote);
    assert Lookup(e1[key := value], RateKey) == Lookup(e1, RateKey);
    if Lookup(e1, RateKey).None? {
      assert e1[RateKey] == Rate(ResolvedRate(entries, quote));
      assert e1[key := value][RateKey := Rate(ResolvedRate(entries, quote))] == e1[key := value];
    }
  }

  /**
   * `fetchAssets(page, limit)`: fails when the ticker or price snapshot, any
   * page symbol's series or the markets request fails; otherwise returns the
   * built page.
   */
  method FetchAssets(
    cache: Cache,
    page: nat,
    limit: nat,
    tickers: Option<seq<Ticker>>,
    quotes: Option<seq<PriceQuote>>,
    rateQuote: Option<real>,
    logoReplies: Replies,
    klines: string -> KlineReplies,
    markets: Option<seq<MarketCoin>>)
    returns (r: Result<AssetPage>)
    requires page >= 1
    requires cache.Valid()
    modifies cache
    ensures cache.Valid()
    ensures tickers.None? || quotes.None? ==> r.Err? && cache.entries == old(cache.entries)
    ensures tickers.Some? && quotes.Some? ==>
      var rate := ResolvedRate(old(cache.entries), rateQuote);
      var symbols := PageSymbols(tickers.value, page, limit);
      var afterRate := RateEntries(old(cache.entries), rateQuote);
      var logos := BatchLogos(afterRate, CoinIds(symbols), logoReplies);
      var sparklines := GatherCloses(symbols, SeriesResults(symbols, rate, klines));
      && cache.entries == BatchEntries(afterRate, CoinIds(symbols), logoReplies)
      && (r.Ok? <==> sparklines.Ok? && markets.Some?)
      && (r.Ok? ==> r.value == BuildPage(page, limit, tickers.value, quotes.value, rate, CoinGeckoId, logos,
                                         DetailsBySymbol(markets.value), sparklines.value))
  {
    if tickers.None? || quotes.None? {
      return Err("Error fetching assets");
    }
    ghost var entries0 := cache.entries;
    var rate := cache.UsdtInrRate(rateQuote);
    ghost var afterRate := cache.entries;
    var symbols := PageSymbols(tickers.value, page, limit);
    var ids := CoinIds(symbols);
    var logos, _ := FetchLogoBatch(cache, ids, logoReplies);
    if !BatchCached(afterRate, ids) {
      RateSettledAfterBatch(entries0, rateQuote, BatchKey(ids), LogoBatch(logos));
    }
    ghost var afterBatch := cache.entries;
    assert ResolvedRate(afterBatch, rateQuote) == rate;
    assert RateEntries(afterBatch, rateQuote) == afterBatch;
    var sparklines := FetchSparklines(cache, symbols, rateQuote, klines);
    if sparklines.Err? {
      return Err(sparklines.reason);
    }
    if markets.None? {
      return Err("Error fetching assets");
    }
    r := Ok(BuildPage(page, limit, tickers.value, quotes.value, rate, CoinGeckoId, logos,
                      DetailsBySymbol(markets.value), sparklines.value));
  }

  // ------------------------------------------------------------- asset detail

  /** A 24-hour ticker and a latest price, as answered for one trading pair. */
  datatype PairSnapshot = PairSnapshot(ticker: Ticker, price: real)

  /** The parts of CoinGecko's `/coins/{id}` reply that are used; each may be missing. */
  datatype CoinInfo = CoinInfo(
    name: Option<string>,
    marketCapInr: Option<real>,
    circulatingSupply: Option<real>,
    marketCapRank: Option<nat>)

  /** A statistic shown on the detail screen: a number, or a text such as "N/A" or "#3". */
  datatype StatValue = Num(amount: real) | Text(text: string)

  const NotAvailable: StatValue := Text("N/A")

  /** JavaScript truthiness of a statistic: 0 and the empty text are falsy. */
  predicate StatTruthy(v: StatValue) {
    match v
    case Num(x) => x != 0.0
    case Text(s) => s != ""
  }

  datatype AssetDetail = AssetDetail(
    symbol: string,
    name: string,
    price: real,
    priceChangePercent: real,
    volume: real,
    high: real,
    low: real,
    logoUrl: Option<string>,
    marketCap: StatValue,
    circulatingSupply: StatValue,
    popularity: StatValue)

  /** `value || 'N/A'` for an optional number. */
  function NumberOrNA(x: Option<real>): StatValue {
    if x.Some? && x.value != 0.0 then Num(x.value) else NotAvailable
  }

  /** The record `fetchAssetDetail` builds from the pair snapshot, the logo map and the coin reply. */
  function DetailFrom(symbol: string, rate: real, snap: PairSnapshot, logos: map<string, string>, info: CoinInfo): AssetDetail {
    var factor := Factor(IsInrPair(snap.ticker.symbol), rate);
    var id := CoinGeckoId(symbol);
    AssetDetail(
      symbol,
      if info.name.Some? && info.name.value != "" then info.name.value else symbol,
      snap.price * factor,
      snap.ticker.priceChangePercent,
      snap.ticker.volume * factor,
      snap.ticker.highPrice * factor,
      snap.ticker.lowPrice * factor,
      if id in logos then Some(logos[id]) else None,
      NumberOrNA(info.marketCapInr),
      NumberOrNA(info.circulatingSupply),
      if info.marketCapRank.Some? && info.marketCapRank.value != 0
      then Text("#" + NatToString(info.marketCapRank.value)) else NotAvailable)
  }

  /**
   * The detail's name falls back to the symbol; market cap, supply and
   * popularity are "N/A" when missing or zero, popularity is "#rank"
   * otherwise; prices and volume are converted exactly when the pair is not INR.
   */
  lemma DetailSentinels(symbol: string, rate: real, snap: PairSnapshot, logos: map<string, string>, info: CoinInfo)
    ensures var d := DetailFrom(symbol, rate, snap, logos, info);
            var f := if IsInrPair(snap.ticker.symbol) then 1.0 else rate;
            && (info.name.None? ==> d.name == symbol)
            && (d.marketCap == NotAvailable <==> info.marketCapInr.None? || info.marketCapInr.value == 0.0)
            && (d.circulatingSupply == NotAvailable <==> info.circulatingSupply.None? || info.circulatingSupply.value == 0.0)
            && (d.popularity == NotAvailable <==> info.marketCapRank.None? || info.marketCapRank.value == 0)
            && (info.name.Some? && info.name.value != "" ==> d.name == info.name.value)
            && (info.name.Some? && info.name.value == "" ==> d.name == symbol)
            && (info.marketCapInr.Some? && info.marketCapInr.value != 0.0 ==> d.marketCap == Num(info.marketCapInr.value))
            && (info.circulatingSupply.Some? && info.circulatingSupply.value != 0.0 ==>
                  d.circulatingSupply == Num(info.circulatingSupply.value))
            && (info.marketCapRank.Some? && info.marketCapRank.value != 0 ==>
                  d.popularity == Text("#" + NatToString(info.marketCapRank.value)))
            && (d.popularity != NotAvailable ==> d.popularity.text[0] == '#')
            && (CoinGeckoId(symbol) in logos <==> d.logoUrl.Some?)
            && (d.logoUrl.Some? ==> d.logoUrl.value == logos[CoinGeckoId(symbol)])
            && d.price == snap.price * f && d.volume == snap.ticker.volume * f
            && d.high == snap.ticker.highPrice * f && d.low == snap.ticker.lowPrice * f
            && d.priceChangePercent == snap.ticker.priceChangePercent
  {
    var d := DetailFrom(symbol, rate, snap, logos, info);
    if info.marketCapRank.Some? && info.marketCapRank.value != 0 {
      var text := "#" + NatToString(info.marketCapRank.value);
      assert text[1] != 'N';
      assert d.popularity == Text(text);
    }
  }

  /**
   * `fetchAssetDetail(symbol)`: the INR pair's snapshot, else the USDT pair's;
   * fails when both fail or when the coin request fails.
   */
  method FetchAssetDetail(
    cache: Cache,
    symbol: string,
    rateQuote: Option<real>,
    inr: Option<PairSnapshot>,
    usdt: Option<PairSnapshot>,
    logoReplies: Replies,
    coin: Option<CoinInfo>)
    returns (r: Result<AssetDetail>)
    requires cache.Valid()
    modifies cache
    ensures cache.Valid()
    ensures r.Ok? <==> (inr.Some? || usdt.Some?) && coin.Some?
    ensures inr.None? && usdt.None? ==> cache.entries == RateEntries(old(cache.entries), rateQuote)
    ensures inr.Some? || usdt.Some? ==>
      var afterRate := RateEntries(old(cache.entries), rateQuote);
      && cache.entries == BatchEntries(afterRate, [CoinGeckoId(symbol)], logoReplies)
      && (r.Ok? ==>
           r.value == DetailFrom(symbol, ResolvedRate(old(cache.entries), rateQuote),
                                 if inr.Some? then inr.value else usdt.value,
                                 BatchLogos(afterRate, [CoinGeckoId(symbol)], logoReplies), coin.value))
  {
    var rate := cache.UsdtInrRate(rateQuote);
    var snap: PairSnapshot;
    match inr {
      case Some(s) => snap := s;
      case None =>
        match usdt {
          case Some(s) => snap := s;
          case None => return Err("Error fetching asset detail");
        }
    }
    var logos, _ := FetchLogoBatch(cache, [CoinGeckoId(symbol)], logoReplies);
    match coin {
      case None => return Err("Error fetching asset detail");
      case Some(info) => r := Ok(DetailFrom(symbol, rate, snap, logos, info));
    }
  }

  // ------------------------------------------------------------- live ticks

  /** One message of the ticker stream, numeric fields parsed; `others` holds every other field as sent. */
  datatype Tick = Tick(
    close: real,
    high: real,
    low: real,
    open: real,
    volume: real,
    changePercent: real,
    others: map<string, string>)

  /** The `{...tickerData, c, h, l, o, v}` spread: exactly c, h, l, o and v are multiplied by the rate. */
  function NormaliseTick(t: Tick, rate: real): (r: Tick)
    ensures r.close == t.close * rate && r.high == t.high * rate && r.low == t.low * rate
    ensures r.open == t.open * rate && r.volume == t.volume * rate
    ensures r.changePercent == t.changePercent && r.others == t.others
  {
    t.(close := t.close * rate, high := t.high * rate, low := t.low * rate,
       open := t.open * rate, volume := t.volume * rate)
  }

  /** The state one subscription keeps across messages: the rate it fetched, if any. */
  class TickerStream {
    /** `usdtInrPrice` of the subscription: undefined until the first message. */
    var rate: Option<real>
    /** How many times this subscription has looked the rate up. */
    ghost var rateLookups: nat

    /** `!usdtInrPrice`: unset, or a falsy 0. */
    predicate RateUnset()
      reads this
    {
      rate.None? || rate.value == 0.0
    }

    constructor ()
      ensures rate.None? && rateLookups == 0
    {
      rate := None;
      rateLookups := 0;
    }

    /** `ws.onmessage`: fetch the rate if this subscription has none yet, then normalise the tick. */
    method OnMessage(cache: Cache, rateQuote: Option<real>, tick: Tick) returns (out: Tick)
      requires cache.Valid()
      modifies this, cache
      ensures cache.Valid()
      ensures old(RateUnset()) ==>
        && rate == Some(ResolvedRate(old(cache.entries), rateQuote))
        && rateLookups == old(rateLookups) + 1
        && cache.entries == RateEntries(old(cache.entries), rateQuote)
      ensures !old(RateUnset()) ==>
        rate == old(rate) && rateLookups == old(rateLookups) && cache.entries == old(cache.entries)
      ensures out == NormaliseTick(tick, rate.value)
    {
      if RateUnset() {
        var fetched := cache.UsdtInrRate(rateQuote);
        rate := Some(fetched);
        rateLookups := rateLookups + 1;
      }
      out := NormaliseTick(tick, rate.value);
    }
  }

  /** Two messages on one subscription: the rate is looked up on the first only, unless it came back 0. */
  method TwoTicks(cache: Cache, rateQuote: Option<real>, first: Tick, second: Tick)
    returns (a: Tick, b: Tick)
    requires cache.Valid()
    modifies cache
    ensures ResolvedRate(old(cache.entries), rateQuote) != 0.0 ==>
      var rate := ResolvedRate(old(cache.entries), rateQuote);
      a == NormaliseTick(first, rate) && b == NormaliseTick(second, rate)
  {
    var stream := new TickerStream();
    a := stream.OnMessage(cache, rateQuote, first);
    assert stream.rateLookups == 1;
    b := stream.OnMessage(cache, rateQuote, second);
    assert stream.rateLookups == 1 || ResolvedRate(old(cache.entries), rateQuote) == 0.0;
  }
}
