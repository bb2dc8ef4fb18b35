/**
 * The asset-detail synchroniser (`useAssetDetailData` in
 * src/hooks/useAssetData.ts): the time-frame table that chooses the kline
 * window, the chart-data formatting, the detail and statistics refresh after a
 * series load, and the statistics update for a selected chart label.
 *
 * The clock (`endTime`), the fetchers' outcomes and the locale rendering of
 * a candle time as a label are parameters.
 */
module AssetDetailData {
  import opened Common
  import opened MarketData

  // ------------------------------------------------------------ time frames

  /** The kline intervals the hook requests. */
  datatype Interval = OneMinute | FifteenMinutes | OneHour | FourHours | OneDay

  /** The interval's name in the kline request. */
  function IntervalName(i: Interval): string {
    match i
    case OneMinute => "1m"
    case FifteenMinutes => "15m"
    case OneHour => "1h"
    case FourHours => "4h"
    case OneDay => "1d"
  }

  /** The length of one candle of the interval, in milliseconds. */
  function IntervalMillis(i: Interval): nat {
    match i
    case OneMinute => 60_000
    case FifteenMinutes => 900_000
    case OneHour => 3_600_000
    case FourHours => 14_400_000
    case OneDay => 86_400_000
  }

  /** `new Date('2009-01-03').getTime()`: midnight UTC of 3 January 2009. */
  const AllTimeStart: int := 1_230_940_800_000

  /** The request the hook issues: start time and interval (the end time is the current time). */
  datatype Window = Window(start: int, interval: Interval)

  /** The look-back of a time frame in milliseconds; `None` for "All", which starts at a fixed date. */
  function Lookback(timeFrame: string): Option<nat> {
    if timeFrame == "24H" then Some(86_400_000)
    else if timeFrame == "1W" then Some(604_800_000)
    else if timeFrame == "1M" then Some(2_592_000_000)
    else if timeFrame == "6M" then Some(6 * 2_592_000_000)
    else if timeFrame == "1Y" then Some(31_536_000_000)
    else if timeFrame == "All" then None
    else Some(3_600_000)
  }

  function IntervalFor(timeFrame: string): Interval {
    if timeFrame == "24H" then FifteenMinutes
    else if timeFrame == "1W" then OneHour
    else if timeFrame == "1M" || timeFrame == "6M" then FourHours
    else if timeFrame == "1Y" || timeFrame == "All" then OneDay
    else OneMinute
  }

  /** The time-frame `switch` of `loadHistoricalData`. */
  function WindowFor(timeFrame: string, endTime: int): (w: Window)
    ensures Lookback(timeFrame).Some? ==> w.start == endTime - Lookback(timeFrame).value
    ensures Lookback(timeFrame).None? ==> w.start == AllTimeStart
    ensures w.interval == IntervalFor(timeFrame)
  {
    match Lookback(timeFrame)
    case Some(span) => Window(endTime - span, IntervalFor(timeFrame))
    case None => Window(AllTimeStart, IntervalFor(timeFrame))
  }

  predicate KnownTimeFrame(timeFrame: string) {
    timeFrame in ["1H", "24H", "1W", "1M", "6M", "1Y", "All"]
  }

  /** Any time frame the switch does not list is treated as "1H": one hour of one-minute candles. */
  lemma UnknownMeansOneHour(timeFrame: string, endTime: int)
    requires !KnownTimeFrame(timeFrame)
    ensures WindowFor(timeFrame, endTime) == WindowFor("1H", endTime)
    ensures WindowFor(timeFrame, endTime) == Window(endTime - 3_600_000, OneMinute)
  {
  }

  /** The request limit of the kline endpoint as the service calls it. */
  const KlineLimit: nat := 1000

  /** The number of whole candles of the window's interval between its start and `endTime`. */
  function WindowCandles(timeFrame: string, endTime: int): int {
    var w := WindowFor(timeFrame, endTime);
    (endTime - w.start) / IntervalMillis(w.interval)
  }

  /**
   * Whatever the end time, every time frame but "6M" and "All" spans at most
   * 1000 candles; "6M" always spans 1080 four-hour candles, and "All" spans
   * more than 1000 daily candles from 1001 days after its fixed start on.
   */
  lemma CandleBudget(timeFrame: string, endTime: int)
    ensures timeFrame != "All" ==> (WindowCandles(timeFrame, endTime) > KlineLimit <==> timeFrame == "6M")
    ensures timeFrame == "All" ==>
      (WindowCandles(timeFrame, endTime) > KlineLimit <==> endTime >= AllTimeStart + 1001 * 86_400_000)
    ensures WindowCandles("6M", endTime) == 1080
    ensures WindowCandles("1H", endTime) == 60 && WindowCandles("24H", endTime) == 96
    ensures WindowCandles("1W", endTime) == 168 && WindowCandles("1M", endTime) == 180
    ensures WindowCandles("1Y", endTime) == 365
  {
    if timeFrame == "All" {
      var x := endTime - AllTimeStart;
      var q := x / 86_400_000;
      assert q * 86_400_000 <= x < q * 86_400_000 + 86_400_000;
    }
  }

  /** The request each listed time frame issues: its look-back and the interval named in the request. */
  lemma TimeFrameTable(endTime: int)
    ensures WindowFor("1H", endTime).start == endTime - 3_600_000 && IntervalName(WindowFor("1H", endTime).interval) == "1m"
    ensures WindowFor("24H", endTime).start == endTime - 86_400_000 && IntervalName(WindowFor("24H", endTime).interval) == "15m"
    ensures WindowFor("1W", endTime).start == endTime - 604_800_000 && IntervalName(WindowFor("1W", endTime).interval) == "1h"
    ensures WindowFor("1M", endTime).start == endTime - 2_592_000_000 && IntervalName(WindowFor("1M", endTime).interval) == "4h"
    ensures WindowFor("6M", endTime).start == endTime - 15_552_000_000 && IntervalName(WindowFor("6M", endTime).interval) == "4h"
    ensures WindowFor("1Y", endTime).start == endTime - 31_536_000_000 && IntervalName(WindowFor("1Y", endTime).interval) == "1d"
    ensures WindowFor("All", endTime).start == AllTimeStart && IntervalName(WindowFor("All", endTime).interval) == "1d"
  {
  }

  // ------------------------------------------------------------- chart data

  /** The locale format each time frame uses for its labels. */
  datatype LabelStyle = HourMinute | LocaleHourMinute | MonthDay | MonthYear

  function LabelStyleFor(timeFrame: string): LabelStyle {
    if timeFrame == "24H" then LocaleHourMinute
    else if timeFrame == "1W" || timeFrame == "1M" || timeFrame == "6M" then MonthDay
    else if timeFrame == "1Y" || timeFrame == "All" then MonthYear
    else HourMinute
  }

  /** `{labels, datasets: [{data}]}`: one label and one value per point. */
  datatype ChartData = ChartData(labels: seq<string>, data: seq<real>)

  const EmptyChart: ChartData := ChartData([], [])

  /** The rendering of a candle time in a label style (`toLocaleTimeString` and friends). */
  type LabelText = (int, LabelStyle) -> string

  /** `formatChartData`: a label and the close of every candle, in candle order. */
  function FormatChartData(candles: seq<Candle>, timeFrame: string, text: LabelText): (r: ChartData)
    ensures |r.labels| == |r.data| == |candles|
    ensures candles == [] ==> r == EmptyChart
    ensures forall i :: 0 <= i < |candles| ==>
      r.data[i] == candles[i].close && r.labels[i] == text(candles[i].time, LabelStyleFor(timeFrame))
  {
    if candles == [] then EmptyChart
    else
      ChartData(
        seq(|candles|, i requires 0 <= i < |candles| => text(candles[i].time, LabelStyleFor(timeFrame))),
        Closes(candles))
  }

  // ---------------------------------------------------------------- refresh

  /** The statistics object; a field missing from the object is `None`. */
  datatype Stats = Stats(
    marketCap: Option<StatValue>,
    volume: Option<StatValue>,
    circulatingSupply: Option<StatValue>,
    popularity: Option<StatValue>,
    price: Option<real>)

  /** `a || b` where `a` may be undefined. */
  function OrElse(a: Option<StatValue>, b: StatValue): StatValue {
    if a.Some? && StatTruthy(a.value) then a.value else b
  }

  /** The statistics `loadAssetDetail` derives from a detail: each value, or "N/A" when falsy. */
  function DetailStats(d: AssetDetail): (s: Stats)
    ensures s.price.None?
    ensures s.marketCap == Some(if StatTruthy(d.marketCap) then d.marketCap else NotAvailable)
    ensures s.volume == Some(if d.volume != 0.0 then Num(d.volume) else NotAvailable)
    ensures s.circulatingSupply == Some(if StatTruthy(d.circulatingSupply) then d.circulatingSupply else NotAvailable)
    ensures s.popularity == Some(if StatTruthy(d.popularity) then d.popularity else NotAvailable)
  {
    Stats(
      Some(OrElse(Some(d.marketCap), NotAvailable)),
      Some(OrElse(Some(Num(d.volume)), NotAvailable)),
      Some(OrElse(Some(d.circulatingSupply), NotAvailable)),
      Some(OrElse(Some(d.popularity), NotAvailable)),
      None)
  }

  /** No statistics object yet (`null`): every field reads as undefined. */
  const NoStats: Stats := Stats(None, None, None, None, None)

  /**
   * The statistics after a non-empty series load. A candle carries only a
   * volume, so market cap, supply and popularity keep their previous truthy
   * value or become "N/A"; the volume is the last candle's when non-zero.
   * Any other field of the previous object (the selected price) is kept.
   */
  function RefreshedStats(prev: Option<Stats>, last: Candle): Stats {
    var p := if prev.Some? then prev.value else NoStats;
    Stats(
      Some(OrElse(p.marketCap, NotAvailable)),
      Some(OrElse(Some(Num(last.volume)), OrElse(p.volume, NotAvailable))),
      Some(OrElse(p.circulatingSupply, NotAvailable)),
      Some(OrElse(p.popularity, NotAvailable)),
      p.price)
  }

  /**
   * After a refresh every statistic is present and truthy; a truthy previous
   * value is never replaced by "N/A", and the volume is the last candle's
   * whenever that is non-zero.
   */
  lemma RefreshedStatsFallbacks(prev: Option<Stats>, last: Candle)
    ensures var s := RefreshedStats(prev, last);
            && s.marketCap.Some? && StatTruthy(s.marketCap.value)
            && s.volume.Some? && StatTruthy(s.volume.value)
            && s.circulatingSupply.Some? && StatTruthy(s.circulatingSupply.value)
            && s.popularity.Some? && StatTruthy(s.popularity.value)
            && (prev.Some? && prev.value.marketCap.Some? && StatTruthy(prev.value.marketCap.value) ==>
                  s.marketCap == prev.value.marketCap)
            && (prev.None? ==> s.marketCap == Some(NotAvailable) && s.popularity == Some(NotAvailable))
            && (last.volume != 0.0 ==> s.volume == Some(Num(last.volume)))
            && (last.volume == 0.0 && prev.Some? && prev.value.volume.Some? && StatTruthy(prev.value.volume.value) ==>
                  s.volume == prev.value.volume)
            && (prev.Some? && prev.value.circulatingSupply.Some? && StatTruthy(prev.value.circulatingSupply.value) ==>
                  s.circulatingSupply == prev.value.circulatingSupply)
            && (prev.Some? && prev.value.popularity.Some? && StatTruthy(prev.value.popularity.value) ==>
                  s.popularity == prev.value.popularity)
            && (prev.None? ==> s.circulatingSupply == Some(NotAvailable) && s.price.None?)
            && (prev.Some? ==> s.price == prev.value.price)
  {
  }

  /** `(last − first) / first · 100`: the change over the loaded series, in percent. */
  function ChangePercent(first: real, last: real): real
    requires first != 0.0
  {
    (last - first) / first * 100.0
  }

  /** The change is positive exactly when a positive price rose, and zero when it did not move. */
  lemma ChangePercentSign(first: real, last: real)
    requires first > 0.0
    ensures ChangePercent(first, last) > 0.0 <==> last > first
    ensures ChangePercent(first, last) == 0.0 <==> last == first
    ensures ChangePercent(first, last) < 0.0 <==> last < first
  {
    var q := (last - first) / first;
    assert q * first == last - first;
    if last > first { assert q > 0.0; }
    else if last < first { assert q < 0.0; }
    else { assert q == 0.0; }
  }

  /** The detail after a non-empty series load: price and volume of the last candle, change against the first. */
  function RefreshedDetail(d: AssetDetail, candles: seq<Candle>): (r: AssetDetail)
    requires |candles| > 0 && candles[0].close != 0.0
    ensures r.price == candles[|candles| - 1].close
    ensures r.volume == candles[|candles| - 1].volume
    ensures r.priceChangePercent == ChangePercent(candles[0].close, candles[|candles| - 1].close)
    ensures r.(price := d.price, priceChangePercent := d.priceChangePercent, volume := d.volume) == d
  {
    var last := candles[|candles| - 1];
    d.(price := last.close, priceChangePercent := ChangePercent(candles[0].close, last.close), volume := last.volume)
  }

  // ------------------------------------------------------------- selection

  /** `labels.indexOf(selectedTime)`: the first index holding that label. */
  function FirstIndex(labels: seq<string>, selectedTime: string): (r: Option<nat>)
    ensures r.Some? ==> r.value < |labels| && labels[r.value] == selectedTime
    ensures r.Some? ==> forall j :: 0 <= j < r.value ==> labels[j] != selectedTime
    ensures r.None? <==> selectedTime !in labels
  {
    if labels == [] then None
    else if labels[0] == selectedTime then Some(0)
    else match FirstIndex(labels[1..], selectedTime)
      case None => None
      case Some(i) => Some(i + 1)
  }

  const DetailError: string := "Failed to load asset details. Please try again."
  const ChartError: string := "Failed to load chart data. Please try again."

  class AssetDetailSync {
    var assetDetail: Option<AssetDetail>
    var chart: ChartData
    var timeFrame: string
    var isLoading: bool
    var error: Option<string>
    var stats: Option<Stats>

    /** The chart always has one value per label. */
    ghost predicate Valid()
      reads this
    {
      |chart.labels| == |chart.data|
    }

    constructor ()
      ensures Valid()
      ensures assetDetail.None? && chart == EmptyChart && timeFrame == "1H"
      ensures isLoading && error.None? && stats.None?
    {
      assetDetail := None;
      chart := EmptyChart;
      timeFrame := "1H";
      isLoading := true;
      error := None;
      stats := None;
    }

    /** `setTimeFrame`. */
    method SetTimeFrame(tf: string)
      modifies this
      ensures timeFrame == tf
      ensures assetDetail == old(assetDetail) && chart == old(chart) && isLoading == old(isLoading)
      ensures error == old(error) && stats == old(stats)
    {
      timeFrame := tf;
    }

    /** `loadAssetDetail`: store the detail and its statistics, or record the detail error. */
    method LoadAssetDetail(outcome: Result<AssetDetail>)
      requires Valid()
      modifies this
      ensures Valid()
      ensures outcome.Ok? ==>
        assetDetail == Some(outcome.value) && stats == Some(DetailStats(outcome.value)) && error == old(error)
      ensures outcome.Err? ==>
        assetDetail == old(assetDetail) && stats == old(stats) && error == Some(DetailError)
      ensures chart == old(chart) && timeFrame == old(timeFrame) && isLoading == old(isLoading)
    {
      match outcome {
        case Ok(d) =>
          assetDetail := Some(d);
          stats := Some(DetailStats(d));
        case Err(_) =>
          error := Some(DetailError);
      }
    }

    /** The start of `loadHistoricalData`: raise `isLoading`, clear the error, choose the window. */
    method BeginSeriesLoad(endTime: int) returns (w: Window)
      requires Valid()
      modifies this
      ensures Valid()
      ensures isLoading && error.None?
      ensures w == WindowFor(timeFrame, endTime)
      ensures assetDetail == old(assetDetail) && chart == old(chart) && timeFrame == old(timeFrame)
      ensures stats == old(stats)
    {
      isLoading := true;
      error := None;
      w := WindowFor(timeFrame, endTime);
    }

    /**
     * The rest of `loadHistoricalData` once the series request has settled:
     * on success show the chart and, for a non-empty series, refresh the
     * detail and the statistics; on failure record the chart error. Loading
     * ends in every case.
     */
    method CompleteSeriesLoad(outcome: Result<seq<Candle>>, text: LabelText)
      requires Valid()
      requires outcome.Ok? && |outcome.value| > 0 ==> outcome.value[0].close != 0.0
      modifies this
      ensures Valid()
      ensures !isLoading && timeFrame == old(timeFrame)
      ensures outcome.Err? ==>
        && error == Some(ChartError) && chart == old(chart)
        && assetDetail == old(assetDetail) && stats == old(stats)
      ensures outcome.Ok? ==>
        && error == old(error)
        && chart == FormatChartData(outcome.value, old(timeFrame), text)
      ensures outcome.Ok? && |outcome.value| == 0 ==>
        assetDetail == old(assetDetail) && stats == old(stats)
      ensures outcome.Ok? && |outcome.value| > 0 ==>
        && assetDetail == (if old(assetDetail).Some? then Some(RefreshedDetail(old(assetDetail).value, outcome.value)) else None)
        && stats == Some(RefreshedStats(old(stats), outcome.value[|outcome.value| - 1]))
    {
      match outcome {
        case Err(_) =>
          error := Some(ChartError);
        case Ok(candles) =>
          chart := FormatChartData(candles, timeFrame, text);
          if |candles| > 0 {
            if assetDetail.Some? {
              assetDetail := Some(RefreshedDetail(assetDetail.value, candles));
            }
            stats := Some(RefreshedStats(stats, candles[|candles| - 1]));
          }
      }
      isLoading := false;
    }

    /** `loadHistoricalData`: the series request is answered as a function of the window. */
    method LoadHistoricalData(endTime: int, series: Window -> Result<seq<Candle>>, text: LabelText)
      requires Valid()
      requires var o := series(WindowFor(timeFrame, endTime)); o.Ok? && |o.value| > 0 ==> o.value[0].close != 0.0
      modifies this
      ensures Valid()
      ensures !isLoading && timeFrame == old(timeFrame)
      ensures var o := series(WindowFor(old(timeFrame), endTime));
              && (o.Err? ==> error == Some(ChartError) && chart == old(chart))
              && (o.Ok? ==> error.None? && chart == FormatChartData(o.value, old(timeFrame), text))
              && (o.Err? || |o.value| == 0 ==> assetDetail == old(assetDetail) && stats == old(stats))
              && (o.Ok? && |o.value| > 0 ==>
                   && assetDetail == (if old(assetDetail).Some? then Some(RefreshedDetail(old(assetDetail).value, o.value)) else None)
                   && stats == Some(RefreshedStats(old(stats), o.value[|o.value| - 1])))
    {
      var w := BeginSeriesLoad(endTime);
      CompleteSeriesLoad(series(w), text);
    }

    /**
     * `updateStatsForTime(selectedTime)`: show the value at the first point with
     * that label as the statistics' price; an unknown label changes nothing.
     */
    method UpdateStatsForTime(selectedTime: string)
      requires Valid()
      modifies this
      ensures Valid()
      ensures assetDetail == old(assetDetail) && chart == old(chart) && timeFrame == old(timeFrame)
      ensures isLoading == old(isLoading) && error == old(error)
      ensures selectedTime !in old(chart.labels) ==> stats == old(stats)
      ensures selectedTime in old(chart.labels) ==>
        var i := FirstIndex(chart.labels, selectedTime).value;
        && stats.Some? && stats.value.price == Some(chart.data[i])
        && (old(stats).Some? ==> stats.value == old(stats).value.(price := Some(chart.data[i])))
        && (old(stats).None? ==> stats.value == NoStats.(price := Some(chart.data[i])))
    {
      match FirstIndex(chart.labels, selectedTime) {
        case None =>
        case Some(i) =>
          var selected := chart.data[i];
          var prev := if stats.Some? then stats.value else NoStats;
          stats := Some(prev.(price := Some(selected)));
      }
    }
  }
}
