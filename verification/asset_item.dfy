/**
 * The live price tile of one asset (src/components/AssetItem.tsx): the
 * state a stream tick updates (price, percent change and flash colour), the
 * colour and sign of the percent change, and which sparkline values are drawn.
 */
module AssetTile {
  import opened Common
  import opened MarketData

  const RiseColour: string := "#00C087"
  const FallColour: string := "#FF3B30"
  const NeutralColour: string := "#1A1A1A"

  class PriceTile {
    var currentPrice: real
    var priceChangePercent: real
    var priceChangeColour: string
    /** Flash animations started and not yet completed. */
    var pendingFlashes: nat

    /** The tile as first rendered for an asset of the list. */
    constructor (asset: AssetSummary)
      ensures currentPrice == asset.price && priceChangePercent == asset.priceChangePercent
      ensures priceChangeColour == NeutralColour && pendingFlashes == 0
    {
      currentPrice := asset.price;
      priceChangePercent := asset.priceChangePercent;
      priceChangeColour := NeutralColour;
      pendingFlashes := 0;
    }

    /**
     * The subscription callback: the tick's close becomes the price and its
     * percent change the percent. A rise flashes green, a fall red; an
     * unchanged price leaves the colour and the animation alone.
     */
    method OnTick(tick: Tick)
      modifies this
      ensures currentPrice == tick.close && priceChangePercent == tick.changePercent
      ensures tick.close > old(currentPrice) ==>
        priceChangeColour == RiseColour && pendingFlashes == old(pendingFlashes) + 1
      ensures tick.close < old(currentPrice) ==>
        priceChangeColour == FallColour && pendingFlashes == old(pendingFlashes) + 1
      ensures tick.close == old(currentPrice) ==>
        priceChangeColour == old(priceChangeColour) && pendingFlashes == old(pendingFlashes)
    {
      var newPrice := tick.close;
      if newPrice != currentPrice {
        priceChangeColour := if newPrice > currentPrice then RiseColour else FallColour;
        pendingFlashes := pendingFlashes + 1;
      }
      currentPrice := newPrice;
      priceChangePercent := tick.changePercent;
    }

    /** The completion callback of a flash animation: the price text turns back to the neutral colour. */
    method FlashCompleted()
      requires pendingFlashes > 0
      modifies this
      ensures priceChangeColour == NeutralColour && pendingFlashes == old(pendingFlashes) - 1
      ensures currentPrice == old(currentPrice) && priceChangePercent == old(priceChangePercent)
    {
      priceChangeColour := NeutralColour;
      pendingFlashes := pendingFlashes - 1;
    }
  }

  /** A rising tick followed by the end of its flash leaves the new price in the neutral colour. */
  method RiseThenSettle(asset: AssetSummary, tick: Tick) returns (price: real, colour: string, during: string)
    requires tick.close > asset.price
    ensures during == RiseColour
    ensures price == tick.close && colour == NeutralColour
  {
    var tile := new PriceTile(asset);
    tile.OnTick(tick);
    during := tile.priceChangeColour;
    tile.FlashCompleted();
    price, colour := tile.currentPrice, tile.priceChangeColour;
  }

  /** The colour of the percent change (and of the sparkline): green for zero or more, red below. */
  function ChangeColour(percent: real): string {
    if percent >= 0.0 then RiseColour else FallColour
  }

  /** The sign shown before the percent change: "+" for zero or more, nothing below. */
  function SignPrefix(percent: real): string {
    if percent >= 0.0 then "+" else ""
  }

  /** The colour and the sign always agree: green with "+", red without a sign. */
  lemma ColourMatchesSign(percent: real)
    ensures ChangeColour(percent) == RiseColour <==> SignPrefix(percent) == "+"
    ensures ChangeColour(percent) == RiseColour <==> percent >= 0.0
    ensures ChangeColour(percent) == FallColour <==> SignPrefix(percent) == ""
  {
  }

  /** A JavaScript number as the sparkline may hold it. */
  datatype JsNumber = Finite(value: real) | NaN | PositiveInfinity | NegativeInfinity

  /** `sparklineData?.filter(Number.isFinite) || []`: the finite values, in order; none when the data is missing. */
  function ValidSparkline(data: Option<seq<JsNumber>>): seq<real> {
    match data
    case None => []
    case Some(values) => FiniteValues(values)
  }

  function FiniteValues(values: seq<JsNumber>): seq<real> {
    if values == [] then []
    else FiniteValues(values[..|values| - 1])
         + (if values[|values| - 1].Finite? then [values[|values| - 1].value] else [])
  }

  /** The filter works piecewise, so the order of the kept values is the order of the data. */
  lemma {:induction false} FiniteValuesAppend(a: seq<JsNumber>, b: seq<JsNumber>)
    ensures FiniteValues(a + b) == FiniteValues(a) + FiniteValues(b)
    decreases |b|
  {
    if b != [] {
      var n := |b| - 1;
      FiniteValuesAppend(a, b[..n]);
      assert (a + b)[..|a + b| - 1] == a + b[..n];
    } else {
      assert a + b == a;
    }
  }

  /** The filter keeps exactly the finite values, and never more values than there are. */
  lemma {:induction false} FiniteValuesMembers(a: seq<JsNumber>, x: real)
    ensures x in FiniteValues(a) <==> Finite(x) in a
    ensures |FiniteValues(a)| <= |a|
    decreases |a|
  {
    if a != [] {
      var n := |a| - 1;
      FiniteValuesMembers(a[..n], x);
      assert a == a[..n] + [a[n]];
    }
  }

  /** The mini-chart is drawn only with at least two finite values. */
  predicate RenderChart(data: Option<seq<JsNumber>>) {
    |ValidSparkline(data)| >= 2
  }

  /** The sparkline of an asset from the list: every close is finite, so all of them are drawn, in order. */
  lemma {:induction false} ListSparklineKept(closes: seq<real>)
    ensures FiniteValues(seq(|closes|, i requires 0 <= i < |closes| => Finite(closes[i]))) == closes
    ensures RenderChart(Some(seq(|closes|, i requires 0 <= i < |closes| => Finite(closes[i])))) <==> |closes| >= 2
  {
    var lifted := seq(|closes|, i requires 0 <= i < |closes| => Finite(closes[i]));
    if closes != [] {
      var n := |closes| - 1;
      ListSparklineKept(closes[..n]);
      assert lifted[..n] == seq(n, i requires 0 <= i < n => Finite(closes[..n][i]));
      assert closes == closes[..n] + [closes[n]];
    }
  }
}
