/**
 * The geometry of the price chart (src/components/CustomChart.tsx): the
 * padded value range, the value→pixel mapping, the points and the SVG path
 * command sequence, the decimation of the x-axis labels and the nearest-point
 * selection under the pointer.
 *
 * The chart is 250 high; its width (three screen widths) is a parameter.
 * A series of one point, or one whose values are all equal, makes the
 * component divide by zero, so only empty series and series of at least two
 * distinct values are drawn here.
 */
module ChartGeometry {
  import opened Common

  const ChartHeight: real := 250.0
  const MaxXLabels: nat := 12
  const YAxisPadding: real := 0.1

  /** `Math.min(...data)`. */
  function MinOf(data: seq<real>): (m: real)
    requires |data| > 0
    ensures exists i :: 0 <= i < |data| && data[i] == m
    ensures forall i :: 0 <= i < |data| ==> m <= data[i]
  {
    if |data| == 1 then data[0]
    else
      var rest := MinOf(data[1..]);
      assert forall i :: 1 <= i < |data| ==> data[i] == data[1..][i - 1];
      if data[0] <= rest then data[0] else rest
  }

  /** `Math.max(...data)`. */
  function MaxOf(data: seq<real>): (m: real)
    requires |data| > 0
    ensures exists i :: 0 <= i < |data| && data[i] == m
    ensures forall i :: 0 <= i < |data| ==> data[i] <= m
  {
    if |data| == 1 then data[0]
    else
      var rest := MaxOf(data[1..]);
      assert forall i :: 1 <= i < |data| ==> data[i] == data[1..][i - 1];
      if data[0] >= rest then data[0] else rest
  }

  /** A series the component can draw: at least two points and not flat. */
  predicate Drawable(data: seq<real>) {
    |data| >= 2 && MinOf(data) < MaxOf(data)
  }

  /** The value range drawn: the data range widened by 10% of itself on each side. */
  datatype Bounds = Bounds(paddedMin: real, paddedMax: real)

  function PaddedBounds(data: seq<real>): Bounds
    requires |data| > 0
  {
    var range := MaxOf(data) - MinOf(data);
    Bounds(MinOf(data) - range * YAxisPadding, MaxOf(data) + range * YAxisPadding)
  }

  /** The padded range contains every value, and strictly widens a series that is not flat. */
  lemma PaddingBrackets(data: seq<real>, i: nat)
    requires i < |data|
    ensures PaddedBounds(data).paddedMin <= MinOf(data) <= data[i] <= MaxOf(data) <= PaddedBounds(data).paddedMax
    ensures MinOf(data) < MaxOf(data) ==>
      PaddedBounds(data).paddedMin < MinOf(data) && MaxOf(data) < PaddedBounds(data).paddedMax
  {
  }

  /** `getY`: the pixel row of a value, 0 at the top, so larger values are drawn higher. */
  function GetY(b: Bounds, v: real): real
    requires b.paddedMin < b.paddedMax
  {
    ChartHeight - (v - b.paddedMin) / (b.paddedMax - b.paddedMin) * ChartHeight
  }

  /** `getY` is strictly decreasing: a larger value is drawn strictly higher. */
  lemma GetYDecreasing(b: Bounds, v: real, w: real)
    requires b.paddedMin < b.paddedMax
    requires v < w
    ensures GetY(b, v) > GetY(b, w)
  {
    var d := b.paddedMax - b.paddedMin;
    var tv := (v - b.paddedMin) / d;
    var tw := (w - b.paddedMin) / d;
    assert tv * d == v - b.paddedMin && tw * d == w - b.paddedMin;
    assert (tw - tv) * d == w - v;
    assert tw > tv;
  }

  /** A value 10%..110% of the range above the padded minimum is 1/12..11/12 of the way up the padded range. */
  lemma FractionInBand(x: real, r: real)
    requires r > 0.0 && 0.1 * r <= x <= 1.1 * r
    ensures 1.0 / 12.0 <= x / (1.2 * r) <= 11.0 / 12.0
  {
    var d := 1.2 * r;
    var t := x / d;
    assert t * d == x;
    assert (t * 12.0 - 1.0) * d == 12.0 * x - d;
    assert (11.0 - t * 12.0) * d == 11.0 * d - 12.0 * x;
  }

  /** Every value of a drawable series is drawn between 1/12 and 11/12 of the height. */
  lemma GetYInBand(data: seq<real>, i: nat)
    requires Drawable(data) && i < |data|
    ensures ChartHeight / 12.0 <= GetY(PaddedBounds(data), data[i]) <= ChartHeight * 11.0 / 12.0
  {
    var b := PaddedBounds(data);
    var r := MaxOf(data) - MinOf(data);
    var x := data[i] - b.paddedMin;
    assert b.paddedMax - b.paddedMin == 1.2 * r;
    assert 0.1 * r <= x <= 1.1 * r;
    FractionInBand(x, r);
  }

  /** `index / (N − 1) · width`: the points are spread evenly over the width. */
  function XAt(i: nat, n: nat, width: real): real
    requires n >= 2
  {
    (i as real / (n - 1) as real) * width
  }

  /** The first point is at the left edge, the last at the right edge, and x grows strictly with the index. */
  lemma XSpread(n: nat, width: real, i: nat, j: nat)
    requires n >= 2 && width > 0.0
    requires i < j < n
    ensures XAt(0, n, width) == 0.0
    ensures XAt(n - 1, n, width) == width
    ensures XAt(i, n, width) < XAt(j, n, width)
  {
    var m := (n - 1) as real;
    var fi := i as real / m;
    var fj := j as real / m;
    assert fi * m == i as real && fj * m == j as real;
    assert (fj - fi) * m == (j - i) as real;
    assert fj > fi;
  }

  /** One plotted point: its position, its value and the label at its index (undefined past the labels). */
  datatype Point = Point(x: real, y: real, value: real, labelText: Option<string>)

  /** `data.map(...)`: one point per value, in order. */
  function Points(data: seq<real>, labels: seq<string>, width: real): (ps: seq<Point>)
    requires Drawable(data)
    ensures |ps| == |data|
    ensures forall i :: 0 <= i < |data| ==>
      && ps[i].value == data[i]
      && ps[i].labelText == (if i < |labels| then Some(labels[i]) else None)
      && ps[i].x == XAt(i, |data|, width)
      && ps[i].y == GetY(PaddedBounds(data), data[i])
  {
    seq(|data|, i requires 0 <= i < |data| =>
      Point(XAt(i, |data|, width), GetY(PaddedBounds(data), data[i]), data[i],
            if i < |labels| then Some(labels[i]) else None))
  }

  /** One command of the SVG path. */
  datatype PathCommand = MoveTo(x: real, y: real) | LineTo(x: real, y: real)

  /** The `reduce` that builds the path: "M" for the first point, "L" for each later one. */
  function PathOf(points: seq<Point>): seq<PathCommand> {
    if points == [] then []
    else
      var n := |points| - 1;
      var p := points[n];
      PathOf(points[..n]) + [if n == 0 then MoveTo(p.x, p.y) else LineTo(p.x, p.y)]
  }

  /** The path has one command per point, in order: a move to the first point, then a line to each later one. */
  lemma {:induction false} PathShape(points: seq<Point>)
    ensures |PathOf(points)| == |points|
    ensures |points| > 0 ==> PathOf(points)[0] == MoveTo(points[0].x, points[0].y)
    ensures forall i :: 0 < i < |points| ==> PathOf(points)[i] == LineTo(points[i].x, points[i].y)
  {
    if points != [] {
      var n := |points| - 1;
      PathShape(points[..n]);
      assert forall i :: 0 <= i < n ==> points[..n][i] == points[i];
    }
  }

  /** The memoised geometry: padded bounds, path and points. */
  datatype Geometry = Geometry(minValue: real, maxValue: real, path: seq<PathCommand>, points: seq<Point>)

  function ComputeGeometry(data: seq<real>, labels: seq<string>, width: real): (g: Geometry)
    requires data == [] || Drawable(data)
    ensures data == [] ==> g == Geometry(0.0, 0.0, [], [])
    ensures data != [] ==>
      && |g.points| == |data| == |g.path|
      && g.minValue < MinOf(data) && MaxOf(data) < g.maxValue
      && (forall i :: 0 <= i < |data| ==> g.points[i].value == data[i])
      && g.path[0] == MoveTo(g.points[0].x, g.points[0].y)
  {
    if data == [] then Geometry(0.0, 0.0, [], [])
    else
      var b := PaddedBounds(data);
      var ps := Points(data, labels, width);
      PaddingBrackets(data, 0);
      PathShape(ps);
      Geometry(b.paddedMin, b.paddedMax, PathOf(ps), ps)
  }

  /**
   * For a drawable series, points run left to right from x = 0 to x = width,
   * every point lies inside the drawing band, a larger value sits strictly
   * higher, and the path visits the points in order.
   */
  lemma GeometryShape(data: seq<real>, labels: seq<string>, width: real, i: nat, j: nat)
    requires Drawable(data) && width > 0.0
    requires i < j < |data|
    ensures var g := ComputeGeometry(data, labels, width);
            && |g.points| == |data| == |g.path|
            && g.points[0].x == 0.0 && g.points[|data| - 1].x == width
            && g.points[i].x < g.points[j].x
            && ChartHeight / 12.0 <= g.points[i].y <= ChartHeight * 11.0 / 12.0
            && (data[i] < data[j] ==> g.points[i].y > g.points[j].y)
            && (data[i] > data[j] ==> g.points[i].y < g.points[j].y)
            && g.path[0] == MoveTo(g.points[0].x, g.points[0].y)
            && g.path[j] == LineTo(g.points[j].x, g.points[j].y)
            && g.minValue < MinOf(data) && MaxOf(data) < g.maxValue
  {
    var g := ComputeGeometry(data, labels, width);
    XSpread(|data|, width, i, j);
    GetYInBand(data, i);
    PaddingBrackets(data, i);
    if data[i] < data[j] { GetYDecreasing(PaddedBounds(data), data[i], data[j]); }
    if data[i] > data[j] { GetYDecreasing(PaddedBounds(data), data[j], data[i]); }
    PathShape(g.points);
  }

  // ----------------------------------------------------------------- labels

  /** The label step: 1 up to 12 points, 2 up to 24, else ⌈N/12⌉. */
  function LabelStep(n: nat): (step: nat)
    ensures step >= 1
    ensures n <= MaxXLabels * step
  {
    if n <= MaxXLabels then 1
    else if n <= MaxXLabels * 2 then 2
    else (n + MaxXLabels - 1) / MaxXLabels
  }

  /** `points.filter((_, index) => index % step === 0)`. */
  function Decimate(points: seq<Point>, step: nat): seq<Point>
    requires step >= 1
  {
    if points == [] then []
    else
      var n := |points| - 1;
      Decimate(points[..n], step) + (if n % step == 0 then [points[n]] else [])
  }

  /** A multiple of `step` is divisible by it. */
  lemma MultipleMod(c: nat, step: nat)
    requires step >= 1
    ensures (c * step) % step == 0
  {
    var q := (c * step) / step;
    var r := (c * step) % step;
    assert (c - q) * step == r;
    if c > q {
      assert false;
    } else if c < q {
      assert false;
    }
  }

  /** A number strictly between two consecutive multiples of `step` is not divisible by it. */
  lemma BetweenMultiples(c: nat, step: nat, i: nat)
    requires step >= 1
    requires c * step < i < (c + 1) * step
    ensures i % step != 0
  {
    var k := i / step;
    assert k * step + i % step == i;
    if i % step == 0 {
      if k <= c {
        assert false;
      } else {
        assert false;
      }
    }
  }

  /** Decimation keeps c points, the least c with c·step ≥ N. */
  lemma {:induction false} DecimateCount(points: seq<Point>, step: nat)
    requires step >= 1
    ensures var d := Decimate(points, step);
            && |d| * step >= |points|
            && (|d| > 0 ==> (|d| - 1) * step < |points|)
            && (|points| > 0 ==> |d| > 0)
  {
    if points != [] {
      var n := |points| - 1;
      DecimateCount(points[..n], step);
      var c := |Decimate(points[..n], step)|;
      if n == c * step {
        MultipleMod(c, step);
        assert (c + 1) * step == c * step + step;
      } else {
        assert (c - 1) * step < n < c * step;
        BetweenMultiples(c - 1, step, n);
      }
    }
  }

  /**
   * Decimation keeps exactly the points whose index is a multiple of the
   * step, in order: the k-th kept point is point k·step.
   */
  lemma {:induction false} DecimateSpec(points: seq<Point>, step: nat)
    requires step >= 1
    ensures var d := Decimate(points, step);
            forall k :: 0 <= k < |d| ==> k * step < |points| && d[k] == points[k * step]
  {
    if points != [] {
      var n := |points| - 1;
      var init := points[..n];
      DecimateSpec(init, step);
      DecimateCount(init, step);
      var d0 := Decimate(init, step);
      var c := |d0|;
      if n != c * step {
        assert (c - 1) * step < n < c * step;
        BetweenMultiples(c - 1, step, n);
      }
      forall k | 0 <= k < c ensures d0[k] == points[k * step] {
        assert init[k * step] == points[k * step];
      }
    }
  }

  /** The visible labels: index 0 is always kept, order is preserved, and there are at most 12. */
  lemma VisibleLabelsBound(points: seq<Point>)
    ensures var d := Decimate(points, LabelStep(|points|));
            && |d| <= MaxXLabels
            && (|points| > 0 ==> |d| > 0 && d[0] == points[0])
            && (|points| <= MaxXLabels ==> d == points)
  {
    var step := LabelStep(|points|);
    var d := Decimate(points, step);
    DecimateCount(points, step);
    DecimateSpec(points, step);
    if |points| <= MaxXLabels {
      assert step == 1;
      assert |d| == |points|;
    }
  }

  // ---------------------------------------------------------------- touch

  function Abs(x: real): real {
    if x < 0.0 then -x else x
  }

  /**
   * The `reduce` of `handleTouch`: the index of the point nearest to `ax`
   * horizontally; on a tie the earlier point wins (strict `<`).
   */
  function Nearest(points: seq<Point>, ax: real): (k: nat)
    requires |points| > 0
    ensures k < |points|
    ensures forall j :: 0 <= j < |points| ==> Abs(points[k].x - ax) <= Abs(points[j].x - ax)
    ensures forall j :: 0 <= j < k ==> Abs(points[j].x - ax) > Abs(points[k].x - ax)
  {
    if |points| == 1 then 0
    else
      var n := |points| - 1;
      var best := Nearest(points[..n], ax);
      assert forall j :: 0 <= j < n ==> points[..n][j] == points[j];
      if Abs(points[n].x - ax) < Abs(points[best].x - ax) then n else best
  }

  /** A pointer exactly over a point selects that point when the points run strictly left to right. */
  lemma NearestExactHit(points: seq<Point>, i: nat)
    requires i < |points|
    requires forall a, b :: 0 <= a < b < |points| ==> points[a].x < points[b].x
    ensures Nearest(points, points[i].x) == i
  {
    var k := Nearest(points, points[i].x);
    assert Abs(points[k].x - points[i].x) <= 0.0;
  }

  /** What a touch selects: the chosen point, and the label and value passed to `onSelectDataPoint`. */
  datatype Selection = Selection(point: Point, labelText: Option<string>, value: real)

  /** `handleTouch`: the touch x shifted by the scroll offset (0 when unknown), then the nearest point. */
  function HandleTouch(points: seq<Point>, touchX: real, scrollX: Option<real>): (s: Selection)
    requires |points| > 0
    ensures s.point in points
    ensures s.labelText == s.point.labelText && s.value == s.point.value
    ensures var ax := touchX + (if scrollX.Some? then scrollX.value else 0.0);
            forall p :: p in points ==> Abs(s.point.x - ax) <= Abs(p.x - ax)
  {
    var ax := touchX + (if scrollX.Some? then scrollX.value else 0.0);
    var p := points[Nearest(points, ax)];
    Selection(p, p.labelText, p.value)
  }

  /** The bounds of the component's test series: minimum 10 and maximum 30, padded to 8 and 32. */
  lemma FivePointBounds()
    ensures var data := [10.0, 20.0, 15.0, 25.0, 30.0];
            && MinOf(data) == 10.0 && MaxOf(data) == 30.0
            && PaddedBounds(data) == Bounds(8.0, 32.0)
  {
    var data := [10.0, 20.0, 15.0, 25.0, 30.0];
    assert forall i :: 0 <= i < |data| ==> 10.0 <= data[i] <= 30.0;
    assert MinOf(data) <= data[0] && data[4] <= MaxOf(data);
  }

  /** The series of the component's test: five values, five labels, all five shown, bounds 8 and 32. */
  lemma FivePointExample(width: real)
    requires width > 0.0
    ensures var data := [10.0, 20.0, 15.0, 25.0, 30.0];
            var g := ComputeGeometry(data, ["1", "2", "3", "4", "5"], width);
            && g.minValue == 8.0 && g.maxValue == 32.0
            && |g.points| == 5
            && Decimate(g.points, LabelStep(|g.points|)) == g.points
  {
    FivePointBounds();
    var data := [10.0, 20.0, 15.0, 25.0, 30.0];
    var g := ComputeGeometry(data, ["1", "2", "3", "4", "5"], width);
    assert g.points == Points(data, ["1", "2", "3", "4", "5"], width);
    VisibleLabelsBound(g.points);
  }
}
