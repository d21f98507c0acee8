/** The sparkline: data values scaled into a `width` by `height` box with a
    padding of 2, the line and area paths built from them, the trend and the
    dot on the last point. Paths are kept as lists of drawing commands; how
    their numbers are printed is not modelled. */
module Sparkline {
  import opened Common

  const Padding: real := 2.0

  /** The props' defaults: a 100 by 30 box, and `color` set to "primary". */
  const DefaultWidth: real := 100.0
  const DefaultHeight: real := 30.0
  const DefaultColour: string := "primary"

  /** `Math.min(...data)` on a non-empty list. */
  function SeqMin(data: seq<real>): (m: real)
    requires |data| > 0
    ensures forall i :: 0 <= i < |data| ==> m <= data[i]
    ensures exists i :: 0 <= i < |data| && m == data[i]
    decreases |data|
  {
    if |data| == 1 then data[0]
    else
      var rest := SeqMin(data[..|data| - 1]);
      var last := data[|data| - 1];
      assert forall i :: 0 <= i < |data| - 1 ==> data[..|data| - 1][i] == data[i];
      if last < rest then last else rest
  }

  /** `Math.max(...data)` on a non-empty list. */
  function SeqMax(data: seq<real>): (m: real)
    requires |data| > 0
    ensures forall i :: 0 <= i < |data| ==> data[i] <= m
    ensures exists i :: 0 <= i < |data| && m == data[i]
    decreases |data|
  {
    if |data| == 1 then data[0]
    else
      var rest := SeqMax(data[..|data| - 1]);
      var last := data[|data| - 1];
      assert forall i :: 0 <= i < |data| - 1 ==> data[..|data| - 1][i] == data[i];
      if last > rest then last else rest
  }

  /** `max - min || 1`: the spread of the values, or 1 when they are all equal. */
  function Range(data: seq<real>): (r: real)
    requires |data| > 0
    ensures r > 0.0
    ensures SeqMax(data) > SeqMin(data) ==> r == SeqMax(data) - SeqMin(data)
    ensures SeqMax(data) == SeqMin(data) ==> r == 1.0
  {
    var spread := SeqMax(data) - SeqMin(data);
    if spread != 0.0 then spread else 1.0
  }

  datatype Point = Point(x: real, y: real)

  /** The x coordinate of position `index` of `n`: spaced evenly across. */
  function XAt(index: nat, n: nat, width: real): real
    requires n >= 2
  {
    Padding + (index as real / (n - 1) as real) * (width - Padding * 2.0)
  }

  /** The y coordinate of a value: the largest at the top, the smallest at the
      bottom. */
  function YAt(value: real, lo: real, range: real, height: real): real
    requires range > 0.0
  {
    Padding + (1.0 - (value - lo) / range) * (height - Padding * 2.0)
  }

  /** The point for `data[index]`. */
  function PointAt(data: seq<real>, index: nat, width: real, height: real): Point
    requires 2 <= |data| && index < |data|
  {
    Point(XAt(index, |data|, width), YAt(data[index], SeqMin(data), Range(data), height))
  }

  /** `points`: one point per value. */
  function Points(data: seq<real>, width: real, height: real): (ps: seq<Point>)
    requires |data| >= 2
    ensures |ps| == |data|
    ensures forall i :: 0 <= i < |data| ==> ps[i] == PointAt(data, i, width, height)
  {
    seq(|data|, i requires 0 <= i < |data| => PointAt(data, i, width, height))
  }

  /** The first point sits on the left padding and the last on the right one;
      in a box wider than the padding the points go strictly left to right. */
  lemma XPositions(data: seq<real>, width: real, height: real, i: nat, j: nat)
    requires |data| >= 2 && i < j < |data|
    ensures PointAt(data, 0, width, height).x == Padding
    ensures PointAt(data, |data| - 1, width, height).x == width - Padding
    ensures width > 2.0 * Padding ==> PointAt(data, i, width, height).x < PointAt(data, j, width, height).x
  {
    XSpacing(|data|, width, i, j);
  }

  /** The same facts on the coordinates alone. */
  lemma XSpacing(n: nat, width: real, i: nat, j: nat)
    requires n >= 2 && i < j < n
    ensures XAt(0, n, width) == Padding
    ensures XAt(n - 1, n, width) == width - Padding
    ensures width > 2.0 * Padding ==> XAt(i, n, width) < XAt(j, n, width)
  {
    var d := (n - 1) as real;
    assert (n - 1) as real / d == 1.0;
    if width > 2.0 * Padding {
      var w := width - Padding * 2.0;
      FractionsIncrease(i as real, j as real, d, w);
      assert XAt(i, n, width) == Padding + i as real / d * w;
      assert XAt(j, n, width) == Padding + j as real / d * w;
    }
  }

  /** `a / d * w < b / d * w` for `a < b` and positive `d` and `w`. */
  lemma FractionsIncrease(a: real, b: real, d: real, w: real)
    requires a < b && d > 0.0 && w > 0.0
    ensures a / d * w < b / d * w
  {
    assert b / d - a / d == (b - a) / d;
    assert (b / d - a / d) * w > 0.0;
  }

  /** Every point lies inside the padded box, the smallest value on its
      bottom edge and, unless all values are equal, the largest on its top
      edge. */
  lemma YPositions(data: seq<real>, width: real, height: real, i: nat)
    requires |data| >= 2 && i < |data| && height >= 2.0 * Padding
    ensures Padding <= PointAt(data, i, width, height).y <= height - Padding
    ensures data[i] == SeqMin(data) ==> PointAt(data, i, width, height).y == height - Padding
    ensures data[i] == SeqMax(data) && SeqMax(data) > SeqMin(data) ==> PointAt(data, i, width, height).y == Padding
  {
    var lo, hi := SeqMin(data), SeqMax(data);
    YScaling(data[i], lo, hi, Range(data), height);
  }

  /** The same facts on the coordinate alone, for a value between `lo` and `hi`. */
  lemma YScaling(v: real, lo: real, hi: real, r: real, height: real)
    requires lo <= v <= hi && height >= 2.0 * Padding
    requires r > 0.0 && (r == hi - lo || (hi == lo && r == 1.0))
    ensures Padding <= YAt(v, lo, r, height) <= height - Padding
    ensures v == lo ==> YAt(v, lo, r, height) == height - Padding
    ensures v == hi && hi > lo ==> YAt(v, lo, r, height) == Padding
  {
    var a := v - lo;
    var h := height - Padding * 2.0;
    UnitFraction(a, r, hi - lo);
    var t := a / r;
    ScaleWithin(t, h);
    assert YAt(v, lo, r, height) == Padding + (1.0 - t) * h;
  }

  /** `0 <= a / r <= 1` for `0 <= a <= s` where `r` is `s`, or 1 when `s` is 0. */
  lemma UnitFraction(a: real, r: real, s: real)
    requires 0.0 <= a <= s && r > 0.0 && (r == s || (s == 0.0 && r == 1.0))
    ensures 0.0 <= a / r <= 1.0
    ensures a == s && s > 0.0 ==> a / r == 1.0
  {
    if s > 0.0 {
      assert r == s;
      assert a / r <= s / r == 1.0;
    } else {
      assert a == 0.0;
    }
  }

  /** `(1 - t) h` lies in `[0, h]` for `t` in `[0, 1]`. */
  lemma ScaleWithin(t: real, h: real)
    requires 0.0 <= t <= 1.0 && h >= 0.0
    ensures 0.0 <= (1.0 - t) * h <= h
  {
    assert t * h >= 0.0;
  }

  /** Drawing commands of an SVG path. */
  datatype Command = MoveTo(x: real, y: real) | QuadTo(cx: real, cy: real, x: real, y: real) | LineTo(x: real, y: real) | Close

  /** The curve from one point towards the next: controlled by the earlier
      point, ending half-way between the two. */
  function Segment(prev: Point, curr: Point): Command
  {
    QuadTo(prev.x, prev.y, (prev.x + curr.x) / 2.0, (prev.y + curr.y) / 2.0)
  }

  /** The line path: a move to the first point, one curve per consecutive
      pair, and a straight line to the last point. */
  function LinePath(points: seq<Point>): seq<Command>
    requires |points| >= 1
  {
    [MoveTo(points[0].x, points[0].y)]
      + Segments(points, |points|)
      + [LineTo(points[|points| - 1].x, points[|points| - 1].y)]
  }

  /** The curves for the pairs before position `k`, the last one added last. */
  function Segments(points: seq<Point>, k: nat): (segs: seq<Command>)
    requires 1 <= k <= |points|
    ensures |segs| == k - 1
  {
    if k == 1 then [] else Segments(points, k - 1) + [Segment(points[k - 2], points[k - 1])]
  }

  /** The `i`-th curve joins points `i` and `i + 1`. */
  lemma {:induction false} SegmentsAt(points: seq<Point>, k: nat)
    requires 1 <= k <= |points|
    ensures forall i :: 0 <= i < k - 1 ==> Segments(points, k)[i] == Segment(points[i], points[i + 1])
  {
    if k > 1 {
      SegmentsAt(points, k - 1);
    }
  }

  /** The path's shape: it starts with its only move, holds one curve per
      pair of points, and its last command reaches the last point. */
  lemma LinePathShape(points: seq<Point>)
    requires |points| >= 1
    ensures |LinePath(points)| == |points| + 1
    ensures LinePath(points)[0] == MoveTo(points[0].x, points[0].y)
    ensures forall i :: 1 <= i < |LinePath(points)| ==> !LinePath(points)[i].MoveTo?
    ensures forall i :: 1 <= i < |points| ==> LinePath(points)[i] == Segment(points[i - 1], points[i])
    ensures LinePath(points)[|points|] == LineTo(points[|points| - 1].x, points[|points| - 1].y)
  {
    var n := |points|;
    SegmentsAt(points, n);
    forall i | 1 <= i < n
      ensures LinePath(points)[i] == Segments(points, n)[i - 1] == Segment(points[i - 1], points[i])
    {
    }
    forall i | 1 <= i < |LinePath(points)|
      ensures !LinePath(points)[i].MoveTo?
    {
      if i < n {
        assert LinePath(points)[i] == Segment(points[i - 1], points[i]);
      }
    }
  }

  /** The path construction: the first point's move, then the `for` loop
      appending one curve per point after the first, then the closing line. */
  method BuildPath(points: seq<Point>) returns (path: seq<Command>)
    requires |points| >= 1
    ensures path == LinePath(points)
  {
    path := [MoveTo(points[0].x, points[0].y)];
    for i := 1 to |points|
      invariant path == [MoveTo(points[0].x, points[0].y)] + Segments(points, i)
    {
      var prev := points[i - 1];
      var curr := points[i];
      var cpx := (prev.x + curr.x) / 2.0;
      path := path + [QuadTo(prev.x, prev.y, cpx, (prev.y + curr.y) / 2.0)];
    }
    path := path + [LineTo(points[|points| - 1].x, points[|points| - 1].y)];
  }

  /** The area path: the line path closed down to the bottom edge. */
  function AreaPath(points: seq<Point>, height: real): (area: seq<Command>)
    requires |points| >= 1
    ensures |area| == |LinePath(points)| + 3
    ensures area[..|LinePath(points)|] == LinePath(points)
    ensures area[|area| - 1] == Close
  {
    LinePath(points)
      + [LineTo(points[|points| - 1].x, height - Padding), LineTo(points[0].x, height - Padding), Close]
  }

  datatype Trend = Up | Down | Neutral

  /** `trend`: up when the last value is at least the first. */
  function TrendOf(data: seq<real>): (t: Trend)
    ensures t == Neutral <==> |data| < 2
    ensures |data| >= 2 ==> (t == Up <==> data[|data| - 1] >= data[0])
  {
    if |data| < 2 then Neutral
    else if data[|data| - 1] >= data[0] then Up
    else Down
  }

  /** What the memoised computation returns. */
  datatype Shape = Shape(path: seq<Command>, area: seq<Command>, trend: Trend)

  /** Fewer than two values give empty paths and no trend; otherwise the paths
      through the scaled points. */
  function ShapeOf(data: seq<real>, width: real, height: real): (s: Shape)
    ensures |data| < 2 <==> s.path == []
    ensures |data| < 2 ==> s.area == [] && s.trend == Neutral
    ensures s.trend == TrendOf(data)
  {
    if |data| < 2 then Shape([], [], Neutral)
    else
      var points := Points(data, width, height);
      Shape(LinePath(points), AreaPath(points, height), TrendOf(data))
  }

  /** Whether anything is drawn (`data.length < 2` returns nothing). */
  predicate Rendered(data: seq<real>)
  {
    |data| >= 2
  }

  /** The end dot's centre, computed on its own from the data. */
  function EndDot(data: seq<real>, width: real, height: real): Point
    requires Rendered(data)
  {
    var n := |data| as real;
    var cx := 2.0 + ((n - 1.0) / (n - 1.0)) * (width - 4.0);
    var cy := 2.0 + (1.0 - (data[|data| - 1] - SeqMin(data)) / Range(data)) * (height - 4.0);
    Point(cx, cy)
  }

  /** The end dot sits exactly on the line's last point. */
  lemma EndDotOnLastPoint(data: seq<real>, width: real, height: real)
    requires Rendered(data)
    ensures EndDot(data, width, height) == PointAt(data, |data| - 1, width, height)
    ensures EndDot(data, width, height) == Points(data, width, height)[|data| - 1]
  {
  }

  /** The colour for the trend: green up, red down, else the requested colour. */
  function TrendColour(trend: Trend, colour: string): (c: string)
    ensures trend == Up ==> c == "stroke-emerald-500 fill-emerald-500"
    ensures trend == Down ==> c == "stroke-rose-500 fill-rose-500"
    ensures trend == Neutral ==> c == BaseColour(colour)
  {
    match trend
    case Up => "stroke-emerald-500 fill-emerald-500"
    case Down => "stroke-rose-500 fill-rose-500"
    case Neutral => BaseColour(colour)
  }

  /** `getColor`. */
  function BaseColour(colour: string): string
  {
    if colour == "primary" then "stroke-primary fill-primary"
    else if colour == "success" then "stroke-emerald-500 fill-emerald-500"
    else if colour == "danger" then "stroke-rose-500 fill-rose-500"
    else "stroke-cyan-500 fill-cyan-500"
  }

  /** With the default props every point lies in the box from (2, 2) to
      (98, 28) and the line runs from x = 2 to x = 98. A drawn sparkline has
      two or more values, so its trend is up or down and it is drawn emerald
      or rose: the `color` prop only reaches `getColor` for the neutral trend
      of fewer than two values, which draws nothing. A flat series counts as
      up and is drawn emerald. */
  lemma DefaultProps(data: seq<real>, i: nat)
    requires |data| >= 2 && i < |data|
    ensures 2.0 <= PointAt(data, i, DefaultWidth, DefaultHeight).y <= 28.0
    ensures PointAt(data, 0, DefaultWidth, DefaultHeight).x == 2.0
    ensures PointAt(data, |data| - 1, DefaultWidth, DefaultHeight).x == 98.0
    ensures ShapeOf(data, DefaultWidth, DefaultHeight).path != []
    ensures TrendColour(ShapeOf(data, DefaultWidth, DefaultHeight).trend, DefaultColour) != BaseColour(DefaultColour)
    ensures data[|data| - 1] == data[0] ==>
      TrendColour(ShapeOf(data, DefaultWidth, DefaultHeight).trend, DefaultColour) == "stroke-emerald-500 fill-emerald-500"
  {
    YPositions(data, DefaultWidth, DefaultHeight, i);
    XPositions(data, DefaultWidth, DefaultHeight, 0, |data| - 1);
  }
}
