/** The vertex sequence that ToothyProgress.drawProgress hands to
    `moveTo`/`lineTo`, and the endpoint blend of getCoordinateY. */
module Path {
  import opened Geometry

  /** The blend `(a + b*l) / (1 + l)` of getCoordinateY. */
  function Blend(a: real, b: real, l: real): real
    requires 0.0 <= l
  {
    (a + b * l) / (1.0 + l)
  }

  /** A blend with `l >= 0` lies between `a` and `b`, and is `a` when `l` is 0. */
  lemma BlendBetween(a: real, b: real, l: real)
    requires 0.0 <= l
    ensures Min(a, b) <= Blend(a, b, l) <= Max(a, b)
    ensures l == 0.0 ==> Blend(a, b, l) == a
  {
    var y := Blend(a, b, l);
    assert y * (1.0 + l) == a + b * l;
    assert Min(a, b) * l <= b * l <= Max(a, b) * l;
    assert Min(a, b) * (1.0 + l) <= y * (1.0 + l) <= Max(a, b) * (1.0 + l);
  }

  /** The blend weight `|(start.x - maxX) / (maxX - end.x)|`, for a fill
      that stops before `end`. */
  function Lambda(start: Point, end: Point, maxX: real): (l: real)
    requires maxX < end.x
    ensures 0.0 <= l
    ensures start.x == maxX ==> l == 0.0
  {
    Abs((start.x - maxX) / (maxX - end.x))
  }

  /** The y of the clamped endpoint on the segment from `start` to `end`
      when the fill stops at `maxX`: past the end it is the end's y;
      otherwise the blend of the two ys by `Lambda`, which stays between
      them and is the start's y when the fill stops exactly at the start. */
  function CoordinateY(start: Point, end: Point, maxX: real): (y: real)
    ensures maxX >= end.x ==> y == end.y
    ensures maxX < end.x ==> Min(start.y, end.y) <= y <= Max(start.y, end.y)
    ensures maxX < end.x && start.x == maxX ==> y == start.y
  {
    if maxX >= end.x then end.y
    else
      var lambda := Lambda(start, end, maxX);
      BlendBetween(start.y, end.y, lambda);
      Blend(start.y, end.y, lambda)
  }

  /** The first index from `i` on whose apex lies beyond `maxX`, or
      `|data|` when there is none. */
  function FirstBeyond(data: seq<Point>, maxX: real, i: nat): (m: nat)
    requires i <= |data|
    ensures i <= m <= |data|
    ensures forall k :: i <= k < m ==> data[k].x <= maxX
    ensures m < |data| ==> data[m].x > maxX
    decreases |data| - i
  {
    if i == |data| then i
    else if data[i].x > maxX then i
    else FirstBeyond(data, maxX, i + 1)
  }

  /** `FirstBeyond` from `i` is `k` when every apex from `i` up to `k` is
      within `maxX` and apex `k`, if any, is beyond it. */
  lemma {:induction false} FirstBeyondIs(data: seq<Point>, maxX: real, i: nat, k: nat)
    requires i <= k <= |data|
    requires forall j :: i <= j < k ==> data[j].x <= maxX
    requires k < |data| ==> data[k].x > maxX
    ensures FirstBeyond(data, maxX, i) == k
    decreases k - i
  {
    if i < k {
      FirstBeyondIs(data, maxX, i + 1, k);
    }
  }

  /** The path drawn for `progress` on a canvas `canvasWidth` wide: nothing
      for empty data or zero progress; otherwise the first apex, then every
      apex up to the first one (after the first) beyond `progress *
      canvasWidth`, which is replaced by the clamped endpoint and ends the
      path. */
  function ProgressPath(data: seq<Point>, progress: real, canvasWidth: int): (path: seq<Point>)
    ensures path == [] <==> data == [] || progress == 0.0
    ensures path != [] ==> path[0] == data[0] && |path| <= |data|
    ensures forall k :: 1 <= k < |path| ==> path[k].x <= progress * canvasWidth as real
    ensures forall k :: 1 <= k < |path| - 1 ==> path[k] == data[k]
  {
    if data == [] || progress == 0.0 then []
    else
      var maxX := progress * canvasWidth as real;
      var m := FirstBeyond(data, maxX, 1);
      data[..m] + if m < |data| then [Point(maxX, CoordinateY(data[m - 1], data[m], maxX))] else []
  }

  /** Every apex at or before the first one beyond the fill is drawn: those
      within the fill unchanged, and the first one beyond it as the clamped
      endpoint, which ends the path. */
  lemma ProgressPathStops(data: seq<Point>, progress: real, canvasWidth: int, k: nat)
    requires progress != 0.0
    requires 1 <= k < |data|
    requires forall j :: 1 <= j < k ==> data[j].x <= progress * canvasWidth as real
    ensures var path := ProgressPath(data, progress, canvasWidth);
            var maxX := progress * canvasWidth as real;
            && k < |path|
            && (data[k].x <= maxX ==> path[k] == data[k])
            && (data[k].x > maxX ==>
                  |path| == k + 1 && path[k] == Point(maxX, CoordinateY(data[k - 1], data[k], maxX)))
  {
    var maxX := progress * canvasWidth as real;
    var m := FirstBeyond(data, maxX, 1);
  }

  /** With every apex within the fill, the whole apex list is drawn. */
  lemma ProgressPathWhole(data: seq<Point>, progress: real, canvasWidth: int)
    requires data != [] && progress != 0.0
    requires forall k :: 1 <= k < |data| ==> data[k].x <= progress * canvasWidth as real
    ensures ProgressPath(data, progress, canvasWidth) == data
  {
    var m := FirstBeyond(data, progress * canvasWidth as real, 1);
    assert m == |data|;
  }

  /** The background path (progress 1) over ordered derived apexes is the
      whole apex list: the last apex sits at the canvas width. */
  lemma BackgroundIsWholeTrack(pts: seq<Point>, canvasWidth: int, half: real)
    requires |pts| >= 2
    requires NonDecreasingX(Apexes(pts, canvasWidth, half))
    ensures ProgressPath(Apexes(pts, canvasWidth, half), 1.0, canvasWidth) == Apexes(pts, canvasWidth, half)
  {
    var a := Apexes(pts, canvasWidth, half);
    var n := |pts|;
    ApexesAt(pts, canvasWidth, half, n - 1);
    forall k | 1 <= k < n ensures a[k].x <= 1.0 * canvasWidth as real {
      assert a[k].x <= a[n - 1].x;
    }
    ProgressPathWhole(a, 1.0, canvasWidth);
  }

  /** Three fracture points on a 300 by 100 canvas (half height 50): the
      step is 100 and the apexes are (0, 75), (50, 50) and (300, 100). */
  lemma ThreePointApexes()
    ensures Apexes([Point(0.5, 0.5), Point(0.5, 0.0), Point(1.0, 1.0)], 300, 50.0)
            == [Point(0.0, 75.0), Point(50.0, 50.0), Point(300.0, 100.0)]
  {
    var pts := [Point(0.5, 0.5), Point(0.5, 0.0), Point(1.0, 1.0)];
    assert Step(300, 3) == 100 by {
      NatDivBounds(300, 3);
    }
    DeriveNext(pts, 100.0, 300.0, 50.0, 0, 0.0);
    DeriveNext(pts, 100.0, 300.0, 50.0, 1, 50.0);
    DeriveNext(pts, 100.0, 300.0, 50.0, 2, 300.0);
  }

  /** Those apexes filled to 0.3 draw (0, 75), (50, 50) and the clamped
      endpoint (90, 58). */
  lemma ThreePointPath()
    ensures ProgressPath([Point(0.0, 75.0), Point(50.0, 50.0), Point(300.0, 100.0)], 0.3, 300)
            == [Point(0.0, 75.0), Point(50.0, 50.0), Point(90.0, 58.0)]
  {
    var apexes := [Point(0.0, 75.0), Point(50.0, 50.0), Point(300.0, 100.0)];
    assert FirstBeyond(apexes, 90.0, 1) == 2;
    assert Lambda(Point(50.0, 50.0), Point(300.0, 100.0), 90.0) == 4.0 / 21.0;
    assert CoordinateY(Point(50.0, 50.0), Point(300.0, 100.0), 90.0) == 58.0;
  }
}
