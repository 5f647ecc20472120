/** The state of the ToothyProgress view without its drawing: progress,
    touch state, the two parallel apex lists and the canvas dimensions. */
module Toothy {
  import opened Geometry
  import opened Path
  import opened Builder
  import opened Tracking

  /** The masked action of a `MotionEvent`. */
  datatype Action = Down | Move | Up | Cancel | Other

  /** A listener callback, with the arguments it is given. */
  datatype Notice =
    | ProgressChanged(progress: real, fromUser: bool)
    | StartTrackingTouch(progress: real)
    | StopTrackingTouch(progress: real)

  class ToothyProgress {
    var progress: real
    var isTouching: bool
    var pointerPosition: real
    var nearestApexIndex: int
    /** Pixel apexes, derived from `fractureData`. */
    var data: seq<Point>
    /** Normalised fracture points. */
    var fractureData: seq<Point>
    var canvasWidth: int
    var canvasHeight: int
    var paddingStart: int
    var paddingEnd: int
    var isEnabled: bool
    var isBuilderMode: bool
    /** The listener callbacks fired so far, oldest first. */
    ghost var notices: seq<Notice>

    /** The two lists are parallel. */
    ghost predicate Valid()
      reads this`data, this`fractureData
    {
      |data| == |fractureData|
    }

    /** Every apex is what the derivation gives for the fracture points on
        the current canvas. Resizing and setting fracture data establish
        this; dragging an apex breaks it. */
    ghost predicate Derived()
      reads this`data, this`fractureData, this`canvasWidth, this`canvasHeight
    {
      |fractureData| > 0 && data == Apexes(fractureData, canvasWidth, Half())
    }

    /** `canvasHalfHeight`, a `Float` division. */
    function Half(): real
      reads this`canvasHeight
    {
      canvasHeight as real / 2.0
    }

    constructor (canvasWidth: int, canvasHeight: int, paddingStart: int, paddingEnd: int)
      ensures Valid()
      ensures progress == 0.0 && !isTouching && pointerPosition == -1.0 && nearestApexIndex == -1
      ensures data == [] && fractureData == [] && notices == []
      ensures isEnabled && !isBuilderMode
      ensures this.canvasWidth == canvasWidth && this.canvasHeight == canvasHeight
      ensures this.paddingStart == paddingStart && this.paddingEnd == paddingEnd
    {
      progress := 0.0;
      isTouching := false;
      pointerPosition := -1.0;
      nearestApexIndex := -1;
      data := [];
      fractureData := [];
      this.canvasWidth := canvasWidth;
      this.canvasHeight := canvasHeight;
      this.paddingStart := paddingStart;
      this.paddingEnd := paddingEnd;
      isEnabled := true;
      isBuilderMode := false;
      notices := [];
    }

    /** The `progress` setter: stores the value and tells the listener,
        flagging whether a touch is under way. */
    method AssignProgress(value: real)
      modifies this`progress, this`notices
      ensures progress == value
      ensures notices == old(notices) + [ProgressChanged(value, isTouching)]
    {
      progress := value;
      notices := notices + [ProgressChanged(value, isTouching)];
    }

    /** setProgress with `animated = false`: ignored during a touch. */
    method SetProgress(value: real)
      modifies this`progress, this`notices
      ensures old(isTouching) ==> progress == old(progress) && notices == old(notices)
      ensures !old(isTouching) ==> progress == value && notices == old(notices) + [ProgressChanged(value, false)]
    {
      if isTouching {
        return;
      }
      AssignProgress(value);
    }

    /** setFractureData: both lists replaced, `data` by the derivation. An
        empty list makes the derivation divide by zero, which throws. */
    method SetFractureData(pts: seq<Point>)
      requires |pts| > 0
      modifies this`data, this`fractureData
      ensures fractureData == pts
      ensures data == Apexes(pts, canvasWidth, Half())
      ensures Valid() && Derived()
    {
      var apexes := StepsDataByFracture(pts, canvasWidth, paddingStart, Half());
      data := apexes;
      fractureData := pts;
    }

    /** onSizeChanged: the canvas takes its new size and the nine default
        pairs are loaded. With a non-negative width the apexes run left to
        right from 0 to the width. */
    method OnSizeChanged(newCanvasWidth: int, newCanvasHeight: int)
      modifies this`canvasWidth, this`canvasHeight, this`data, this`fractureData
      ensures canvasWidth == newCanvasWidth && canvasHeight == newCanvasHeight
      ensures fractureData == DefaultFracture()
      ensures Valid() && Derived()
      ensures canvasWidth >= 0 ==>
                NonDecreasingX(data) && data[0].x == 0.0 && data[8].x == canvasWidth as real
    {
      canvasWidth := newCanvasWidth;
      canvasHeight := newCanvasHeight;
      SetFractureData(DefaultFracture());
      if canvasWidth >= 0 {
        DefaultFractureOrdered(canvasWidth, Half());
      }
    }

    /** setFractureY: when `index` is in range of both lists, only entry
        `index` changes, its y set to `scale` in `fractureData` and to
        `half + scale * half` in `data`; otherwise nothing changes. Apexes
        that were derived from the fracture points stay derived. */
    method SetFractureY(index: int, scale: real)
      modifies this`data, this`fractureData
      ensures !(0 <= index < |old(data)| && index < |old(fractureData)|) ==>
                data == old(data) && fractureData == old(fractureData)
      ensures 0 <= index < |old(data)| && index < |old(fractureData)| ==>
                && data == old(data)[index := Point(old(data)[index].x, ApexY(Half(), scale))]
                && fractureData == old(fractureData)[index := Point(old(fractureData)[index].x, scale)]
      ensures old(Valid()) ==> Valid()
      ensures old(Derived()) ==> Derived()
    {
      if !(0 <= index < |data|) || !(0 <= index < |fractureData|) {
        return;
      }
      if Derived() {
        ApexesWithY(fractureData, canvasWidth, Half(), index, scale);
      }
      data := data[index := Point(data[index].x, ApexY(Half(), scale))];
      fractureData := fractureData[index := Point(fractureData[index].x, scale)];
    }

    /** getFractureY: the y of fracture point `index`, or 0 out of range. */
    function GetFractureY(index: int): (y: real)
      reads this`fractureData
      ensures 0 <= index < |fractureData| ==> y == fractureData[index].y
      ensures !(0 <= index < |fractureData|) ==> y == 0.0
    {
      if 0 <= index < |fractureData| then fractureData[index].y else 0.0
    }

    /** newApex: inserts the fracture point (1 - nextY, nextY) at `position`
        and re-derives `data`; a position outside 0..|data| is ignored.
        `nextY` stands for `nextFloat() * 2 - 1`. Kotlin's default argument,
        `newApex()`, is the call with `position = |data|`, which appends. */
    method NewApex(position: int, nextY: real)
      requires Valid()
      requires -1.0 <= nextY < 1.0
      modifies this`data, this`fractureData
      ensures Valid()
      ensures !(0 <= position <= |old(data)|) ==> data == old(data) && fractureData == old(fractureData)
      ensures 0 <= position <= |old(data)| ==>
                && |fractureData| == |old(fractureData)| + 1
                && fractureData[..position] == old(fractureData)[..position]
                && fractureData[position] == Point(1.0 - nextY, nextY)
                && fractureData[position + 1..] == old(fractureData)[position..]
                && Derived()
    {
      if !(0 <= position <= |data|) {
        return;
      }
      var pts := fractureData[..position] + [Point(1.0 - nextY, nextY)] + fractureData[position..];
      SetFractureData(pts);
      assert fractureData[position + 1..] == old(fractureData)[position..];
    }

    /** drawProgress reduced to the vertices it hands to `moveTo` and
        `lineTo`: each apex up to the fill, then the clamped endpoint, and
        stop. */
    method DrawProgress(progress: real) returns (path: seq<Point>)
      ensures path == ProgressPath(data, progress, canvasWidth)
    {
      if data == [] || progress == 0.0 {
        return [];
      }
      var first := data[0];
      var startX := first.x;
      var startY := first.y;
      var maxValue := progress * canvasWidth as real;
      path := [Point(startX, startY)];
      for nextIndex := 1 to |data|
        invariant path == data[..nextIndex]
        invariant startX == data[nextIndex - 1].x && startY == data[nextIndex - 1].y
        invariant forall j :: 1 <= j < nextIndex ==> data[j].x <= maxValue
      {
        var point := data[nextIndex];
        var nextX := CoerceAtMost(point.x, maxValue);
        var nextY := CoordinateY(Point(startX, startY), point, maxValue);
        path := path + [Point(nextX, nextY)];
        startX := nextX;
        startY := nextY;
        if point.x > maxValue {
          FirstBeyondIs(data, maxValue, 1, nextIndex);
          return;
        }
      }
      FirstBeyondIs(data, maxValue, 1, |data|);
      assert data[..|data|] == data;
    }

    /** stopTrackingTouch: the touch state is reset and the listener told. */
    method StopTracking()
      modifies this`isTouching, this`pointerPosition, this`nearestApexIndex, this`notices
      ensures !isTouching && pointerPosition == -1.0 && nearestApexIndex == -1
      ensures notices == old(notices) + [StopTrackingTouch(progress)]
    {
      isTouching := false;
      pointerPosition := -1.0;
      nearestApexIndex := -1;
      notices := notices + [StopTrackingTouch(progress)];
    }

    /** The candidate window half-width of the nearest-apex search. */
    function SearchRange(): real
      reads this`data, this`canvasWidth
    {
      if |data| == 0 then 0.0 else canvasWidth as real / |data| as real
    }

    /** Some apex lies in the search window around `px`. */
    ghost predicate HasCandidate(px: real)
      reads this`data, this`canvasWidth
    {
      exists j :: 0 <= j < |data| && InWindow(data[j].x, px, SearchRange())
    }

    /** builderFindNearestApexForPointer: latches the nearest candidate
        apex, or keeps the previous index when there is none. */
    method FindNearestApexForPointer(px: real, py: real)
      modifies this`nearestApexIndex
      ensures HasCandidate(px) ==> IsNearest(data, px, py, SearchRange(), nearestApexIndex)
      ensures !HasCandidate(px) ==> nearestApexIndex == old(nearestApexIndex)
    {
      var best := NearestApex(data, px, py, SearchRange());
      if best.Some? {
        nearestApexIndex := best.value;
      }
    }

    /** trackTouch: the listener hears that tracking starts (unless a touch
        is already under way), the pointer is clamped, progress follows it,
        and in builder mode the nearest apex is searched for. */
    method TrackTouch(x: real, y: real)
      requires canvasWidth > 0
      modifies this`isTouching, this`pointerPosition, this`progress, this`nearestApexIndex, this`notices
      ensures isTouching
      ensures pointerPosition == TouchPointer(x, paddingStart, paddingEnd, canvasWidth)
      ensures progress == TouchProgress(pointerPosition, paddingStart, canvasWidth)
      ensures paddingStart <= canvasWidth + paddingEnd ==> 0.0 <= progress <= 1.0
      ensures notices == old(notices)
                         + (if old(isTouching) then [] else [StartTrackingTouch(old(progress))])
                         + [ProgressChanged(progress, true)]
      ensures isBuilderMode && HasCandidate(pointerPosition) ==>
                IsNearest(data, pointerPosition, y, SearchRange(), nearestApexIndex)
      ensures !(isBuilderMode && HasCandidate(pointerPosition)) ==> nearestApexIndex == old(nearestApexIndex)
    {
      if !isTouching {
        notices := notices + [StartTrackingTouch(progress)];
      }
      isTouching := true;
      pointerPosition := TouchPointer(x, paddingStart, paddingEnd, canvasWidth);
      AssignProgress(TouchProgress(pointerPosition, paddingStart, canvasWidth));
      if paddingStart <= canvasWidth + paddingEnd {
        TouchProgressInUnit(x, paddingStart, paddingEnd, canvasWidth);
      }
      if isBuilderMode {
        FindNearestApexForPointer(pointerPosition, y);
      }
    }

    /** `nearestApex` is not null. */
    predicate NearestApexValid()
      reads this`nearestApexIndex, this`data
    {
      0 <= nearestApexIndex < |data|
    }

    /** The lowest x apex `i` may be dragged to: its predecessor's, or the
        start padding for the first apex. */
    function DragLow(i: int): real
      reads this`data, this`paddingStart
      requires 0 <= i < |data|
    {
      if i > 0 then data[i - 1].x else paddingStart as real
    }

    /** The highest x apex `i` may be dragged to: its successor's, or the
        canvas width for the last apex. */
    function DragHigh(i: int): real
      reads this`data, this`canvasWidth
      requires 0 <= i < |data|
    {
      if i + 1 < |data| then data[i + 1].x else canvasWidth as real
    }

    /** The clamps of builderMoveApex do not throw and the half height is
        not zero. */
    predicate CanDrag()
      reads this`nearestApexIndex, this`data, this`paddingStart, this`canvasWidth, this`canvasHeight
    {
      NearestApexValid() ==> DragLow(nearestApexIndex) <= DragHigh(nearestApexIndex) && canvasHeight > 0
    }

    /** Where builderMoveApex puts apex `i` for an event at (x, y): x
        clamped between its neighbours, y into the canvas height. */
    function DraggedApex(i: int, x: real, y: real): Point
      reads this`data, this`paddingStart, this`canvasWidth, this`canvasHeight
      requires 0 <= i < |data| && DragLow(i) <= DragHigh(i) && canvasHeight >= 0
    {
      Point(CoerceIn(x, DragLow(i), DragHigh(i)), CoerceIn(y, 0.0, canvasHeight as real))
    }

    /** The fracture point builderMoveApex computes back from the dragged
        apex `i` and its neighbours. */
    function DraggedFracture(i: int, x: real, y: real): Point
      reads this`data, this`paddingStart, this`canvasWidth, this`canvasHeight
      requires 0 <= i < |data| && DragLow(i) <= DragHigh(i) && canvasHeight > 0
    {
      ReverseFracture(DraggedApex(i, x, y),
                      if i > 0 then Some(data[i - 1]) else None,
                      if i + 1 < |data| then Some(data[i + 1]) else None,
                      Half())
    }

    /** builderMoveApex: the latched apex moves to the event position,
        clamped between its neighbours and into the canvas height, and its
        fracture point is computed back from it; nothing else changes. The
        fracture y inverts the derivation; the fracture x does not. */
    method MoveApex(x: real, y: real)
      requires Valid() && CanDrag()
      modifies this`data, this`fractureData
      ensures Valid()
      ensures !old(NearestApexValid()) ==> data == old(data) && fractureData == old(fractureData)
      ensures old(NearestApexValid()) ==>
                var i := old(nearestApexIndex);
                && data == old(data)[i := old(DraggedApex(i, x, y))]
                && fractureData == old(fractureData)[i := old(DraggedFracture(i, x, y))]
                && old(DragLow(i)) <= data[i].x <= old(DragHigh(i))
                && 0.0 <= data[i].y <= canvasHeight as real
                && ApexY(Half(), fractureData[i].y) == data[i].y
                && (i > 0 ==> fractureData[i].x == (if data[i].x == data[i - 1].x then 0.0 else 1.0))
      ensures old(NonDecreasingX(data)) ==> NonDecreasingX(data)
    {
      var i := nearestApexIndex;
      if !(0 <= i < |data|) || !(0 <= i < |fractureData|) {
        return;
      }
      var prevApex := if i > 0 then Some(data[i - 1]) else None;
      var nextApex := if i + 1 < |data| then Some(data[i + 1]) else None;
      var apex := Point(CoerceIn(x, DragLow(i), DragHigh(i)), CoerceIn(y, 0.0, canvasHeight as real));
      var fracture := ReverseFracture(apex, prevApex, nextApex, Half());
      assert apex == DraggedApex(i, x, y) && fracture == DraggedFracture(i, x, y);
      if NonDecreasingX(data) {
        DragKeepsOrder(data, i, apex);
      }
      data := data[i := apex];
      fractureData := fractureData[i := fracture];
    }

    /** What a touch event needs of the state for the branch it takes:
        dragging needs `CanDrag`, tracking a positive canvas width. */
    predicate TouchDefined(action: Action)
      reads this`isEnabled, this`nearestApexIndex, this`data, this`paddingStart, this`canvasWidth, this`canvasHeight
    {
      isEnabled && (action == Down || action == Move) ==>
        if NearestApexValid() then CanDrag() else canvasWidth > 0
    }

    /** onTouchEvent: a disabled view ignores the event; down and move drag
        the latched apex or else track the pointer; up and cancel stop
        tracking; anything else is left to the base view, whose answer is
        `superHandled`. */
    method OnTouchEvent(action: Action, x: real, y: real, superHandled: bool) returns (handled: bool)
      requires Valid() && TouchDefined(action)
      modifies this
      ensures Valid()
      ensures canvasWidth == old(canvasWidth) && canvasHeight == old(canvasHeight)
      ensures paddingStart == old(paddingStart) && paddingEnd == old(paddingEnd)
      ensures isEnabled == old(isEnabled) && isBuilderMode == old(isBuilderMode)
      ensures !old(isEnabled) ==> !handled
      ensures !old(isEnabled) || action == Other ==> unchanged(this)
      ensures old(isEnabled) ==> handled == (action != Other || superHandled)
      ensures old(isEnabled) && (action == Up || action == Cancel) ==>
                && !isTouching && pointerPosition == -1.0 && nearestApexIndex == -1
                && notices == old(notices) + [StopTrackingTouch(old(progress))]
                && data == old(data) && fractureData == old(fractureData) && progress == old(progress)
      ensures old(isEnabled) && (action == Down || action == Move) && old(NearestApexValid()) ==>
                var i := old(nearestApexIndex);
                && data == old(data)[i := old(DraggedApex(i, x, y))]
                && fractureData == old(fractureData)[i := old(DraggedFracture(i, x, y))]
                && nearestApexIndex == i && isTouching == old(isTouching) && progress == old(progress)
                && pointerPosition == old(pointerPosition) && notices == old(notices)
      ensures old(isEnabled) && (action == Down || action == Move) && !old(NearestApexValid()) ==>
                && isTouching && data == old(data) && fractureData == old(fractureData)
                && pointerPosition == TouchPointer(x, paddingStart, paddingEnd, canvasWidth)
                && progress == TouchProgress(pointerPosition, paddingStart, canvasWidth)
                && notices == old(notices)
                              + (if old(isTouching) then [] else [StartTrackingTouch(old(progress))])
                              + [ProgressChanged(progress, true)]
                && (isBuilderMode && HasCandidate(pointerPosition) ==>
                      IsNearest(data, pointerPosition, y, SearchRange(), nearestApexIndex))
                && (!(isBuilderMode && HasCandidate(pointerPosition)) ==>
                      nearestApexIndex == old(nearestApexIndex))
    {
      if !isEnabled {
        return false;
      }
      match action {
        case Down | Move =>
          if !NearestApexValid() {
            TrackTouch(x, y);
          } else {
            MoveApex(x, y);
          }
          return true;
        case Up | Cancel =>
          StopTracking();
          return true;
        case Other =>
          return superHandled;
      }
    }
  }
}
