/** The builder-mode edits of ToothyProgress: the search for the apex
    nearest to the pointer (builderFindNearestApexForPointer) and the
    back-computation of a fracture point from a dragged apex
    (builderMoveApex). */
module Builder {
  import opened Geometry

  /** The closed window `[px - range, px + range]` an apex x must fall in
      to be a candidate; it is empty when `range` is negative. */
  predicate InWindow(x: real, px: real, range: real)
  {
    px - range <= x <= px + range
  }

  /** The squared Euclidean distance from apex `a` to the pointer. The
      view compares `sqrt` of this, which orders candidates the same. */
  function SqDistance(a: Point, px: real, py: real): real
  {
    (px - a.x) * (px - a.x) + (py - a.y) * (py - a.y)
  }

  /** Apex `i` is a candidate, no candidate is strictly closer, and every
      candidate before it is strictly farther (ties go to the lowest index). */
  ghost predicate IsNearest(data: seq<Point>, px: real, py: real, range: real, i: int)
  {
    && 0 <= i < |data|
    && InWindow(data[i].x, px, range)
    && (forall j :: 0 <= j < |data| && InWindow(data[j].x, px, range) ==>
          SqDistance(data[i], px, py) <= SqDistance(data[j], px, py))
    && (forall j :: 0 <= j < i && InWindow(data[j].x, px, range) ==>
          SqDistance(data[i], px, py) < SqDistance(data[j], px, py))
  }

  /** At most one index is the nearest apex. */
  lemma NearestUnique(data: seq<Point>, px: real, py: real, range: real, i: int, k: int)
    requires IsNearest(data, px, py, range, i)
    requires IsNearest(data, px, py, range, k)
    ensures i == k
  {
  }

  /** The loop of builderFindNearestApexForPointer. `best` replaces the
      running index and `lastL` the running distance; `None` stands for the
      `Float.MAX_VALUE` seed, i.e. no candidate seen yet. A candidate
      replaces the best only when strictly closer. */
  method NearestApex(data: seq<Point>, px: real, py: real, range: real)
    returns (best: Option<nat>)
    ensures best.None? <==> forall j :: 0 <= j < |data| ==> !InWindow(data[j].x, px, range)
    ensures best.Some? ==> IsNearest(data, px, py, range, best.value)
  {
    best := None;
    var lastL := 0.0;
    for i := 0 to |data|
      invariant best.None? <==> forall j :: 0 <= j < i ==> !InWindow(data[j].x, px, range)
      invariant best.Some? ==> IsNearest(data[..i], px, py, range, best.value)
      invariant best.Some? ==> lastL == SqDistance(data[best.value], px, py)
    {
      var apex := data[i];
      if !InWindow(apex.x, px, range) {
        continue;
      }
      var l := SqDistance(apex, px, py);
      if best.None? || l < lastL {
        best := Some(i);
        lastL := l;
      }
    }
    assert data[..|data|] == data;
  }

  /** The fracture point builderMoveApex computes back from the dragged
      apex, given its neighbours. The divisor `stepX` is the distance to the
      previous apex (or from the apex to the next one when there is no
      previous, with offset 1), or 1 when there is neither; a zero `stepX`
      is replaced by 1. The y is the inverse of `half + f.y * half`. */
  function ReverseFracture(apex: Point, prev: Option<Point>, next: Option<Point>, half: real): (f: Point)
    requires half != 0.0
    ensures ApexY(half, f.y) == apex.y
    ensures prev.Some? ==> f.x == (if apex.x == prev.value.x then 0.0 else 1.0)
    ensures prev.None? && next.None? ==> f.x == apex.x
    ensures prev.None? && next.Some? && next.value.x == apex.x ==> f.x == apex.x - 1.0
    ensures prev.None? && next.Some? && next.value.x != apex.x ==>
              f.x * (next.value.x - apex.x) == apex.x - 1.0
  {
    var stepX0 := if prev.Some? then apex.x - prev.value.x
                  else if next.Some? then next.value.x - apex.x
                  else 1.0;
    var prevX := if prev.Some? then prev.value.x else if next.Some? then 1.0 else 0.0;
    var stepX := if stepX0 == 0.0 then 1.0 else stepX0;
    assert prev.Some? && stepX0 != 0.0 ==> (apex.x - prevX) / stepX == 1.0;
    var y := (apex.y - half) / half;
    assert ApexY(half, y) == apex.y by {
      assert y * half == apex.y - half;
    }
    Point(if stepX != 0.0 then (apex.x - prevX) / stepX else 0.0, y)
  }

  /** Replacing the x of apex `i` by one between its neighbours' keeps the
      apexes ordered left to right. */
  lemma DragKeepsOrder(data: seq<Point>, i: nat, p: Point)
    requires NonDecreasingX(data)
    requires i < |data|
    requires i > 0 ==> data[i - 1].x <= p.x
    requires i + 1 < |data| ==> p.x <= data[i + 1].x
    ensures NonDecreasingX(data[i := p])
  {
    var s := data[i := p];
    forall a, b | 0 <= a < b < |s| ensures s[a].x <= s[b].x {
      if a == i {
        assert data[i + 1].x <= data[b].x;
      } else if b == i {
        assert data[a].x <= data[i - 1].x;
      } else {
        assert s[a] == data[a] && s[b] == data[b];
      }
    }
  }

  /** The reverse step does not invert the derivation for x: fractures
      (0, 0), (0.5, 0), (0, 0) on a 300-wide canvas of half height 50 give
      apex 1 at x = 50; dragged to x = 80 it gets fracture x = 1, which
      derives back to x = 100. */
  lemma DragDoesNotRederive()
    ensures Apexes([Point(0.0, 0.0), Point(0.5, 0.0), Point(0.0, 0.0)], 300, 50.0)[1] == Point(50.0, 50.0)
    ensures ReverseFracture(Point(80.0, 50.0), Some(Point(0.0, 50.0)), Some(Point(300.0, 50.0)), 50.0)
            == Point(1.0, 0.0)
    ensures Apexes([Point(0.0, 0.0), Point(1.0, 0.0), Point(0.0, 0.0)], 300, 50.0)[1].x == 100.0
  {
    assert Step(300, 3) == 100 by {
      NatDivBounds(300, 3);
    }
    ApexesAt([Point(0.0, 0.0), Point(0.5, 0.0), Point(0.0, 0.0)], 300, 50.0, 0);
    ApexesAt([Point(0.0, 0.0), Point(0.5, 0.0), Point(0.0, 0.0)], 300, 50.0, 1);
    ApexesAt([Point(0.0, 0.0), Point(1.0, 0.0), Point(0.0, 0.0)], 300, 50.0, 0);
    ApexesAt([Point(0.0, 0.0), Point(1.0, 0.0), Point(0.0, 0.0)], 300, 50.0, 1);
  }

  /** The drag range of the first apex can be empty: on a 300-wide canvas
      the default track puts apex 1 at x = 16.5, below any start padding
      over 16.5, and the drag range of apex 0 runs from the start padding
      to that x. */
  lemma DefaultDragRangeCanBeEmpty()
    ensures Apexes(DefaultFracture(), 300, 50.0)[1].x == 16.5
  {
    assert Step(300, 9) == 33 by {
      NatDivBounds(300, 9);
    }
    ApexesAt(DefaultFracture(), 300, 50.0, 0);
    ApexesAt(DefaultFracture(), 300, 50.0, 1);
  }
}
