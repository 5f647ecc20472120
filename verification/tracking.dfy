/** The pure expressions of ToothyProgress.trackTouch: the pointer clamp
    and the progress it yields. */
module Tracking {
  import opened Geometry

  /** The pointer x kept by trackTouch: the upper bound `hi` is tested
      first, then the lower bound `lo`. */
  function ClampPointer(x: real, lo: real, hi: real): (p: real)
    ensures lo <= hi ==> lo <= p <= hi
    ensures p == x || p == lo || p == hi
    ensures hi < lo ==> p == (if x >= hi then hi else lo)
  {
    if x >= hi then hi else if x <= lo then lo else x
  }

  /** On a non-empty range the clamp is Kotlin's `coerceIn`. */
  lemma ClampIsCoerceIn(x: real, lo: real, hi: real)
    requires lo <= hi
    ensures ClampPointer(x, lo, hi) == CoerceIn(x, lo, hi)
  {
  }

  /** The progress of a pointer at `pointer`: its offset from the start
      padding as a fraction of the canvas width, capped at 1. */
  function TouchProgress(pointer: real, paddingStart: int, canvasWidth: int): (r: real)
    requires canvasWidth > 0
    ensures r <= 1.0
    ensures pointer >= paddingStart as real ==> r >= 0.0
    ensures pointer - paddingStart as real <= canvasWidth as real ==>
              r * canvasWidth as real == pointer - paddingStart as real
    ensures pointer - paddingStart as real > canvasWidth as real ==> r == 1.0
  {
    var fraction := (pointer - paddingStart as real) / canvasWidth as real;
    assert fraction * canvasWidth as real == pointer - paddingStart as real;
    CoerceAtMost(fraction, 1.0)
  }

  /** The pointer as trackTouch clamps it, from an event at `x`. */
  function TouchPointer(x: real, paddingStart: int, paddingEnd: int, canvasWidth: int): real
  {
    ClampPointer(x, paddingStart as real, (canvasWidth + paddingEnd) as real)
  }

  /** Whenever the start padding is at most the canvas width plus the end
      padding, a touch yields a progress in [0, 1]. */
  lemma TouchProgressInUnit(x: real, paddingStart: int, paddingEnd: int, canvasWidth: int)
    requires canvasWidth > 0
    requires paddingStart <= canvasWidth + paddingEnd
    ensures 0.0 <= TouchProgress(TouchPointer(x, paddingStart, paddingEnd, canvasWidth), paddingStart, canvasWidth) <= 1.0
  {
  }

  /** With the end padding at least the start padding, a touch at the right
      edge reaches full progress. */
  lemma TouchReachesFull(x: real, paddingStart: int, paddingEnd: int, canvasWidth: int)
    requires canvasWidth > 0
    requires paddingStart <= paddingEnd
    requires x >= (canvasWidth + paddingEnd) as real
    ensures TouchProgress(TouchPointer(x, paddingStart, paddingEnd, canvasWidth), paddingStart, canvasWidth) == 1.0
  {
    var r := (TouchPointer(x, paddingStart, paddingEnd, canvasWidth) - paddingStart as real) / canvasWidth as real;
    assert r * canvasWidth as real >= canvasWidth as real;
    assert r >= 1.0;
  }

  /** The upper clamp is the canvas width plus the end padding, so with the
      start padding larger than the end padding no touch reaches full
      progress. */
  lemma TouchNeverFull(x: real, paddingStart: int, paddingEnd: int, canvasWidth: int)
    requires canvasWidth > 0
    requires paddingEnd < paddingStart
    ensures TouchProgress(TouchPointer(x, paddingStart, paddingEnd, canvasWidth), paddingStart, canvasWidth) < 1.0
  {
    var p := TouchPointer(x, paddingStart, paddingEnd, canvasWidth);
    var r := (p - paddingStart as real) / canvasWidth as real;
    assert p - paddingStart as real < canvasWidth as real;
    assert r * canvasWidth as real < canvasWidth as real;
  }
}
