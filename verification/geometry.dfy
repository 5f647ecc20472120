/** Points of the track and the derivation of pixel apexes from normalised
    fracture points (ToothyProgress.getStepsDataByFracture). Kotlin `Float`
    is read as `real`. */
module Geometry {

  /** A `PointF`, held by value. */
  datatype Point = Point(x: real, y: real)

  datatype Option<T> = None | Some(value: T)

  function Min(a: real, b: real): real { if a <= b then a else b }

  function Max(a: real, b: real): real { if a <= b then b else a }

  function Abs(a: real): real { if a < 0.0 then -a else a }

  /** Kotlin `coerceAtMost`: `v`, or `hi` when `v` exceeds it. */
  function CoerceAtMost(v: real, hi: real): (r: real)
    ensures r <= hi
    ensures r == v || r == hi
    ensures v <= hi ==> r == v
  {
    if v > hi then hi else v
  }

  /** Kotlin `coerceIn`: `v` brought into `[lo, hi]`; Kotlin throws when the
      range is empty, hence the precondition. */
  function CoerceIn(v: real, lo: real, hi: real): (r: real)
    requires lo <= hi
    ensures lo <= r <= hi
    ensures lo <= v <= hi ==> r == v
    ensures v < lo ==> r == lo
    ensures v > hi ==> r == hi
  {
    if v < lo then lo else if v > hi then hi else v
  }

  /** Quotient of natural numbers by repeated subtraction. */
  function NatDiv(a: nat, b: nat): nat
    requires b > 0
    decreases a
  {
    if a < b then 0 else 1 + NatDiv(a - b, b)
  }

  /** Kotlin's `Int` division by a positive divisor: the quotient is
      truncated toward zero (Dafny's `/` on `int` is Euclidean). */
  function TruncDiv(a: int, b: int): int
    requires b > 0
  {
    if a >= 0 then NatDiv(a, b) else -(NatDiv(-a, b) as int)
  }

  lemma {:induction false} NatDivBounds(a: nat, b: nat)
    requires b > 0
    ensures NatDiv(a, b) * b <= a < NatDiv(a, b) * b + b
    decreases a
  {
    if a >= b {
      NatDivBounds(a - b, b);
      assert NatDiv(a, b) * b == NatDiv(a - b, b) * b + b;
    }
  }

  /** The truncated quotient times the divisor lies between 0 and the
      dividend, less than one divisor away from it. */
  lemma TruncDivBounds(a: int, b: int)
    requires b > 0
    ensures 0 <= a ==> 0 <= TruncDiv(a, b) * b <= a < TruncDiv(a, b) * b + b
    ensures a < 0 ==> TruncDiv(a, b) * b - b < a <= TruncDiv(a, b) * b <= 0
  {
    if a >= 0 {
      NatDivBounds(a, b);
    } else {
      NatDivBounds(-a, b);
      assert TruncDiv(a, b) * b == -(NatDiv(-a, b) * b);
    }
  }

  /** The y of an apex whose fracture point has normalised y `fy`: offset
      from the vertical centre `half` by `fy` half heights. */
  function ApexY(half: real, fy: real): real
  {
    half + fy * half
  }

  /** The horizontal step of the derivation: `canvasWidth / size` in `Int`. */
  function Step(canvasWidth: int, size: int): int
    requires size > 0
  {
    TruncDiv(canvasWidth, size)
  }

  /** The first `k` apexes derived from `pts`, for steps of `step` on a
      canvas `width` wide with half height `half`: the first apex sits at
      x = 0, the last (when there are two or more) at x = width, every
      interior apex `step` times its weight past its predecessor, and every
      y is offset from the vertical centre by the normalised y. */
  function DeriveApexes(pts: seq<Point>, step: real, width: real, half: real, k: nat): (a: seq<Point>)
    requires k <= |pts|
    ensures |a| == k
  {
    if k == 0 then []
    else
      var prefix := DeriveApexes(pts, step, width, half, k - 1);
      var i := k - 1;
      var x := if i == 0 then 0.0
               else if i == |pts| - 1 then width
               else step * pts[i].x + prefix[i - 1].x;
      prefix + [Point(x, ApexY(half, pts[i].y))]
  }

  /** The apexes getStepsDataByFracture derives from `pts` on a canvas
      `canvasWidth` wide, the step being `canvasWidth / |pts|` in `Int`. */
  function Apexes(pts: seq<Point>, canvasWidth: int, half: real): seq<Point>
    requires |pts| > 0
  {
    DeriveApexes(pts, Step(canvasWidth, |pts|) as real, canvasWidth as real, half, |pts|)
  }

  /** The loop of getStepsDataByFracture: `prevX` carries the x of the
      previous apex. It starts at `paddingStart`, which index 0 always
      overwrites with 0. An empty list divides by zero (Kotlin throws), so it
      is excluded. */
  method StepsDataByFracture(pts: seq<Point>, canvasWidth: int, paddingStart: int, half: real)
    returns (apexes: seq<Point>)
    requires |pts| > 0
    ensures apexes == Apexes(pts, canvasWidth, half)
  {
    var size := |pts|;
    var stepX := TruncDiv(canvasWidth, size);
    var prevX := paddingStart as real;
    var lastIndex := size - 1;
    apexes := [];
    for index := 0 to size
      invariant apexes == DeriveApexes(pts, stepX as real, canvasWidth as real, half, index)
      invariant index > 0 ==> prevX == apexes[index - 1].x
    {
      var x: real;
      if index == 0 {
        x := 0.0;
      } else if index == lastIndex {
        x := canvasWidth as real;
      } else {
        x := stepX as real * pts[index].x + prevX;
      }
      prevX := x;
      var y := half + pts[index].y * half;
      DeriveNext(pts, stepX as real, canvasWidth as real, half, index, x);
      apexes := apexes + [Point(x, y)];
    }
  }

  /** One more step of the derivation appends the apex at index `k`. */
  lemma DeriveNext(pts: seq<Point>, step: real, width: real, half: real, k: nat, x: real)
    requires k < |pts|
    requires k == 0 ==> x == 0.0
    requires 0 < k == |pts| - 1 ==> x == width
    requires 0 < k < |pts| - 1 ==> x == step * pts[k].x + DeriveApexes(pts, step, width, half, k)[k - 1].x
    ensures DeriveApexes(pts, step, width, half, k + 1)
            == DeriveApexes(pts, step, width, half, k) + [Point(x, ApexY(half, pts[k].y))]
  {
    var next := DeriveApexes(pts, step, width, half, k + 1);
    assert next[k] == Point(x, ApexY(half, pts[k].y));
  }

  /** An apex, once derived, is not changed by deriving further ones. */
  lemma {:induction false} DerivedPrefixStable(pts: seq<Point>, step: real, width: real, half: real, k: nat, i: nat)
    requires i < k <= |pts|
    ensures DeriveApexes(pts, step, width, half, k)[i] == DeriveApexes(pts, step, width, half, i + 1)[i]
    decreases k
  {
    if k > i + 1 {
      DerivedPrefixStable(pts, step, width, half, k - 1, i);
    }
  }

  /** Apex `i` of the derivation, stated on its own: x = 0 at index 0,
      x = width at the last index, one weighted step past the previous
      apex in between, and y offset from the centre by the normalised y. */
  lemma ApexAt(pts: seq<Point>, step: real, width: real, half: real, i: nat)
    requires i < |pts|
    ensures var a := DeriveApexes(pts, step, width, half, |pts|);
            && a[i].y == ApexY(half, pts[i].y)
            && (i == 0 ==> a[i].x == 0.0)
            && (0 < i == |pts| - 1 ==> a[i].x == width)
            && (0 < i < |pts| - 1 ==> a[i].x == step * pts[i].x + a[i - 1].x)
  {
    DerivedPrefixStable(pts, step, width, half, |pts|, i);
    if i > 0 {
      DerivedPrefixStable(pts, step, width, half, |pts|, i - 1);
      DerivedPrefixStable(pts, step, width, half, i, i - 1);
    }
  }

  /** The same, for the apexes of a canvas `canvasWidth` wide. */
  lemma ApexesAt(pts: seq<Point>, canvasWidth: int, half: real, i: nat)
    requires i < |pts|
    ensures var a := Apexes(pts, canvasWidth, half);
            && |a| == |pts|
            && a[i].y == ApexY(half, pts[i].y)
            && (i == 0 ==> a[i].x == 0.0)
            && (0 < i == |pts| - 1 ==> a[i].x == canvasWidth as real)
            && (0 < i < |pts| - 1 ==> a[i].x == Step(canvasWidth, |pts|) as real * pts[i].x + a[i - 1].x)
  {
    ApexAt(pts, Step(canvasWidth, |pts|) as real, canvasWidth as real, half, i);
  }

  /** Setting the y of fracture point `i` to `s` changes apex `i` to y =
      half + s * half and nothing else: the xs depend on the fracture xs
      alone. */
  lemma {:induction false} DeriveWithY(pts: seq<Point>, step: real, width: real, half: real, k: nat, i: nat, s: real)
    requires k <= |pts| && i < |pts|
    ensures var a := DeriveApexes(pts, step, width, half, k);
            DeriveApexes(pts[i := Point(pts[i].x, s)], step, width, half, k)
            == if i < k then a[i := Point(a[i].x, ApexY(half, s))] else a
    decreases k
  {
    if k > 0 {
      DeriveWithY(pts, step, width, half, k - 1, i, s);
      var a := DeriveApexes(pts, step, width, half, k);
      var b := DeriveApexes(pts[i := Point(pts[i].x, s)], step, width, half, k);
      var expected := if i < k then a[i := Point(a[i].x, ApexY(half, s))] else a;
      assert forall j :: 0 <= j < k ==> b[j] == expected[j];
    }
  }

  /** The same, for the apexes of a canvas `canvasWidth` wide. */
  lemma ApexesWithY(pts: seq<Point>, canvasWidth: int, half: real, i: nat, s: real)
    requires i < |pts|
    ensures var a := Apexes(pts, canvasWidth, half);
            Apexes(pts[i := Point(pts[i].x, s)], canvasWidth, half) == a[i := Point(a[i].x, ApexY(half, s))]
  {
    DeriveWithY(pts, Step(canvasWidth, |pts|) as real, canvasWidth as real, half, |pts|, i, s);
  }

  /** Sum of the x weights `pts[lo..hi]`. */
  function WeightSum(pts: seq<Point>, lo: nat, hi: nat): real
    requires lo <= hi <= |pts|
    decreases hi
  {
    if lo == hi then 0.0 else WeightSum(pts, lo, hi - 1) + pts[hi - 1].x
  }

  lemma Distribute(s: real, u: real, v: real)
    ensures s * (u + v) == s * u + s * v
  {
  }

  /** The accumulation unrolled: an interior apex sits at the step times the
      sum of the weights from index 1 up to and including its own. */
  lemma {:induction false} AccumulatedX(pts: seq<Point>, step: real, width: real, half: real, i: nat)
    requires 0 < i < |pts| - 1
    ensures DeriveApexes(pts, step, width, half, |pts|)[i].x == step * WeightSum(pts, 1, i + 1)
  {
    var a := DeriveApexes(pts, step, width, half, |pts|);
    ApexAt(pts, step, width, half, i);
    if i > 1 {
      AccumulatedX(pts, step, width, half, i - 1);
      Distribute(step, WeightSum(pts, 1, i), pts[i].x);
    } else {
      ApexAt(pts, step, width, half, 0);
    }
  }

  ghost predicate NonDecreasingX(s: seq<Point>)
  {
    forall i, j :: 0 <= i < j < |s| ==> s[i].x <= s[j].x
  }

  lemma {:induction false} ConsecutiveOrdered(s: seq<Point>)
    requires forall k :: 0 < k < |s| ==> s[k - 1].x <= s[k].x
    ensures NonDecreasingX(s)
  {
    if |s| > 1 {
      var t := s[..|s| - 1];
      assert forall k :: 0 < k < |t| ==> t[k - 1].x <= t[k].x;
      ConsecutiveOrdered(t);
      forall i | 0 <= i < |s| - 1 ensures s[i].x <= s[|s| - 1].x {
        LastDominates(t, i);
      }
    }
  }

  lemma LastDominates(t: seq<Point>, i: nat)
    requires NonDecreasingX(t)
    requires i < |t|
    ensures t[i].x <= t[|t| - 1].x
  {
  }

  lemma NonNegativeProduct(s: real, w: real)
    requires 0.0 <= s && 0.0 <= w
    ensures 0.0 <= s * w
  {
  }

  /** With a non-negative step, non-negative interior weights and steps
      that fit inside the canvas, the derived apexes are ordered left to
      right. */
  lemma DerivationOrdered(pts: seq<Point>, step: real, width: real, half: real)
    requires 0.0 <= step && 0.0 <= width
    requires forall i :: 0 < i < |pts| - 1 ==> pts[i].x >= 0.0
    requires |pts| >= 2 ==> step * WeightSum(pts, 1, |pts| - 1) <= width
    ensures NonDecreasingX(DeriveApexes(pts, step, width, half, |pts|))
  {
    var n := |pts|;
    var a := DeriveApexes(pts, step, width, half, n);
    forall k | 0 < k < n ensures a[k - 1].x <= a[k].x {
      ApexAt(pts, step, width, half, k);
      if k < n - 1 {
        NonNegativeProduct(step, pts[k].x);
      } else if k - 1 > 0 {
        AccumulatedX(pts, step, width, half, k - 1);
      } else {
        ApexAt(pts, step, width, half, 0);
      }
    }
    ConsecutiveOrdered(a);
  }

  /** The nine fracture pairs that onSizeChanged installs. */
  function DefaultFracture(): seq<Point>
  {
    [ Point(0.5, 0.5), Point(0.5, 0.0), Point(0.5, 0.5), Point(1.0, -0.5), Point(1.0, 0.5),
      Point(0.5, 0.0), Point(1.0, 1.0), Point(1.0, 0.0), Point(1.0, 0.0) ]
  }

  /** For any non-negative canvas width, the default fracture list yields
      ordered apexes running from 0 to the width. */
  lemma DefaultFractureOrdered(canvasWidth: int, half: real)
    requires canvasWidth >= 0
    ensures var a := Apexes(DefaultFracture(), canvasWidth, half);
            NonDecreasingX(a) && a[0].x == 0.0 && a[8].x == canvasWidth as real
  {
    var pts := DefaultFracture();
    var s := Step(canvasWidth, 9);
    assert WeightSum(pts, 1, 8) == 5.5 by {
      assert WeightSum(pts, 1, 4) == 2.0;
      assert WeightSum(pts, 1, 6) == 3.5;
    }
    assert 0 <= s && s * 9 <= canvasWidth by {
      TruncDivBounds(canvasWidth, 9);
    }
    DerivationOrdered(pts, s as real, canvasWidth as real, half);
    ApexesAt(pts, canvasWidth, half, 0);
    ApexesAt(pts, canvasWidth, half, 8);
  }
}
