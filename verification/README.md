# ToothyProgress in Dafny

`ToothyProgress` is an Android progress bar drawn as a jagged ("toothy")
polyline. Each vertex of the track is an *apex*. The apexes are derived from
a list of normalised *fracture points*. The x of a fracture point weighs the
horizontal step to the previous apex. Its y, in [-1, 1], places the apex
above or below the vertical centre. Progress fills the polyline from the
left up to `progress * canvasWidth`. A touch moves the fill. In builder mode,
a touch latches the nearest apex and drags it, and the drag rewrites that
apex and its fracture point.

This project models the geometry and the touch logic of that view, without
any drawing:

- `geometry.dfy` (module `Geometry`): points, Kotlin's truncating `Int`
  division, and the apex derivation. The derivation is a recursive
  specification `DeriveApexes`, plus the method `StepsDataByFracture`,
  which keeps the running `prevX`. Lemmas cover where each apex
  lies, the prefix-sum form of the xs, left-to-right ordering, and the
  default nine-pair track.
- `path.dfy` (module `Path`): the vertices that `drawProgress` passes to
  `moveTo`/`lineTo` (`ProgressPath`), and the endpoint blend of
  `getCoordinateY`.
- `builder.dfy` (module `Builder`): the nearest-apex search as a loop proved
  against an arg-min specification. Also the fracture point that a drag
  computes back from the moved apex.
- `tracking.dfy` (module `Tracking`): the pointer clamp and the progress of
  `trackTouch`.
- `toothy.dfy` (module `Toothy`): the class `ToothyProgress`. It holds the
  view's state: `progress`, `isTouching`, `pointerPosition`,
  `nearestApexIndex`, the parallel lists `data` and `fractureData`, the
  canvas width, height and horizontal paddings, and `isEnabled` and
  `isBuilderMode`. Its methods update those fields as the Kotlin members
  do. Listener callbacks are appended to a ghost log, `notices`.

Kotlin `Float` is modelled as `real`, so arithmetic is exact.
`canvasWidth / size` is `Int` division, truncated toward zero (`TruncDiv`).

Some points where the code differs from what one might expect. The model
follows the code in each case:

- `setProgress` stores its argument without clamping it to [0, 1].
- A progress of exactly 0 draws nothing, not a single vertex.
- A list of one fracture point gets x = 0, because index 0 is tested before
  the last index.
- Dragging an apex does not invert the derivation for x. With a previous
  apex, the divisor is the distance to that apex itself, so the fracture x
  becomes 1, or 0 when the apex sits on its neighbour. Re-deriving then
  moves the apex (`Builder.DragDoesNotRederive`). Only the y is inverted
  exactly.
- The touch clamp's upper bound is `canvasWidth + paddingEnd`, while
  progress is measured from `paddingStart`. So full progress is reachable by
  touch exactly when `paddingEnd >= paddingStart` (`Tracking.TouchReachesFull`,
  `Tracking.TouchNeverFull`).

## Model

| member | source | states |
|---|---|---|
| Geometry.NatDivBounds | widget/src/main/java/com/goodayapps/widget/ToothyProgress.kt:317 | the quotient of naturals q satisfies q*b <= a < q*b + b |
| Geometry.TruncDivBounds | widget/src/main/java/com/goodayapps/widget/ToothyProgress.kt:317 | Int division truncates toward zero: for a >= 0 the quotient is non-negative and at most a/b, and for a < 0 it is non-positive, each within one divisor of the dividend |
| Geometry.CoerceAtMost | widget/src/main/java/com/goodayapps/widget/ToothyProgress.kt:308 | the result is at most the bound, is either the value or the bound, and is the value when that is within the bound |
| Geometry.CoerceIn | widget/src/main/java/com/goodayapps/widget/ToothyProgress.kt:408-410 | for a non-empty range the result lies in it, is the value when that lies inside, and is the nearer bound otherwise |
| Geometry.DeriveApexes | widget/src/main/java/com/goodayapps/widget/ToothyProgress.kt:315-342 | the first k apexes of the derivation number exactly k |
| Geometry.StepsDataByFracture | widget/src/main/java/com/goodayapps/widget/ToothyProgress.kt:315-342 | the prevX loop yields exactly the apexes of the derivation, whatever paddingStart seeds prevX with |
| Geometry.DeriveNext | widget/src/main/java/com/goodayapps/widget/ToothyProgress.kt:323-340 | one more step of the derivation appends one apex: x 0 at index 0, the width at the last index, step*f.x plus the previous x in between, and y half + f.y*half |
| Geometry.DerivedPrefixStable | widget/src/main/java/com/goodayapps/widget/ToothyProgress.kt:323-341 | an apex, once derived, is not changed by deriving later ones |
| Geometry.ApexAt | widget/src/main/java/com/goodayapps/widget/ToothyProgress.kt:323-340 | apex i of the full derivation: x 0 at index 0, the width at the last index, step*f[i].x + x[i-1] in between, and y = half + f[i].y*half |
| Geometry.ApexesAt | widget/src/main/java/com/goodayapps/widget/ToothyProgress.kt:315-342 | the same for a canvas of integer width, with step = canvasWidth / size in Int; the output has the input's length |
| Geometry.DeriveWithY | widget/src/main/java/com/goodayapps/widget/ToothyProgress.kt:269-278 | changing only the y of fracture point i changes only apex i, whose x is kept and whose y becomes half + s*half |
| Geometry.ApexesWithY | widget/src/main/java/com/goodayapps/widget/ToothyProgress.kt:269-278 | the same for the apexes of a canvas: setFractureY's in-place edit agrees with re-deriving |
| Geometry.AccumulatedX | widget/src/main/java/com/goodayapps/widget/ToothyProgress.kt:319-336 | an interior apex sits at step times the sum of the fracture xs from index 1 up to and including its own |
| Geometry.DerivationOrdered | widget/src/main/java/com/goodayapps/widget/ToothyProgress.kt:323-336 | with a non-negative step and width, non-negative interior weights, and interior steps summing to at most the width, the apexes are non-decreasing in x |
| Geometry.DefaultFractureOrdered | widget/src/main/java/com/goodayapps/widget/ToothyProgress.kt:174-187 | for any non-negative width, the nine default pairs give apexes that are ordered in x and run from 0 to the width |
| Path.BlendBetween | widget/src/main/java/com/goodayapps/widget/ToothyProgress.kt:396 | (a + b*l)/(1 + l) with l >= 0 lies between a and b, and is a when l is 0 |
| Path.Lambda | widget/src/main/java/com/goodayapps/widget/ToothyProgress.kt:394 | for a fill before the end, the blend weight is non-negative, and 0 when the fill stops at the start |
| Path.CoordinateY | widget/src/main/java/com/goodayapps/widget/ToothyProgress.kt:391-397 | the end's y when maxX >= end.x; otherwise between the two ys inclusive, and the start's y when maxX equals the start's x |
| Path.FirstBeyond | widget/src/main/java/com/goodayapps/widget/ToothyProgress.kt:372-384 | the first index from i whose apex lies beyond maxX: every apex before it is within maxX |
| Path.FirstBeyondIs | widget/src/main/java/com/goodayapps/widget/ToothyProgress.kt:372-384 | the loop stops at k exactly when every earlier apex is within the fill and apex k is beyond it |
| Path.ProgressPath | widget/src/main/java/com/goodayapps/widget/ToothyProgress.kt:356-389 | the path is empty exactly when data is empty or progress is 0; otherwise it starts at data[0], has at most \|data\| vertices, every later vertex has x <= progress*canvasWidth, and every interior vertex is the apex itself |
| Path.ProgressPathStops | widget/src/main/java/com/goodayapps/widget/ToothyProgress.kt:372-384 | an apex within the fill is emitted unchanged; the first apex beyond it becomes the clamped endpoint (maxX, getCoordinateY), and the path ends there |
| Path.ProgressPathWhole | widget/src/main/java/com/goodayapps/widget/ToothyProgress.kt:356-389 | with every apex within the fill, the path is the whole apex list |
| Path.BackgroundIsWholeTrack | widget/src/main/java/com/goodayapps/widget/ToothyProgress.kt:356 | the background (progress 1) over ordered derived apexes draws every apex |
| Path.ThreePointApexes | widget/src/main/java/com/goodayapps/widget/ToothyProgress.kt:315-342 | three fracture points on a 300 by 100 canvas give apexes (0,75), (50,50), (300,100) |
| Path.ThreePointPath | widget/src/main/java/com/goodayapps/widget/ToothyProgress.kt:356-397 | filled to 0.3, those apexes draw (0,75), (50,50) and the blended endpoint (90,58) |
| Builder.NearestUnique | widget/src/main/java/com/goodayapps/widget/ToothyProgress.kt:477-496 | the arg-min specification picks at most one index |
| Builder.NearestApex | widget/src/main/java/com/goodayapps/widget/ToothyProgress.kt:477-496 | no result exactly when no apex x lies in the closed window; otherwise the result is a candidate at least as close as every candidate and strictly closer than every earlier one, so ties go to the lowest index |
| Builder.ReverseFracture | widget/src/main/java/com/goodayapps/widget/ToothyProgress.kt:413-440 | half + f.y*half is the apex's y; with a previous apex f.x is 1, or 0 when the apex sits on it; with only a next apex f.x*(next.x - apex.x) = apex.x - 1, or apex.x - 1 when they coincide; with neither f.x is apex.x |
| Builder.DragKeepsOrder | widget/src/main/java/com/goodayapps/widget/ToothyProgress.kt:407-409 | moving one apex to an x between its neighbours' keeps the apexes ordered |
| Builder.DefaultDragRangeCanBeEmpty | widget/src/main/java/com/goodayapps/widget/ToothyProgress.kt:174-187 | on a 300-wide canvas the default track puts apex 1 at x = 16.5, so with a larger start padding the drag range of apex 0 is empty |
| Builder.DragDoesNotRederive | widget/src/main/java/com/goodayapps/widget/ToothyProgress.kt:413-440 | an apex at x 50, dragged to 80, gets fracture x 1, which derives back to x 100: the x round trip fails |
| Tracking.ClampPointer | widget/src/main/java/com/goodayapps/widget/ToothyProgress.kt:302-306 | the pointer is x or one of the bounds; it lies within them when they are ordered; when they are not, the upper bound wins because it is tested first |
| Tracking.ClampIsCoerceIn | widget/src/main/java/com/goodayapps/widget/ToothyProgress.kt:302-306 | on an ordered range the clamp agrees with coerceIn |
| Tracking.TouchProgress | widget/src/main/java/com/goodayapps/widget/ToothyProgress.kt:308 | progress is at most 1, non-negative from the start padding on, the exact fraction of the canvas width up to the cap, and exactly 1 beyond it |
| Tracking.TouchProgressInUnit | widget/src/main/java/com/goodayapps/widget/ToothyProgress.kt:302-308 | if paddingStart <= canvasWidth + paddingEnd, a touch yields progress in [0, 1] |
| Tracking.TouchReachesFull | widget/src/main/java/com/goodayapps/widget/ToothyProgress.kt:302-308 | with paddingEnd >= paddingStart, a touch at or past the right bound gives progress 1 |
| Tracking.TouchNeverFull | widget/src/main/java/com/goodayapps/widget/ToothyProgress.kt:302-308 | with paddingEnd < paddingStart, no touch gives progress 1 |
| Toothy.ToothyProgress.constructor | widget/src/main/java/com/goodayapps/widget/ToothyProgress.kt:124-137 | initial state: progress 0, not touching, pointer -1, no latched apex, empty lists, no callbacks |
| Toothy.ToothyProgress.AssignProgress | widget/src/main/java/com/goodayapps/widget/ToothyProgress.kt:30-35 | the progress setter stores the value and reports it together with isTouching |
| Toothy.ToothyProgress.SetProgress | widget/src/main/java/com/goodayapps/widget/ToothyProgress.kt:234-248 | ignored while touching; otherwise stores the value and reports it as not from the user |
| Toothy.ToothyProgress.SetFractureData | widget/src/main/java/com/goodayapps/widget/ToothyProgress.kt:258-265 | fractureData becomes the input and data its derivation, so both have the input's length |
| Toothy.ToothyProgress.OnSizeChanged | widget/src/main/java/com/goodayapps/widget/ToothyProgress.kt:174-187 | the nine default pairs are loaded; with a non-negative width the apexes are ordered and run from 0 to the width |
| Toothy.ToothyProgress.SetFractureY | widget/src/main/java/com/goodayapps/widget/ToothyProgress.kt:269-280 | out of range of either list nothing changes; otherwise only entry i changes, with its xs kept, fracture y set to scale and apex y to half + scale*half; derived apexes stay derived |
| Toothy.ToothyProgress.GetFractureY | widget/src/main/java/com/goodayapps/widget/ToothyProgress.kt:282-284 | the fracture y at the index, or 0 out of range |
| Toothy.ToothyProgress.NewApex | widget/src/main/java/com/goodayapps/widget/ToothyProgress.kt:580-587 | a position outside 0..\|data\| changes nothing; otherwise (1 - y, y) is inserted there, the other points keep their order, both lists grow by one, and data is re-derived; the Kotlin default argument is the call with position \|data\| |
| Toothy.ToothyProgress.DrawProgress | widget/src/main/java/com/goodayapps/widget/ToothyProgress.kt:356-389 | the startX/startY loop with its early break emits exactly ProgressPath of the current apexes |
| Toothy.ToothyProgress.StopTracking | widget/src/main/java/com/goodayapps/widget/ToothyProgress.kt:286-294 | not touching, pointer -1, no latched apex, then the stop callback with the current progress |
| Toothy.ToothyProgress.FindNearestApexForPointer | widget/src/main/java/com/goodayapps/widget/ToothyProgress.kt:477-496 | with a candidate in the window of half-width canvasWidth/\|data\|, the latched index is the nearest apex; with none, it keeps its previous value |
| Toothy.ToothyProgress.TrackTouch | widget/src/main/java/com/goodayapps/widget/ToothyProgress.kt:296-313 | the start callback fires only if not yet touching; the touch is then on, the pointer clamped, progress follows it (in [0, 1] when the paddings allow), and in builder mode the nearest apex is latched |
| Toothy.ToothyProgress.MoveApex | widget/src/main/java/com/goodayapps/widget/ToothyProgress.kt:400-446 | without a latched apex nothing changes; otherwise only that index of both lists changes: the apex becomes the event position clamped between its neighbours (or the start padding / canvas width) and into the canvas height, and the fracture point becomes the one computed back from it (y exactly inverted, x 1 or 0 after a previous apex); ordered apexes stay ordered |
| Toothy.ToothyProgress.OnTouchEvent | widget/src/main/java/com/goodayapps/widget/ToothyProgress.kt:206-232 | a disabled view changes nothing and answers false; the canvas, paddings and flags never change; down/move with a latched apex give exactly the new lists of MoveApex and leave touch state, progress and callbacks alone; down/move without one give exactly the clamped pointer, progress, callbacks and builder-mode latch of TrackTouch and leave both lists alone; up/cancel reset the touch state, fire the stop callback with the progress and leave lists and progress alone; other actions change nothing and answer as the base view does |

## Left out

- Drawing is not modelled: canvas, paints, colours, caps, widths, `onDraw`, the pointer line and the builder debug overlay. Only the vertex list of `drawProgress` is kept.
- The animated branch of `setProgress` is not modelled. Its `ValueAnimator` sets progress repeatedly over time; each of those sets is `AssignProgress`.
- View plumbing is not modelled: accessibility info, attribute inflation, `getCapType`, the constructors' padding set-up, `convertDpToPixel`, and the `width - padding` arithmetic behind `canvasWidth` and `canvasHeight`. The model holds the canvas size and the horizontal paddings as fields; `OnSizeChanged` takes the new canvas size.
- `nextFloat()` in `newApex` is a parameter `nextY` with -1 <= nextY < 1.
- `setFractureDataPairs` is not modelled separately; it only turns pairs into points.
- Float edge cases are not modelled. There is no NaN, infinity or rounding. These cases are excluded by preconditions:
  - the touch progress divides by `canvasWidth`, so `TrackTouch` requires it to be positive;
  - the drag divides by the half height, so dragging requires `canvasHeight > 0`.
- The search compares `abs(sqrt(d))`; the model compares squared distances `d`, which orders candidates the same way. The `Float.MAX_VALUE` seed is "no candidate yet", so a distance at or above `Float.MAX_VALUE` is not treated specially.
- SetFractureData: requires a non-empty list. With an empty list the Kotlin code clears both lists, then throws on the division by zero.
- MoveApex: requires the drag range to be non-empty and `canvasHeight > 0`. An empty range is reachable in the Kotlin code, where `coerceIn` then throws: apex 0 ranges from `paddingStart` to the x of apex 1, which can lie below the start padding, for instance with the default track on a narrow canvas (`Builder.DefaultDragRangeCanBeEmpty`) or after apex 1 is dragged towards 0. The model does not capture that crash.
- NewApex: the Kotlin default argument `position = data.size` is not a separate member; `newApex()` is `NewApex(|data|, nextY)`.
- `PointF` aliasing is not modelled. The lists hold their points by value. So the model does not capture:
  - the Kotlin code mutating the dragged apex and fracture objects in place;
  - a caller that passes `getFractureData()` back to `setFractureData`, which clears its own argument first.
- Listener calls are recorded in the ghost `notices` log rather than made; `invalidate`/`postInvalidate` are left out.
- `MotionEvent` is reduced to an `Action` and (x, y); the answer of the base view's `onTouchEvent` is the parameter `superHandled`.
