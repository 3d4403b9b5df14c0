/**
  The discrete zoom-level counter of the `useLocation` hook
  (useLocation.js:6-10 and 130-150).

  The counter is bounded by MinZoomLevel and MaxZoomLevel. A step issued
  exactly at a bound, in the direction away from it, is first pre-adjusted by
  one level; the range check then rejects any level still at or beyond a bound,
  and otherwise the one-level step is applied. The net effect is a double step
  off a bound (20 zooms out to 18, 3 zooms in to 5), which this module keeps.
 */
module Zoom {
  import opened Options

  const MinZoomLevel: int := 3
  const MaxZoomLevel: int := 20
  const InitialZoomLevel: int := 14

  /** The argument `isZoomIn` of the source, as a two-valued type. */
  datatype Direction = In | Out

  predicate InRange(level: int) {
    MinZoomLevel <= level <= MaxZoomLevel
  }

  /** The condition under which the application disables the zoom-in
      (App.js:55) or the zoom-out (App.js:67) button. */
  predicate ButtonDisabled(level: int, dir: Direction) {
    match dir
    case In => level == MaxZoomLevel
    case Out => level == MinZoomLevel
  }

  /** The level the range check looks at: a zoom-out at the maximum or a
      zoom-in at the minimum is moved one level inwards first. */
  function PreAdjusted(level: int, dir: Direction): int {
    if dir == Out && level == MaxZoomLevel then level - 1
    else if dir == In && level == MinZoomLevel then level + 1
    else level
  }

  /** One call of `setCurrentZoomLevel`: `None` when the step is rejected
      (the early `return`), otherwise the level passed to `setZoom`. */
  function Step(level: int, dir: Direction): (r: Option<int>)
    ensures r.Some? ==> InRange(r.value)
    ensures r.Some? ==> (dir == In ==> level < r.value <= level + 2)
    ensures r.Some? ==> (dir == Out ==> level - 2 <= r.value < level)
    ensures !InRange(level) ==> r.None?
    ensures InRange(level) ==> (r.None? <==> ButtonDisabled(level, dir))
  {
    var current := PreAdjusted(level, dir);
    if current >= MaxZoomLevel || current <= MinZoomLevel then None
    else if dir == In then Some(current + 1)
    else Some(current - 1)
  }

  /** The zoom state after one call: unchanged when the step is rejected. */
  function NextLevel(level: int, dir: Direction): (r: int)
    ensures InRange(level) ==> InRange(r)
    ensures !InRange(level) ==> r == level
    ensures InRange(level) ==> (r == level <==> ButtonDisabled(level, dir))
    ensures dir == In ==> level <= r
    ensures dir == Out ==> r <= level
  {
    match Step(level, dir)
    case None => level
    case Some(next) => next
  }

  /** An independent, case-by-case statement of what a step does inside the
      range: refuse at the limit the button shows as disabled, double step
      off the opposite limit, single step in between. */
  function StepTable(level: int, dir: Direction): Option<int> {
    match dir
    case In =>
      if level == MaxZoomLevel then None
      else if level == MinZoomLevel then Some(MinZoomLevel + 2)
      else Some(level + 1)
    case Out =>
      if level == MinZoomLevel then None
      else if level == MaxZoomLevel then Some(MaxZoomLevel - 2)
      else Some(level - 1)
  }

  lemma StepAgreesWithTable(level: int, dir: Direction)
    requires InRange(level)
    ensures Step(level, dir) == StepTable(level, dir)
  {
  }

  /** Pressing the same zoom button `n` times. */
  function Repeat(level: int, dir: Direction, n: nat): (r: int)
    ensures InRange(level) ==> InRange(r)
    ensures !InRange(level) ==> r == level
    decreases n
  {
    if n == 0 then level else Repeat(NextLevel(level, dir), dir, n - 1)
  }

  lemma BoundaryDoubleStep()
    ensures Step(MaxZoomLevel, Out) == Some(MaxZoomLevel - 2)
    ensures Step(MinZoomLevel, In) == Some(MinZoomLevel + 2)
  {
  }

  lemma RejectedAtLimits()
    ensures Step(MaxZoomLevel, In).None? && NextLevel(MaxZoomLevel, In) == MaxZoomLevel
    ensures Step(MinZoomLevel, Out).None? && NextLevel(MinZoomLevel, Out) == MinZoomLevel
  {
  }

  lemma InteriorStep(level: int)
    requires MinZoomLevel < level < MaxZoomLevel
    ensures Step(level, In) == Some(level + 1)
    ensures Step(level, Out) == Some(level - 1)
  {
  }

  /** From above the minimum, repeated zoom-ins climb one level per press
      and then stay at the maximum. */
  lemma {:induction false} RepeatIn(level: int, n: nat)
    requires MinZoomLevel < level <= MaxZoomLevel
    ensures Repeat(level, In, n) == if level + n >= MaxZoomLevel then MaxZoomLevel else level + n
    decreases n
  {
    if n > 0 {
      if level < MaxZoomLevel {
        InteriorStep(level);
        RepeatIn(level + 1, n - 1);
      } else {
        RepeatIn(level, n - 1);
      }
    }
  }

  /** From below the maximum, repeated zoom-outs descend one level per press
      and then stay at the minimum. */
  lemma {:induction false} RepeatOut(level: int, n: nat)
    requires MinZoomLevel <= level < MaxZoomLevel
    ensures Repeat(level, Out, n) == if level - n <= MinZoomLevel then MinZoomLevel else level - n
    decreases n
  {
    if n > 0 {
      if MinZoomLevel < level {
        InteriorStep(level);
        RepeatOut(level - 1, n - 1);
      } else {
        RepeatOut(level, n - 1);
      }
    }
  }

  /** From the initial level 14, six zoom-ins reach 20 and any further ones
      are rejected; sixteen zoom-outs from 20 end at 3 (the first one
      jumps to 18); from 3, n >= 1 zoom-ins give min(4 + n, 20) (the first
      one jumps to 5). */
  lemma FromInitialLevel(extra: nat)
    ensures Repeat(MinZoomLevel, In, 1) == MinZoomLevel + 2
    ensures Repeat(MinZoomLevel, In, 1 + extra) ==
              if MinZoomLevel + 2 + extra >= MaxZoomLevel then MaxZoomLevel else MinZoomLevel + 2 + extra
    ensures Repeat(InitialZoomLevel, In, 6) == MaxZoomLevel
    ensures Repeat(InitialZoomLevel, In, 6 + extra) == MaxZoomLevel
    ensures Repeat(MaxZoomLevel, Out, 1) == MaxZoomLevel - 2
    ensures Repeat(MaxZoomLevel, Out, 16 + extra) == MinZoomLevel
  {
    RepeatIn(InitialZoomLevel, 6);
    RepeatIn(InitialZoomLevel, 6 + extra);
    BoundaryDoubleStep();
    RepeatOut(MaxZoomLevel - 2, 15 + extra);
    RepeatIn(MinZoomLevel + 2, extra);
  }
}
