/**
  The map region the hook keeps in `userLocation`: a center and the latitude
  and longitude spans (`latitudeDelta`, `longitudeDelta`) of the viewport
  (useLocation.js:27-32, 63-68, 104-128).

  Spans are JavaScript numbers in the source; here they are exact reals.
 */
module Viewport {

  datatype Coordinate = Coordinate(latitude: real, longitude: real)

  datatype Region = Region(center: Coordinate, latitudeDelta: real, longitudeDelta: real)

  /** The span a region gets whenever it is set from a position fix. */
  const DefaultDelta: real := 0.05

  /** The factor by which one zoom press scales both spans. */
  const ZoomFactor: real := 10.0

  predicate PositiveSpans(r: Region) {
    r.latitudeDelta > 0.0 && r.longitudeDelta > 0.0
  }

  /** The region centred on a fresh position fix. */
  function AtPosition(c: Coordinate): (r: Region)
    ensures r.center == c
    ensures r.latitudeDelta == r.longitudeDelta == DefaultDelta
    ensures PositiveSpans(r)
  {
    Region(c, DefaultDelta, DefaultDelta)
  }

  /** The new region built by `zoomIn`: same center, both spans a tenth. */
  function ZoomedIn(r: Region): (z: Region)
    ensures z.center == r.center
    ensures z.latitudeDelta * ZoomFactor == r.latitudeDelta
    ensures z.longitudeDelta * ZoomFactor == r.longitudeDelta
    ensures PositiveSpans(r) ==> PositiveSpans(z)
  {
    r.(latitudeDelta := r.latitudeDelta / ZoomFactor,
       longitudeDelta := r.longitudeDelta / ZoomFactor)
  }

  /** The new region built by `zoomOut`: same center, both spans ten times. */
  function ZoomedOut(r: Region): (z: Region)
    ensures z.center == r.center
    ensures z.latitudeDelta == r.latitudeDelta * ZoomFactor
    ensures z.longitudeDelta == r.longitudeDelta * ZoomFactor
    ensures PositiveSpans(r) ==> PositiveSpans(z)
  {
    r.(latitudeDelta := r.latitudeDelta * ZoomFactor,
       longitudeDelta := r.longitudeDelta * ZoomFactor)
  }

  lemma ZoomOutUndoesZoomIn(r: Region)
    ensures ZoomedOut(ZoomedIn(r)) == r
  {
  }

  lemma ZoomInUndoesZoomOut(r: Region)
    ensures ZoomedIn(ZoomedOut(r)) == r
  {
  }

  function Pow10(n: nat): (p: real)
    ensures p >= 1.0
  {
    if n == 0 then 1.0 else ZoomFactor * Pow10(n - 1)
  }

  /** The region after `n` zoom-in presses. */
  function ZoomedInTimes(r: Region, n: nat): (z: Region)
    ensures z.center == r.center
    ensures PositiveSpans(r) ==> PositiveSpans(z)
    decreases n
  {
    if n == 0 then r else ZoomedInTimes(ZoomedIn(r), n - 1)
  }

  /** One more factor of ten on each side of a scaling equation. */
  lemma ScaleByFactor(x: real, p: real, y: real)
    requires x * p == y / ZoomFactor
    ensures x * (ZoomFactor * p) == y
  {
  }

  /** `n` zoom-in presses divide both spans by exactly 10^n. */
  lemma {:induction false} ZoomedInTimesScales(r: Region, n: nat)
    ensures ZoomedInTimes(r, n).latitudeDelta * Pow10(n) == r.latitudeDelta
    ensures ZoomedInTimes(r, n).longitudeDelta * Pow10(n) == r.longitudeDelta
    decreases n
  {
    if n > 0 {
      var z := ZoomedInTimes(r, n);
      ZoomedInTimesScales(ZoomedIn(r), n - 1);
      ScaleByFactor(z.latitudeDelta, Pow10(n - 1), r.latitudeDelta);
      ScaleByFactor(z.longitudeDelta, Pow10(n - 1), r.longitudeDelta);
    }
  }
}
