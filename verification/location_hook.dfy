/**
  The `useLocation` hook as one state record with a pure transition per
  handler (useLocation.js:5-150). Permission outcomes, position fixes, samples
  and subscription handles are inputs; alerts and `remove()` calls are
  reported in the result.
 */
module LocationHook {
  import opened Options
  import Zoom
  import opened Viewport
  import opened Tracking

  /** The hook's state: the zoom level, the region (`null` until the first
      fix), and the tracking flag with the stored subscription. */
  datatype State = State(zoom: int, region: Option<Region>, session: TrackingState)

  /** The state of a freshly mounted hook (useLocation.js:10-13). */
  const Initial: State := State(Zoom.InitialZoomLevel, None, Idle)

  /** A position delivered to the `watchPositionAsync` callback; the accuracy
      may be missing (`null`). */
  datatype Sample = Sample(coords: Coordinate, accuracy: Option<real>)

  /** Accuracy, in meters, above which the GPS warning is raised. */
  const MaxAcceptableAccuracy: real := 10.0

  /** The callback's warning condition (useLocation.js:49): a strict
      comparison, and a missing accuracy never compares greater. */
  predicate PoorAccuracy(accuracy: Option<real>) {
    accuracy.Some? && accuracy.value > MaxAcceptableAccuracy
  }

  /** The result of one handler call. */
  datatype Transition = Transition(next: State, alert: Option<Alert>, removed: Option<Subscription>)

  /** What every reachable state satisfies. */
  predicate Valid(s: State) {
    && Zoom.InRange(s.zoom)
    && Consistent(s.session)
    && (s.region.Some? ==> PositiveSpans(s.region.value))
  }

  /** `getLocation`: on a foreground grant, centre the region on the current
      position with the default spans; otherwise do nothing (no alert). */
  function GetLocation(s: State, permission: Permission, position: Coordinate): (t: Transition)
    ensures permission == Granted ==> t.next.region == Some(AtPosition(position))
    ensures permission == Denied ==> t.next == s
    ensures t.next.zoom == s.zoom && t.next.session == s.session
    ensures t.alert.None? && t.removed.None?
    ensures Valid(s) ==> Valid(t.next)
  {
    match permission
    case Granted => Transition(s.(region := Some(AtPosition(position))), None, None)
    case Denied => Transition(s, None, None)
  }

  function StartTracking(s: State, permission: Permission, handle: Subscription): (t: Transition)
    ensures permission == Granted ==> t.next.session.tracking && t.next.session.subscription == Some(handle)
    ensures permission == Denied ==> t.next == s && t.alert == Some(PermissionNotGranted)
    ensures permission == Granted <==> t.alert.None?
    ensures t.next.zoom == s.zoom && t.next.region == s.region
    ensures t.removed.None?
    ensures Valid(s) ==> Valid(t.next)
  {
    var e := Start(s.session, permission, handle);
    Transition(s.(session := e.next), e.alert, e.removed)
  }

  function StopTracking(s: State): (t: Transition)
    ensures !t.next.session.tracking && t.next.session.subscription.None?
    ensures t.removed == s.session.subscription
    ensures t.next.zoom == s.zoom && t.next.region == s.region
    ensures t.alert.None?
    ensures Valid(s) ==> Valid(t.next)
  {
    var e := Stop(s.session);
    Transition(s.(session := e.next), e.alert, e.removed)
  }

  /** The `watchPositionAsync` callback: warn on poor accuracy, and in every
      case recentre on the sample with the default spans. */
  function OnSample(s: State, sample: Sample): (t: Transition)
    ensures t.alert == Some(GpsAccuracy) <==> PoorAccuracy(sample.accuracy)
    ensures t.alert.None? || t.alert == Some(GpsAccuracy)
    ensures t.next.region.Some?
    ensures t.next.region.value.center == sample.coords
    ensures t.next.region.value.latitudeDelta == DefaultDelta
    ensures t.next.region.value.longitudeDelta == DefaultDelta
    ensures t.next.zoom == s.zoom && t.next.session == s.session
    ensures t.removed.None?
    ensures Valid(s) ==> Valid(t.next)
  {
    var alert := if PoorAccuracy(sample.accuracy) then Some(GpsAccuracy) else None;
    Transition(s.(region := Some(AtPosition(sample.coords))), alert, None)
  }

  /** `zoomIn` and `zoomOut`: without a region nothing happens; with one, the
      spans are scaled whether or not the level step is accepted. */
  function ZoomBy(s: State, dir: Zoom.Direction): (t: Transition)
    ensures s.region.None? ==> t.next == s
    ensures s.region.Some? ==> t.next.region.Some? && t.next.region.value.center == s.region.value.center
    ensures s.region.Some? ==> t.next.zoom == Zoom.NextLevel(s.zoom, dir)
    ensures t.next.session == s.session
    ensures t.alert.None? && t.removed.None?
    ensures Valid(s) ==> Valid(t.next)
  {
    match s.region
    case None => Transition(s, None, None)
    case Some(r) =>
      var scaled := if dir == Zoom.In then ZoomedIn(r) else ZoomedOut(r);
      Transition(State(Zoom.NextLevel(s.zoom, dir), Some(scaled), s.session), None, None)
  }

  function ZoomIn(s: State): (t: Transition)
    ensures s.region.Some? ==> t.next.region.Some? && t.next.region.value.center == s.region.value.center
    ensures s.region.Some? ==> t.next.region.value.latitudeDelta * ZoomFactor == s.region.value.latitudeDelta
    ensures s.region.Some? ==> t.next.region.value.longitudeDelta * ZoomFactor == s.region.value.longitudeDelta
    ensures Zoom.InRange(s.zoom) && s.region.Some? ==>
              (t.next.zoom == s.zoom <==> s.zoom == Zoom.MaxZoomLevel)
    ensures s.region.Some? ==> t.next.zoom == Zoom.NextLevel(s.zoom, Zoom.In)
    ensures t.next.session == s.session && t.alert.None? && t.removed.None?
    ensures s.region.None? ==> t.next == s
    ensures Valid(s) ==> Valid(t.next)
  {
    ZoomBy(s, Zoom.In)
  }

  function ZoomOut(s: State): (t: Transition)
    ensures s.region.Some? ==> t.next.region.Some? && t.next.region.value.center == s.region.value.center
    ensures s.region.Some? ==> t.next.region.value.latitudeDelta == s.region.value.latitudeDelta * ZoomFactor
    ensures s.region.Some? ==> t.next.region.value.longitudeDelta == s.region.value.longitudeDelta * ZoomFactor
    ensures Zoom.InRange(s.zoom) && s.region.Some? ==>
              (t.next.zoom == s.zoom <==> s.zoom == Zoom.MinZoomLevel)
    ensures s.region.Some? ==> t.next.zoom == Zoom.NextLevel(s.zoom, Zoom.Out)
    ensures t.next.session == s.session && t.alert.None? && t.removed.None?
    ensures s.region.None? ==> t.next == s
    ensures Valid(s) ==> Valid(t.next)
  {
    ZoomBy(s, Zoom.Out)
  }

  /** One event reaching the hook: a handler call or a delivered sample. */
  datatype Input =
    | LocationFix(permission: Permission, position: Coordinate)
    | StartPressed(permission: Permission, handle: Subscription)
    | StopPressed
    | SampleDelivered(sample: Sample)
    | ZoomInPressed
    | ZoomOutPressed

  function Apply(s: State, input: Input): (t: Transition)
    ensures Valid(s) ==> Valid(t.next)
  {
    match input
    case LocationFix(permission, position) => GetLocation(s, permission, position)
    case StartPressed(permission, handle) => StartTracking(s, permission, handle)
    case StopPressed => StopTracking(s)
    case SampleDelivered(sample) => OnSample(s, sample)
    case ZoomInPressed => ZoomIn(s)
    case ZoomOutPressed => ZoomOut(s)
  }

  /** Only the tracking handlers touch the tracking session. */
  predicate LeavesSessionAlone(input: Input) {
    !input.StartPressed? && !input.StopPressed?
  }

  /** The state after a sequence of inputs, applied in order. Fixes, samples
      and zoom presses never change the tracking flag or the stored
      subscription. */
  function Run(s: State, inputs: seq<Input>): (r: State)
    ensures (forall i :: 0 <= i < |inputs| ==> LeavesSessionAlone(inputs[i])) ==> r.session == s.session
    decreases |inputs|
  {
    if |inputs| == 0 then s else Run(Apply(s, inputs[0]).next, inputs[1..])
  }

  lemma InitialIsValid()
    ensures Valid(Initial)
  {
  }

  /** Every sequence of inputs keeps the state valid: in particular the zoom
      level never leaves [3, 20] and the flag always agrees with the stored
      subscription. */
  lemma {:induction false} RunPreservesValid(s: State, inputs: seq<Input>)
    requires Valid(s)
    ensures Valid(Run(s, inputs))
    decreases |inputs|
  {
    if |inputs| > 0 {
      RunPreservesValid(Apply(s, inputs[0]).next, inputs[1..]);
    }
  }

  lemma {:induction false} ReachableZoomInRange(inputs: seq<Input>)
    ensures Zoom.MinZoomLevel <= Run(Initial, inputs).zoom <= Zoom.MaxZoomLevel
  {
    InitialIsValid();
    RunPreservesValid(Initial, inputs);
  }

  /** A zoom-in followed by a zoom-out restores the region exactly, even when
      one of the level steps was rejected. */
  lemma ZoomInThenOutRestoresRegion(s: State)
    ensures ZoomOut(ZoomIn(s).next).next.region == s.region
  {
    if s.region.Some? {
      ZoomOutUndoesZoomIn(s.region.value);
    }
  }

  /** Strictly inside the range, away from the top, a zoom-in followed by a
      zoom-out restores the whole state. */
  lemma ZoomInThenOutInterior(s: State)
    requires Zoom.MinZoomLevel < s.zoom < Zoom.MaxZoomLevel - 1
    ensures ZoomOut(ZoomIn(s).next).next == s
  {
    if s.region.Some? {
      Zoom.InteriorStep(s.zoom);
      Zoom.InteriorStep(s.zoom + 1);
      ZoomOutUndoesZoomIn(s.region.value);
    }
  }

  /** Just below the top the level and the spans drift apart: zoom-in to 20
      then zoom-out lands on 18, while the spans are back where they were. */
  lemma ZoomInThenOutBelowTop(s: State)
    requires s.zoom == Zoom.MaxZoomLevel - 1 && s.region.Some?
    ensures ZoomOut(ZoomIn(s).next).next.zoom == Zoom.MaxZoomLevel - 2
    ensures ZoomOut(ZoomIn(s).next).next.region == s.region
  {
    Zoom.InteriorStep(s.zoom);
    Zoom.BoundaryDoubleStep();
    ZoomOutUndoesZoomIn(s.region.value);
  }

  /** `n` zoom-in presses in a row. */
  function ZoomInPresses(n: nat): (inputs: seq<Input>)
    ensures |inputs| == n
    ensures forall i :: 0 <= i < n ==> inputs[i] == ZoomInPressed
  {
    seq(n, _ => ZoomInPressed)
  }

  /** With a region, `n` zoom-in presses move the level as `n` level steps
      and divide the spans by 10^n; nothing else changes. */
  lemma {:induction false} RunZoomInPresses(s: State, n: nat)
    requires s.region.Some?
    ensures Run(s, ZoomInPresses(n)).zoom == Zoom.Repeat(s.zoom, Zoom.In, n)
    ensures Run(s, ZoomInPresses(n)).region == Some(ZoomedInTimes(s.region.value, n))
    ensures Run(s, ZoomInPresses(n)).session == s.session
    decreases n
  {
    if n > 0 {
      var inputs := ZoomInPresses(n);
      assert inputs[1..] == ZoomInPresses(n - 1);
      RunZoomInPresses(ZoomIn(s).next, n - 1);
    }
  }

  /** From mount and a first fix, six zoom-ins reach level 20 and a seventh
      is rejected, while the spans keep shrinking tenfold per press. */
  lemma SixZoomInsFromMount(position: Coordinate)
    ensures var s := GetLocation(Initial, Granted, position).next;
            && Run(s, ZoomInPresses(6)).zoom == Zoom.MaxZoomLevel
            && Run(s, ZoomInPresses(7)).zoom == Zoom.MaxZoomLevel
            && Run(s, ZoomInPresses(7)).region.value.latitudeDelta * Pow10(7) == DefaultDelta
            && Run(s, ZoomInPresses(7)).region.value.longitudeDelta * Pow10(7) == DefaultDelta
  {
    var s := GetLocation(Initial, Granted, position).next;
    assert s.zoom == Zoom.InitialZoomLevel;
    assert s.region == Some(AtPosition(position));
    var r := s.region.value;
    Zoom.FromInitialLevel(1);
    RunZoomInPresses(s, 6);
    RunZoomInPresses(s, 7);
    ZoomedInTimesScales(r, 7);
    var z := ZoomedInTimes(r, 7);
    assert Run(s, ZoomInPresses(7)).region == Some(z);
    assert r.latitudeDelta == DefaultDelta && r.longitudeDelta == DefaultDelta;
  }

  /** The GPS warning threshold is strict: an accuracy of exactly 10 m gives
      no alert, anything above does, and the region is replaced either way. */
  lemma AccuracyThreshold(s: State, c: Coordinate, a: real)
    requires a > MaxAcceptableAccuracy
    ensures OnSample(s, Sample(c, Some(MaxAcceptableAccuracy))).alert.None?
    ensures OnSample(s, Sample(c, None)).alert.None?
    ensures OnSample(s, Sample(c, Some(a))).alert == Some(GpsAccuracy)
    ensures OnSample(s, Sample(c, Some(a))).next == OnSample(s, Sample(c, None)).next
  {
  }

  /** At the top, a zoom-in keeps level 20 but still divides the spans;
      at the bottom, a zoom-out keeps level 3 but still multiplies them. */
  lemma RejectedStepStillScales(s: State)
    requires Valid(s) && s.region.Some?
    ensures s.zoom == Zoom.MaxZoomLevel ==>
              && ZoomIn(s).next.zoom == s.zoom
              && ZoomIn(s).next.region == Some(ZoomedIn(s.region.value))
              && ZoomIn(s).next.region.value.latitudeDelta < s.region.value.latitudeDelta
    ensures s.zoom == Zoom.MinZoomLevel ==>
              && ZoomOut(s).next.zoom == s.zoom
              && ZoomOut(s).next.region == Some(ZoomedOut(s.region.value))
              && ZoomOut(s).next.region.value.latitudeDelta > s.region.value.latitudeDelta
  {
  }

  /** The inputs the application can issue: the play/pause button calls
      `startTracking` only when not tracking (App.js:84). */
  predicate ButtonIssued(s: State, input: Input) {
    input.StartPressed? ==> !s.session.tracking
  }

  /** An input loses a subscription when one was stored and afterwards it is
      neither stored nor passed to `remove()`. */
  predicate DropsSubscription(s: State, input: Input) {
    var t := Apply(s, input);
    s.session.subscription.Some?
      && t.next.session.subscription != s.session.subscription
      && t.removed != s.session.subscription
  }

  /** With each handler call atomic, inputs issued through the application's
      buttons never lose a subscription; a direct second `startTracking`
      while tracking does lose one. */
  lemma SubscriptionNeverDroppedThroughButtons(s: State, input: Input)
    requires Valid(s)
    ensures ButtonIssued(s, input) ==> !DropsSubscription(s, input)
    ensures s.session.tracking ==>
              forall h :: h != s.session.subscription.value ==>
                DropsSubscription(s, StartPressed(Granted, h))
  {
  }

  /** Pressing only enabled buttons, zoom-in, zoom-in, zoom-out from level 18
      (18, 19, 20, 18) returns to level 18 with both spans a tenth of what
      they were: the level and the spans drift apart, so the spans can shrink
      without bound while the level stays in range. */
  lemma EnabledButtonsDriftSpans(s: State)
    requires Valid(s) && s.region.Some? && s.zoom == Zoom.MaxZoomLevel - 2
    ensures !Zoom.ButtonDisabled(s.zoom, Zoom.In)
    ensures !Zoom.ButtonDisabled(ZoomIn(s).next.zoom, Zoom.In)
    ensures !Zoom.ButtonDisabled(ZoomIn(ZoomIn(s).next).next.zoom, Zoom.Out)
    ensures Run(s, [ZoomInPressed, ZoomInPressed, ZoomOutPressed]).zoom == s.zoom
    ensures Run(s, [ZoomInPressed, ZoomInPressed, ZoomOutPressed]).region.value.latitudeDelta * ZoomFactor
              == s.region.value.latitudeDelta
    ensures Run(s, [ZoomInPressed, ZoomInPressed, ZoomOutPressed]).region.value.longitudeDelta * ZoomFactor
              == s.region.value.longitudeDelta
  {
  }

  /** The mirror drift at the bottom: pressing only enabled buttons,
      zoom-in, zoom-out, zoom-out from level 3 (3, 5, 4, 3) returns to level 3
      with both spans ten times what they were, so the spans can also grow
      without bound. */
  lemma EnabledButtonsGrowSpans(s: State)
    requires Valid(s) && s.region.Some? && s.zoom == Zoom.MinZoomLevel
    ensures !Zoom.ButtonDisabled(s.zoom, Zoom.In)
    ensures !Zoom.ButtonDisabled(ZoomIn(s).next.zoom, Zoom.Out)
    ensures !Zoom.ButtonDisabled(ZoomOut(ZoomIn(s).next).next.zoom, Zoom.Out)
    ensures Run(s, [ZoomInPressed, ZoomOutPressed, ZoomOutPressed]).zoom == s.zoom
    ensures Run(s, [ZoomInPressed, ZoomOutPressed, ZoomOutPressed]).region.value.latitudeDelta
              == s.region.value.latitudeDelta * ZoomFactor
    ensures Run(s, [ZoomInPressed, ZoomOutPressed, ZoomOutPressed]).region.value.longitudeDelta
              == s.region.value.longitudeDelta * ZoomFactor
  {
  }
}
