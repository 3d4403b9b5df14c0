# useLocation: zoom counter, viewport and tracking lifecycle

This project models the state logic of the `useLocation` React hook of the
e-tap application. The hook keeps a map region centred on the device, a
discrete zoom level with boundary pre-adjustment, and a tracking session. The
session is a flag plus a stored location subscription. Each handler is modelled
as one pure transition on an immutable state record.

- `Options` (`options.dfy`): the optional value standing for the hook's `null`.
- `Zoom` (`zoom.dfy`): `setCurrentZoomLevel` with its constants 3, 20 and 14.
  This includes the pre-adjustment at a boundary, which makes 20 zoom out to 18
  and 3 zoom in to 5.
- `Viewport` (`viewport.dfy`): the `{center, latitudeDelta, longitudeDelta}`
  record, the default span 0.05, and the tenfold span scaling of a zoom press.
- `Tracking` (`tracking.dfy`): `startTracking` and `stopTracking` over the
  tracking flag and the stored subscription. It also models the application's
  single play/pause button.
- `LocationHook` (`location_hook.dfy`): the hook's full state and every handler.
  The handlers are `getLocation`, `startTracking`, `stopTracking`, the sample
  callback, `zoomIn` and `zoomOut`. It also defines a run over a sequence of
  inputs and the invariant every reachable state keeps.

Several inputs come from outside the hook: the permission outcomes, the
position fix of `getCurrentPositionAsync`, each sample delivered by
`watchPositionAsync`, and the subscription handle it returns. The model takes
all of them as parameters. `Alert.alert` calls come back as an `Alert` value in
the transition's result. A call to the subscription's `remove()` comes back as
the removed handle.

Behaviour of the code worth noting:
- A zoom-out at level 20 gives 18: the pre-adjustment and the step both
  subtract one.
- The spans are scaled even when the level step is rejected.
- A zoom press without a region changes nothing, including the level.
- `startTracking` called while already tracking stores the new subscription
  and never removes the old one. With each handler call atomic, the
  play/pause button's guard (App.js:84) keeps this from happening.

## Model

| member | source | states |
|---|---|---|
| Zoom.Step | useLocation.js:130-150 | an accepted step always lands in [3, 20] and moves one or two levels in the pressed direction; an out-of-range level is always rejected; in range, a step is rejected exactly when the matching button is disabled |
| Zoom.NextLevel | useLocation.js:130-150 | the level after one call stays in [3, 20] when it started there; it is unchanged exactly at the disabled limit; it never moves against the pressed direction |
| Zoom.StepAgreesWithTable | useLocation.js:130-150 | in range, the step equals an independent case table: refuse at the limit, double step off the opposite limit, single step elsewhere |
| Zoom.Repeat | useLocation.js:130-150 | any number of presses in one direction keeps an in-range level in range |
| Zoom.BoundaryDoubleStep | useLocation.js:133-147 | zoom-out at 20 gives 18 and zoom-in at 3 gives 5 |
| Zoom.RejectedAtLimits | useLocation.js:140-145 | zoom-in at 20 and zoom-out at 3 are rejected and leave the level unchanged |
| Zoom.InteriorStep | useLocation.js:140-149 | strictly between 3 and 20, zoom-in adds one and zoom-out subtracts one |
| Zoom.RepeatIn | useLocation.js:130-150 | from above 3, n zoom-ins give min(level + n, 20) |
| Zoom.RepeatOut | useLocation.js:130-150 | from below 20, n zoom-outs give max(level - n, 3) |
| Zoom.FromInitialLevel | useLocation.js:6-10 | from 14, six zoom-ins reach 20 and any further ones stay there; from 20, one zoom-out gives 18 and sixteen or more reach 3; from 3, one zoom-in gives 5 and n >= 1 give min(4 + n, 20) |
| Viewport.AtPosition | useLocation.js:63-68 | the region built from a position fix is centred on it with both spans 0.05, which are positive (the same literal appears at useLocation.js:27-32) |
| Viewport.ZoomedIn | useLocation.js:106-110 | the zoomed-in region keeps the center, and ten times its spans are the old spans; positive spans stay positive |
| Viewport.ZoomedOut | useLocation.js:119-123 | the zoomed-out region keeps the center, and its spans are ten times the old spans; positive spans stay positive |
| Viewport.ZoomOutUndoesZoomIn | useLocation.js:104-128 | zooming out after zooming in restores the region exactly |
| Viewport.ZoomInUndoesZoomOut | useLocation.js:104-128 | zooming in after zooming out restores the region exactly |
| Viewport.ZoomedInTimes | useLocation.js:104-115 | repeated zoom-ins keep the center and keep spans positive |
| Viewport.ZoomedInTimesScales | useLocation.js:104-115 | n zoom-ins divide both spans by exactly 10^n |
| Tracking.Start | useLocation.js:36-87 | a grant stores the new subscription and sets the flag with no alert; a denial raises the permission alert and changes nothing; it never removes a subscription; it keeps the flag consistent with the stored subscription |
| Tracking.Stop | useLocation.js:89-95 | the result is always idle, and `remove()` is called on exactly the stored subscription, if any |
| Tracking.Toggle | App.js:84 | while tracking, the button stops and removes the stored subscription; otherwise a grant starts tracking with the new handle and a denial raises the permission alert and changes nothing, and nothing is removed; it keeps the flag consistent |
| Tracking.ToggleNeverDropsSubscription | App.js:84 | with a stored subscription, a button press clears it and removes exactly it |
| Tracking.RestartDropsSubscription | useLocation.js:36-73 | a granted start while a subscription is stored replaces it without removing it |
| Tracking.StopIdempotent | useLocation.js:89-95 | a second stop leaves the state idle and removes nothing |
| LocationHook.PoorAccuracy | useLocation.js:49 | the GPS warning condition: an accuracy is present and strictly greater than 10 m; a missing (`null`) accuracy never compares greater |
| LocationHook.GetLocation | useLocation.js:22-34 | a grant sets the region to the fix with spans 0.05; a denial changes nothing; level and session are untouched and no alert is raised |
| LocationHook.StartTracking | useLocation.js:36-87 | a grant sets the flag and stores the handle with no alert; a denial keeps the state and raises the permission alert; level and region are untouched |
| LocationHook.StopTracking | useLocation.js:89-95 | the flag is cleared, no subscription is stored, and the stored one, if any, is removed; level and region are untouched |
| LocationHook.OnSample | useLocation.js:47-68 | the GPS alert is raised exactly when the accuracy is present and above 10 m; in every case the region becomes the sample's position with spans 0.05; level and session are untouched |
| LocationHook.ZoomBy | useLocation.js:104-128 | without a region nothing changes; with one, the center is kept and the level takes one controller step; the session is untouched |
| LocationHook.ZoomIn | useLocation.js:104-115 | with a region, ten times the new spans are the old spans, the center is kept and the level takes one zoom-in controller step, staying put in range exactly at 20; without a region nothing changes; the session is untouched, and there is no alert and no removal |
| LocationHook.ZoomOut | useLocation.js:117-128 | with a region, the spans are multiplied by ten, the center is kept and the level takes one zoom-out controller step, staying put in range exactly at 3; without a region nothing changes; the session is untouched, and there is no alert and no removal |
| LocationHook.Apply | useLocation.js:152-169 | every handler and delivered sample preserves the state invariant: level in [3, 20], flag consistent with the stored subscription, spans positive |
| LocationHook.Run | useLocation.js:152-169 | applying inputs in order, fixes, samples and zoom presses never change the tracking flag or the stored subscription |
| LocationHook.InitialIsValid | useLocation.js:10-13 | the freshly mounted state satisfies the invariant |
| LocationHook.RunPreservesValid | useLocation.js:5-150 | any sequence of inputs keeps the invariant |
| LocationHook.ReachableZoomInRange | useLocation.js:130-150 | after any sequence of inputs from mount, the zoom level is in [3, 20] |
| LocationHook.ZoomInThenOutRestoresRegion | useLocation.js:104-128 | a zoom-in followed by a zoom-out restores the region, whether or not either level step was rejected |
| LocationHook.ZoomInThenOutInterior | useLocation.js:104-150 | for levels 4 to 18, a zoom-in followed by a zoom-out restores the whole state |
| LocationHook.ZoomInThenOutBelowTop | useLocation.js:130-150 | from 19, zoom-in then zoom-out lands on 18 while the spans return to where they were |
| LocationHook.RunZoomInPresses | useLocation.js:104-115 | n zoom-in presses with a region move the level as n controller steps and divide the spans by 10^n; the session is untouched |
| LocationHook.SixZoomInsFromMount | useLocation.js:104-150 | after mount and a fix, six zoom-ins reach 20, a seventh is rejected, and the spans are then 0.05 / 10^7 |
| LocationHook.AccuracyThreshold | useLocation.js:47-68 | exactly 10 m and a missing accuracy raise no alert, anything above 10 m does, and the new state is the same either way |
| LocationHook.RejectedStepStillScales | useLocation.js:104-128 | at 20 a zoom-in keeps the level but still divides the spans; at 3 a zoom-out keeps the level but still multiplies them |
| LocationHook.EnabledButtonsDriftSpans | useLocation.js:104-150 | with only enabled buttons, zoom-in, zoom-in, zoom-out from 18 returns to level 18 with both spans a tenth of their old values |
| LocationHook.EnabledButtonsGrowSpans | useLocation.js:104-150 | with only enabled buttons, zoom-in, zoom-out, zoom-out from 3 returns to level 3 with both spans ten times their old values |
| LocationHook.SubscriptionNeverDroppedThroughButtons | App.js:84 | with each handler call atomic, inputs the buttons can issue never lose a stored subscription; a direct granted start with a new handle while tracking does lose one |

## Left out

- Permission requests, `getCurrentPositionAsync`, `watchPositionAsync` and `remove()`: these are asynchronous calls into expo-location. A permission outcome, a position fix and a new subscription handle are inputs, and the removed handle is an output.
- Rejected expo-location promises are not modelled. Such a handler stops at the failing await with no alert and no further state change. Examples: `watchPositionAsync` rejecting after a grant (useLocation.js:41) leaves the state untouched with no alert. A throwing `remove()` (useLocation.js:91) leaves the flag set. `Tracking.Start`'s "no alert exactly on a grant" describes only promises that resolve.
- LocationHook.SubscriptionNeverDroppedThroughButtons: holds only with each handler call atomic. In the application, `startTracking` sets the flag only after two awaits (useLocation.js:37, 41, 72-73). A second tap in that window passes the App.js:84 guard and starts again. Its `setLocationSubscription` overwrites the first handle, which is never removed. The interleaving of awaits is not modelled.
- `Alert.alert`, `console.log` and `mapRef.current.animateToRegion`: these are UI side effects. Alerts appear as `Alert` values; the animation is not modelled.
- Floating-point span arithmetic: spans and coordinates are exact reals. Repeated division by 10 in IEEE doubles is not exact, so the round-trip lemmas hold of the idealisation only. The "spans positive" part of the state invariant also depends on it. Enabled buttons alone can shrink the spans without bound (`LocationHook.EnabledButtonsDriftSpans`), and doubles would eventually underflow to 0. They can also grow them without bound (`LocationHook.EnabledButtonsGrowSpans`): doubles would eventually overflow to Infinity, and a `latitudeDelta` above 180 degrees already has no geographic meaning. The model places no upper bound on the spans.
- React state semantics: stale closures and batched `useState` updates are not modelled. For example, `setCurrentZoomLevel` reads the `zoom` of the render that created the handler. Each handler call is one atomic transition on the current state.
- The unmount cleanup (useLocation.js:97-102): it captures the first render's `stopTracking`, whose `locationSubscription` is `null`. Release on unmount is therefore not guaranteed, and no such property is stated.
- The markers (useLocation.js:17-20): static data that App.js only renders; the position is never compared with them.
- The subscription options (accuracy class, 10 s interval, 50 m distance): they only configure the external sensor.
- App.js rendering and `onRegionChangeComplete`, which overwrites the region with the map's own value: that is an external writer of the region. The button conditions (App.js:55, 67, 84) appear only as `Zoom.ButtonDisabled`, `Tracking.Toggle` and `LocationHook.ButtonIssued`.
- `getLocation` runs once, from the mount effect (useLocation.js:97-98), and the hook does not return it. The model lets a position fix arrive at any point of a run. This only adds behaviours, so the invariant lemmas still cover the source.
- A sample delivered while not tracking is handled like any other. The callback has no guard, and the model does not claim that `remove()` stops delivery.
