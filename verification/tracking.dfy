/**
  The tracking lifecycle of the hook (useLocation.js:36-95): the
  `trackingStatus` flag and the stored `locationSubscription`, driven by the
  outcome of the background-permission request. The permission outcome and
  the handle returned by `watchPositionAsync` are inputs.
 */
module Tracking {
  import opened Options

  /** The outcome of a permission request: `'granted'` or anything else. */
  datatype Permission = Granted | Denied

  /** The opaque handle `watchPositionAsync` resolves to. */
  datatype Subscription = Subscription(id: nat)

  /** The alerts the hook raises, each an `Alert.alert` call in the source. */
  datatype Alert =
    | GpsAccuracy          // "Can't get GPS signal" (useLocation.js:51-61)
    | PermissionNotGranted // "Permission not granted" (useLocation.js:75-85)

  datatype TrackingState = TrackingState(tracking: bool, subscription: Option<Subscription>)

  /** The result of one lifecycle handler: the new state, the alert it raised
      and the subscription it called `remove()` on. */
  datatype Effect = Effect(next: TrackingState, alert: Option<Alert>, removed: Option<Subscription>)

  const Idle: TrackingState := TrackingState(false, None)

  /** The flag shows tracking exactly when a subscription is stored. */
  predicate Consistent(t: TrackingState) {
    t.tracking <==> t.subscription.Some?
  }

  /** `startTracking`: on a grant, store the new subscription and set the
      flag; otherwise raise the permission alert and change nothing. It does
      not look at the current state. */
  function Start(t: TrackingState, permission: Permission, handle: Subscription): (e: Effect)
    ensures permission == Granted ==> e.next.tracking && e.next.subscription == Some(handle)
    ensures permission == Granted <==> e.alert.None?
    ensures permission == Denied ==> e.next == t && e.alert == Some(PermissionNotGranted)
    ensures e.removed.None?
    ensures Consistent(t) ==> Consistent(e.next)
  {
    match permission
    case Granted => Effect(TrackingState(true, Some(handle)), None, None)
    case Denied => Effect(t, Some(PermissionNotGranted), None)
  }

  /** `stopTracking`: remove the stored subscription if there is one, then
      clear the flag. */
  function Stop(t: TrackingState): (e: Effect)
    ensures e.next == Idle
    ensures e.removed == t.subscription
    ensures e.alert.None?
    ensures Consistent(e.next)
  {
    Effect(Idle, None, t.subscription)
  }

  /** The single play/pause button of the application (App.js:84): start
      when not tracking, stop otherwise. */
  function Toggle(t: TrackingState, permission: Permission, handle: Subscription): (e: Effect)
    ensures t.tracking ==> e.next == Idle && e.removed == t.subscription
    ensures !t.tracking ==> e.removed.None?
    ensures !t.tracking && permission == Granted ==> e.next == TrackingState(true, Some(handle)) && e.alert.None?
    ensures !t.tracking && permission == Denied ==> e.next == t && e.alert == Some(PermissionNotGranted)
    ensures Consistent(t) ==> Consistent(e.next)
  {
    if !t.tracking then Start(t, permission, handle) else Stop(t)
  }

  /** Driven through the button, a stored subscription is never lost: after a
      press it is either still stored or has been removed. */
  lemma ToggleNeverDropsSubscription(t: TrackingState, permission: Permission, handle: Subscription)
    requires Consistent(t)
    requires t.subscription.Some?
    ensures Toggle(t, permission, handle).next.subscription.None?
    ensures Toggle(t, permission, handle).removed == t.subscription
  {
  }

  /** Called directly while already tracking, `startTracking` is not
      idempotent: it replaces the stored subscription with a new one and
      never removes the old one. */
  lemma RestartDropsSubscription(t: TrackingState, stored: Subscription, handle: Subscription)
    requires t.subscription == Some(stored)
    requires stored != handle
    ensures Start(t, Granted, handle).next.subscription == Some(handle)
    ensures Start(t, Granted, handle).removed.None?
  {
  }

  /** Stopping twice is the same as stopping once, and a stop while idle
      removes nothing. */
  lemma StopIdempotent(t: TrackingState)
    ensures Stop(Stop(t).next).next == Stop(t).next
    ensures Stop(Stop(t).next).removed.None?
  {
  }
}
