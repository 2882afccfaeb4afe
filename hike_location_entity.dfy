/** HikeLocationEntity: the one object through which the app obtains location
    updates. It keeps the connection state of the location provider, whether
    updates were requested, the last accepted fix, the listener list and the
    request configuration, and turns every raw fix the provider delivers into
    zero or one round of listener notifications.

    What the entity does to the outside world is recorded in two logs: the calls
    it makes on the location provider (`providerCalls`) and the callbacks it makes
    on its listeners (`notifications`). */
module HikeLocation {
  import opened Engine
  import opened Listeners
  import opened Filter

  /** Default values of the location request. */
  const DefaultInterval: int := 5000
  const DefaultFastestInterval: int := 1000
  /** LocationRequest.PRIORITY_HIGH_ACCURACY of Google Play services. */
  const PriorityHighAccuracy: int := 100
  /** Default worst accepted accuracy, in meters. */
  const DefaultMinLocationAccuracy: int := 40

  /** The two shared preferences read by updateFromPreferences, already parsed;
      None when the preference is not set. */
  datatype Preferences = Preferences(locationPermission: Option<int>, locationFilterAccuracy: Option<int>)
  {
    /** The request priority after reading these preferences. */
    function RequestPriority(current: int): (p: int) {
      match locationPermission
      case Some(p) => p
      case None => current
    }

    /** The accuracy threshold after reading these preferences. */
    function MinLocationAccuracy(current: int): (a: int) {
      match locationFilterAccuracy
      case Some(a) => a
      case None => current
    }
  }

  /** The configuration carried by the location request object. */
  datatype LocationRequest = LocationRequest(interval: int, fastestInterval: int, priority: int)

  /** A call the entity makes on the location provider. */
  datatype ProviderCall =
    | Connect
    | CheckLocationSettings(request: LocationRequest)
    | RequestLocationUpdates(request: LocationRequest)
    | RemoveLocationUpdates

  /** How the asynchronous location-settings check ends: the settings are
      satisfied, the user answers "Yes" or "Not Now" in the resolution dialog, or
      the settings cannot be changed. */
  datatype SettingsOutcome = Success | ResolutionAccepted | ResolutionDeclined | ChangeUnavailable

  class HikeLocationEntity<L(==)> {
    /** The platform distance routine the entity is given. */
    const distanceBetween: DistanceRoutine

    var requestPriority: int
    var minLocationAccuracy: int
    var listeners: seq<L>
    var interval: int
    var fastestInterval: int
    var priority: int
    /** The location request object handed to the provider. */
    var locationRequest: LocationRequest
    var googleApiClientConnected: bool
    var requestingLocationUpdates: bool
    var lastKnownLocation: Option<Location>

    /** Every listener callback made so far, in order. */
    var notifications: seq<Notification<L>>
    /** Every call made on the location provider so far, in order. */
    var providerCalls: seq<ProviderCall>

    /** The object invariant: the constructor and the setters keep the request
        object in step with the three configuration fields, and listeners are
        only ever told of a first fix (distance 0) or of a move beyond the error
        radius of the new fix. */
    ghost predicate Valid()
      reads this`notifications, this`locationRequest, this`interval, this`fastestInterval, this`priority
    {
      && locationRequest == LocationRequest(interval, fastestInterval, priority)
      && GatedDistances(notifications)
    }

    /** getInterval: the interval the provider is asked for. */
    function Interval(): (r: int)
      reads this
      requires Valid()
      ensures r == locationRequest.interval
    {
      interval
    }

    /** getFastestInterval: the fastest interval the provider is asked for. */
    function FastestInterval(): (r: int)
      reads this
      requires Valid()
      ensures r == locationRequest.fastestInterval
    {
      fastestInterval
    }

    /** getPriority: the priority the provider is asked for, which is not the
        priority preference. */
    function Priority(): (r: int)
      reads this
      requires Valid()
      ensures r == locationRequest.priority
    {
      priority
    }

    /** isGoogleApiClientConnected: the connection flag that start, stop and
        reset test before calling the provider. */
    function IsGoogleApiClientConnected(): bool
      reads this
    {
      googleApiClientConnected
    }

    /** isRequestingLocationUpdates: the flag that OnConnected tests to resume
        updates. */
    function IsRequestingLocationUpdates(): bool
      reads this
    {
      requestingLocationUpdates
    }

    /** Creates the entity with the default configuration and asks the provider
        to connect; the connection result arrives later through OnConnected or
        OnConnectionFailed. */
    constructor (distanceBetween: DistanceRoutine)
      ensures Valid()
      ensures this.distanceBetween == distanceBetween
      ensures Interval() == DefaultInterval && FastestInterval() == DefaultFastestInterval
      ensures Priority() == PriorityHighAccuracy && requestPriority == PriorityHighAccuracy
      ensures locationRequest == LocationRequest(DefaultInterval, DefaultFastestInterval, PriorityHighAccuracy)
      ensures minLocationAccuracy == DefaultMinLocationAccuracy
      ensures !IsGoogleApiClientConnected() && !IsRequestingLocationUpdates() && lastKnownLocation == None
      ensures listeners == [] && notifications == []
      ensures providerCalls == [Connect]
    {
      this.distanceBetween := distanceBetween;
      requestPriority := PriorityHighAccuracy;
      minLocationAccuracy := DefaultMinLocationAccuracy;
      googleApiClientConnected := false;
      requestingLocationUpdates := false;
      lastKnownLocation := None;
      notifications := [];
      providerCalls := [Connect];
      listeners := [];
      interval := DefaultInterval;
      fastestInterval := DefaultFastestInterval;
      priority := requestPriority;
      locationRequest := LocationRequest(interval, fastestInterval, priority);
    }

    /** Reads the priority and accuracy preferences. The priority only reaches
        `requestPriority`: nothing copies it into `priority` or the request. */
    method UpdateFromPreferences(prefs: Preferences)
      modifies this`requestPriority, this`minLocationAccuracy
      ensures requestPriority == prefs.RequestPriority(old(requestPriority))
      ensures minLocationAccuracy == prefs.MinLocationAccuracy(old(minLocationAccuracy))
    {
      if prefs.locationPermission.Some? {
        requestPriority := prefs.locationPermission.value;
      }
      if prefs.locationFilterAccuracy.Some? {
        minLocationAccuracy := prefs.locationFilterAccuracy.value;
      }
    }

    /** Marks updates as requested (even when disconnected, so that OnConnected
        resumes them), reads the preferences and, only when connected, starts the
        settings check and subscribes with the current request. */
    method StartLocationUpdates(prefs: Preferences)
      modifies this`requestingLocationUpdates, this`requestPriority, this`minLocationAccuracy, this`providerCalls
      ensures IsRequestingLocationUpdates()
      ensures requestPriority == prefs.RequestPriority(old(requestPriority))
      ensures minLocationAccuracy == prefs.MinLocationAccuracy(old(minLocationAccuracy))
      ensures providerCalls == old(providerCalls) +
        if IsGoogleApiClientConnected() then [CheckLocationSettings(locationRequest), RequestLocationUpdates(locationRequest)] else []
    {
      requestingLocationUpdates := true;
      UpdateFromPreferences(prefs);
      if googleApiClientConnected {
        providerCalls := providerCalls + [CheckLocationSettings(locationRequest)];
        providerCalls := providerCalls + [RequestLocationUpdates(locationRequest)];
      }
    }

    /** Marks updates as not requested and forgets the last fix whatever the
        connection state; only the unsubscribe needs a connection. */
    method StopLocationUpdates()
      modifies this`requestingLocationUpdates, this`lastKnownLocation, this`providerCalls
      ensures !IsRequestingLocationUpdates() && lastKnownLocation == None
      ensures providerCalls == old(providerCalls) + if IsGoogleApiClientConnected() then [RemoveLocationUpdates] else []
    {
      requestingLocationUpdates := false;
      lastKnownLocation := None;
      if googleApiClientConnected {
        providerCalls := providerCalls + [RemoveLocationUpdates];
      }
    }

    /** Stop then start when connected, so that changed settings take effect;
        nothing at all when disconnected. */
    method ResetLocationUpdates(prefs: Preferences)
      modifies this`requestingLocationUpdates, this`lastKnownLocation, this`requestPriority,
        this`minLocationAccuracy, this`providerCalls
      ensures !IsGoogleApiClientConnected() ==>
        && requestingLocationUpdates == old(requestingLocationUpdates)
        && lastKnownLocation == old(lastKnownLocation)
        && requestPriority == old(requestPriority)
        && minLocationAccuracy == old(minLocationAccuracy)
        && providerCalls == old(providerCalls)
      ensures IsGoogleApiClientConnected() ==>
        && IsRequestingLocationUpdates()
        && lastKnownLocation == None
        && requestPriority == prefs.RequestPriority(old(requestPriority))
        && minLocationAccuracy == prefs.MinLocationAccuracy(old(minLocationAccuracy))
        && providerCalls == old(providerCalls) +
             [RemoveLocationUpdates, CheckLocationSettings(locationRequest), RequestLocationUpdates(locationRequest)]
    {
      if googleApiClientConnected {
        StopLocationUpdates();
        StartLocationUpdates(prefs);
      }
    }

    /** Appends `listener`, duplicates allowed. */
    method AddListener(listener: L)
      modifies this`listeners
      ensures listeners == old(listeners) + [listener]
    {
      listeners := listeners + [listener];
    }

    /** Removes the first registration of `listener`, if any. */
    method RemoveListener(listener: L)
      modifies this`listeners
      ensures listeners == RemoveFirst(old(listeners), listener)
      ensures multiset(listeners) == multiset(old(listeners)) - multiset{listener}
    {
      RemoveFirstMultiset(listeners, listener);
      listeners := RemoveFirst(listeners, listener);
    }

    /** Sets the preferred interval, in the field and in the request. */
    method SetInterval(interval: int)
      requires Valid()
      modifies this`interval, this`locationRequest
      ensures Valid()
      ensures Interval() == interval
      ensures locationRequest == old(locationRequest).(interval := interval)
    {
      this.interval := interval;
      locationRequest := locationRequest.(interval := interval);
    }

    /** Sets the fastest interval, in the field and in the request. */
    method SetFastestInterval(fastestInterval: int)
      requires Valid()
      modifies this`fastestInterval, this`locationRequest
      ensures Valid()
      ensures FastestInterval() == fastestInterval
      ensures locationRequest == old(locationRequest).(fastestInterval := fastestInterval)
    {
      this.fastestInterval := fastestInterval;
      locationRequest := locationRequest.(fastestInterval := fastestInterval);
    }

    /** Sets the priority, in the field and in the request. */
    method SetPriority(priority: int)
      requires Valid()
      modifies this`priority, this`locationRequest
      ensures Valid()
      ensures Priority() == priority
      ensures locationRequest == old(locationRequest).(priority := priority)
    {
      this.priority := priority;
      locationRequest := locationRequest.(priority := priority);
    }

    /** The provider delivers a raw fix: it is filtered by Decide, and an accepted
        fix becomes the last known location and is broadcast. */
    method OnLocationChanged(location: Location)
      requires Valid()
      modifies this`lastKnownLocation, this`notifications
      ensures Valid()
      ensures match Decide(old(lastKnownLocation), location, minLocationAccuracy, distanceBetween)
        case Reject =>
          lastKnownLocation == old(lastKnownLocation) && notifications == old(notifications)
        case Accept(fix, distance) =>
          && lastKnownLocation == Some(fix)
          && notifications == old(notifications) + Broadcast(listeners, fix, distance)
    {
      if location.accuracy <= minLocationAccuracy as real {
        if lastKnownLocation.None? {
          // the first fix is stored and passed on unfiltered, with distance 0
          // (the source inlines the same loop as BroadcastUpdate here)
          lastKnownLocation := Some(location);
          BroadcastUpdate(location, 0.0);
        } else {
          var previous := lastKnownLocation.value;
          var distance := distanceBetween(previous.latitude, previous.longitude, location.latitude, location.longitude);
          if distance > location.accuracy {
            var altitude := new real[2];
            altitude[0] := previous.altitude;
            altitude[1] := location.altitude;
            var newAltitude := LowpassFilter(altitude);
            assert altitude[..] == [previous.altitude, location.altitude];
            LowpassUnique(altitude[..], newAltitude[..], [previous.altitude, SmoothedAltitude(previous.altitude, location.altitude)]);
            var moved := location.(altitude := newAltitude[1]);
            // the altitude-adjusted distance is only logged; listeners get `distance`
            lastKnownLocation := Some(moved);
            BroadcastUpdate(moved, distance);
          }
        }
      }
    }

    /** Notifies every listener of `location`, in list order. */
    method BroadcastUpdate(location: Location, distance: real)
      requires Valid()
      requires distance == 0.0 || distance > location.accuracy
      modifies this`notifications
      ensures Valid()
      ensures notifications == old(notifications) + Broadcast(listeners, location, distance)
    {
      var i := 0;
      while i < |listeners|
        invariant 0 <= i <= |listeners|
        invariant notifications == old(notifications) + Broadcast(listeners[..i], location, distance)
      {
        BroadcastAppend(listeners[..i], listeners[i], location, distance);
        assert listeners[..i + 1] == listeners[..i] + [listeners[i]];
        notifications := notifications + [Notification(listeners[i], location, distance)];
        i := i + 1;
      }
      assert listeners[..i] == listeners;
      GatedBroadcast(old(notifications), listeners, location, distance);
    }

    /** The provider is connected; updates requested earlier are started now. */
    method OnConnected(prefs: Preferences)
      modifies this`googleApiClientConnected, this`requestingLocationUpdates, this`requestPriority,
        this`minLocationAccuracy, this`providerCalls
      ensures IsGoogleApiClientConnected()
      ensures requestingLocationUpdates == old(requestingLocationUpdates)
      ensures IsRequestingLocationUpdates() ==>
        && requestPriority == prefs.RequestPriority(old(requestPriority))
        && minLocationAccuracy == prefs.MinLocationAccuracy(old(minLocationAccuracy))
        && providerCalls == old(providerCalls) + [CheckLocationSettings(locationRequest), RequestLocationUpdates(locationRequest)]
      ensures !IsRequestingLocationUpdates() ==>
        && requestPriority == old(requestPriority)
        && minLocationAccuracy == old(minLocationAccuracy)
        && providerCalls == old(providerCalls)
    {
      googleApiClientConnected := true;
      if requestingLocationUpdates {
        StartLocationUpdates(prefs);
      }
    }

    /** The connection is suspended; `cause` only selects a log message. The
        request flag is kept so that a reconnect resumes updates. */
    method OnConnectionSuspended(cause: int)
      modifies this`googleApiClientConnected
      ensures !IsGoogleApiClientConnected()
    {
      googleApiClientConnected := false;
    }

    /** The connection failed; the result is only logged. */
    method OnConnectionFailed(connectionResult: int)
      modifies this`googleApiClientConnected
      ensures !IsGoogleApiClientConnected()
    {
      googleApiClientConnected := false;
    }

    /** Result of the settings check started by StartLocationUpdates. Only the
        "Not Now" answer to the resolution dialog changes the entity: it stops
        the updates. */
    method OnLocationSettingsResult(outcome: SettingsOutcome)
      modifies this`requestingLocationUpdates, this`lastKnownLocation, this`providerCalls
      ensures outcome == ResolutionDeclined ==>
        && !IsRequestingLocationUpdates() && lastKnownLocation == None
        && providerCalls == old(providerCalls) + if IsGoogleApiClientConnected() then [RemoveLocationUpdates] else []
      ensures outcome != ResolutionDeclined ==>
        && requestingLocationUpdates == old(requestingLocationUpdates)
        && lastKnownLocation == old(lastKnownLocation)
        && providerCalls == old(providerCalls)
    {
      if outcome == ResolutionDeclined {
        StopLocationUpdates();
      }
    }
  }

  /** A stand-in for the platform distance routine: 0 between equal positions
      and 55.7 meters between any two different ones. */
  function StubDistance(lat1: real, lon1: real, lat2: real, lon2: real): (d: real)
    ensures d == 0.0 <==> (lat1 == lat2 && lon1 == lon2)
  {
    if lat1 == lat2 && lon1 == lon2 then 0.0 else 55.7
  }

  /** A client starting updates before the provider is connected: the start is
      remembered, and the connection resumes it with the default request. */
  method ResumeOnConnect()
  {
    var entity := new HikeLocationEntity<int>(StubDistance);
    var prefs := Preferences(None, None);

    entity.StartLocationUpdates(prefs);
    assert entity.providerCalls == [Connect];
    entity.OnConnected(prefs);
    assert entity.providerCalls[1..] == [CheckLocationSettings(LocationRequest(5000, 1000, 100)), RequestLocationUpdates(LocationRequest(5000, 1000, 100))];
  }

  /** A session of fixes as two listeners see it: a fix less accurate than the
      threshold is dropped, a fix within its own error radius is dropped, and a
      moved fix is broadcast with its smoothed altitude in registration order. */
  method TrackingSession()
  {
    var entity := new HikeLocationEntity<int>(StubDistance);
    entity.AddListener(1);
    entity.AddListener(2);

    var first := Location(45.0, -73.0, 100.0, 10.0, 0.0, 0.0, 1000, "fused");
    entity.OnLocationChanged(first);
    assert entity.notifications == [Notification(1, first, 0.0), Notification(2, first, 0.0)];

    var inaccurate := Location(45.1, -73.0, 120.0, 50.0, 0.0, 0.0, 2000, "fused");
    entity.OnLocationChanged(inaccurate);
    assert entity.lastKnownLocation == Some(first) && |entity.notifications| == 2;

    var unmoved := Location(45.0, -73.0, 120.0, 30.0, 0.0, 0.0, 3000, "fused");
    entity.OnLocationChanged(unmoved);
    assert entity.lastKnownLocation == Some(first) && |entity.notifications| == 2;

    var moved := Location(45.0005, -73.0, 105.0, 10.0, 90.0, 1.2, 4000, "fused");
    entity.OnLocationChanged(moved);
    var smoothed := moved.(altitude := 101.25);
    assert entity.lastKnownLocation == Some(smoothed);
    assert entity.notifications[2..] == [Notification(1, smoothed, 55.7), Notification(2, smoothed, 55.7)];
  }

  /** After a stop the next fix is again a first fix: stored unfiltered and
      broadcast with distance 0, even far from the fix before the stop. */
  method RestartAfterStop()
  {
    var entity := new HikeLocationEntity<int>(StubDistance);
    entity.AddListener(1);
    entity.AddListener(2);

    var first := Location(45.0, -73.0, 100.0, 10.0, 0.0, 0.0, 1000, "fused");
    entity.OnLocationChanged(first);
    assert entity.lastKnownLocation == Some(first) && |entity.notifications| == 2;

    entity.StopLocationUpdates();
    var moved := Location(45.0005, -73.0, 105.0, 10.0, 90.0, 1.2, 4000, "fused");
    entity.OnLocationChanged(moved);
    assert entity.lastKnownLocation == Some(moved);
    assert entity.notifications[2..] == [Notification(1, moved, 0.0), Notification(2, moved, 0.0)];
  }
}
