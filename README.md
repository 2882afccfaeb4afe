# HikeLocationEntity in Dafny

A model of the location-tracking engine of the DotHike Android hiking tracker:
the class `HikeLocationEntity`. The entity connects to the location provider,
starts and stops location updates, and keeps a list of listeners. It filters
every raw GPS fix the provider delivers and tells all listeners about each real
movement.

The model has four modules:

- `Filter` (`filter.dfy`) models the altitude low-pass filter `lowpassFilter`.
  It is a method over arrays, proved against the predicate `IsLowpassOf`, which
  states the filter recurrence with factor 0.25.
- `Engine` (`engine.dfy`) holds the `Location` value and the pure rule `Decide`.
  `Decide` says what `onLocationChanged` does with a fix: an accuracy gate
  (`<=` the threshold passes), then for the first fix "store it and report
  distance 0", and otherwise a movement gate (the distance must be strictly
  greater than the fix's accuracy) followed by altitude smoothing.
- `Listeners` (`listeners.dfy`) holds the listener notification `Broadcast` and
  `RemoveFirst`, which is `List.remove(Object)`.
- `HikeLocation` (`hike_location_entity.dfy`) holds the class
  `HikeLocationEntity`. Its fields are the entity's fields. Its methods are the
  entity's methods, framed field by field (`modifies this`lastKnownLocation`),
  so each method also says which fields it leaves alone.

Three collaborators are abstracted:

- The platform routine `Location.distanceBetween` is an uninterpreted function
  value, given to the constructor.
- Calls on Google Play services (connect, settings check, request updates,
  remove updates) are recorded in the log `providerCalls`.
- Listener callbacks `onLocationChanged(location, distance)` are recorded in the
  log `notifications`.

Shared preferences reach the entity as a `Preferences` value of two optional
integers. It is passed to the operations that read them: start, reset and
onConnected. Arithmetic is over `real`.

These source behaviours are kept as written:

- Listeners receive the horizontal distance, not the altitude-adjusted one.
- `startLocationUpdates` sets the requesting flag before it checks the
  connection, so a start while disconnected is resumed by `onConnected`.
- `stopLocationUpdates` clears the flag and the last fix even when
  disconnected.
- The priority preference is stored in `REQUEST_PRIORITY` but never applied to
  the request.
- `addListener` keeps duplicates, and `removeListener` drops only the first
  occurrence.
- The first fix is stored unfiltered.

The connection state is one boolean (`mGoogleApiClientConnected`), with no
Connecting or Suspended state. The getters `isGoogleApiClientConnected` and
`isRequestingLocationUpdates` are the functions `IsGoogleApiClientConnected`
and `IsRequestingLocationUpdates`, and the contracts of the lifecycle methods
(constructor, start, stop, reset, the connection callbacks and the settings
result) state the two flags through them.

The location request (`mLocationRequest`) is a field of its own, next to the
three configuration fields `mInterval`, `mFastestInterval` and `mPriority`.
The object invariant `Valid` keeps the request in step with those fields. The
constructor establishes it, and every setter keeps it by assigning both.

`HikeLocation.ResumeOnConnect`, `HikeLocation.TrackingSession` and
`HikeLocation.RestartAfterStop` are clients of the class, the last two with the
stand-in distance routine `HikeLocation.StubDistance`. From the contracts alone
they check three sessions. In the first, a start while disconnected is resumed
on connection with the default request. In the second, a first fix is broadcast
with distance 0, a fix less accurate than the threshold and a fix within its
own error radius are both dropped, and a 55.7 m move is broadcast with altitude
101.25. In the third, a stop makes the next fix a first fix again, broadcast
unfiltered with distance 0.

## Model

| member | source | states |
|---|---|---|
| `Filter.LowpassFilter` | app/src/main/java/me/dotteam/dotprod/loc/HikeLocationEntity.java:359-369 | A newly allocated array of the input's length. `output[0] == input[0]`, and each later `output[i] == output[i-1] + 0.25*(input[i]-output[i-1])` |
| `Filter.LowpassUnique` | app/src/main/java/me/dotteam/dotprod/loc/HikeLocationEntity.java:359-369 | The recurrence determines the output uniquely, so the filter is deterministic |
| `Filter.LowpassBounded` | app/src/main/java/me/dotteam/dotprod/loc/HikeLocationEntity.java:359-369 | If every input lies in [lo, hi], every filtered output does too |
| `Engine.SmoothedAltitude` | app/src/main/java/me/dotteam/dotprod/loc/HikeLocationEntity.java:409-417 | The smoothed altitude is the filter's second output for (previous, current) and lies between them |
| `Engine.Decide` | app/src/main/java/me/dotteam/dotprod/loc/HikeLocationEntity.java:381-431 | A fix is rejected iff its accuracy exceeds the threshold, or a last fix exists and the horizontal distance is not greater than the accuracy. A first fix is accepted unchanged with distance 0. A move keeps every field but the altitude, reports the horizontal distance and carries the low-pass filtered altitude. Every accepted distance is 0 or greater than the fix's accuracy |
| `Engine.AcceptedMoveAltitude` | app/src/main/java/me/dotteam/dotprod/loc/HikeLocationEntity.java:408-420 | An accepted move stores altitude `prev + 0.25*(cur - prev)`, between the previous and current altitude |
| `Listeners.Broadcast` | app/src/main/java/me/dotteam/dotprod/loc/HikeLocationEntity.java:435-440 | Notifying the list makes one callback per entry, duplicates included, in list order, each with the same fix and distance |
| `Listeners.RemoveFirst` | app/src/main/java/me/dotteam/dotprod/loc/HikeLocationEntity.java:272-275 | Removal drops exactly the first occurrence and keeps the rest in order. A list without the listener is unchanged |
| `Listeners.RemoveFirstMultiset` | app/src/main/java/me/dotteam/dotprod/loc/HikeLocationEntity.java:272-275 | Removal takes away one registration of the listener, if there is one, and no other |
| `Listeners.RemovedListenerNotNotified` | app/src/main/java/me/dotteam/dotprod/loc/HikeLocationEntity.java:262-275 | After removing a once-registered listener, no broadcast reaches it. Every other listener keeps its number of registrations |
| `HikeLocation.HikeLocationEntity.constructor` | app/src/main/java/me/dotteam/dotprod/loc/HikeLocationEntity.java:126-144 | Defaults are interval 5000, fastest interval 1000, priority high accuracy (100) and threshold 40, and the request carries the first three. The object invariant holds. The entity starts disconnected, not requesting, with no last fix and no listeners, and has asked the provider to connect |
| `HikeLocation.HikeLocationEntity.UpdateFromPreferences` | app/src/main/java/me/dotteam/dotprod/loc/HikeLocationEntity.java:146-155 | A present priority preference overwrites `requestPriority` only. A present accuracy preference overwrites the threshold. Absent ones change nothing |
| `HikeLocation.HikeLocationEntity.StartLocationUpdates` | app/src/main/java/me/dotteam/dotprod/loc/HikeLocationEntity.java:160-228 | Requesting is always true afterwards and the preferences are read. The settings check and subscription with the current request object happen iff connected. Priority, interval and the last fix are untouched |
| `HikeLocation.HikeLocationEntity.StopLocationUpdates` | app/src/main/java/me/dotteam/dotprod/loc/HikeLocationEntity.java:233-242 | Requesting is always false and the last fix cleared. The unsubscribe happens iff connected |
| `HikeLocation.HikeLocationEntity.ResetLocationUpdates` | app/src/main/java/me/dotteam/dotprod/loc/HikeLocationEntity.java:248-255 | Disconnected: nothing changes. Connected: requesting true, last fix cleared, preferences read, and the provider gets unsubscribe, settings check, subscribe |
| `HikeLocation.HikeLocationEntity.AddListener` | app/src/main/java/me/dotteam/dotprod/loc/HikeLocationEntity.java:262-265 | The listener is appended, without deduplication |
| `HikeLocation.HikeLocationEntity.RemoveListener` | app/src/main/java/me/dotteam/dotprod/loc/HikeLocationEntity.java:272-275 | The first occurrence is removed. Exactly one registration of that listener goes, if any |
| `HikeLocation.HikeLocationEntity.SetInterval` | app/src/main/java/me/dotteam/dotprod/loc/HikeLocationEntity.java:294-297 | The field and the request's interval take the value set, the request's other parts are kept, and the invariant tying request and fields holds again. Nothing else changes |
| `HikeLocation.HikeLocationEntity.SetFastestInterval` | app/src/main/java/me/dotteam/dotprod/loc/HikeLocationEntity.java:303-306 | The field and the request's fastest interval take the value set, the request's other parts are kept, and the invariant tying request and fields holds again. Nothing else changes |
| `HikeLocation.HikeLocationEntity.SetPriority` | app/src/main/java/me/dotteam/dotprod/loc/HikeLocationEntity.java:314-317 | The field and the request's priority take the value set, the request's other parts are kept, and the invariant tying request and fields holds again. Nothing else changes |
| `HikeLocation.HikeLocationEntity.Interval` | app/src/main/java/me/dotteam/dotprod/loc/HikeLocationEntity.java:323-325 | Under the object invariant, getInterval returns the interval of the request the provider is given |
| `HikeLocation.HikeLocationEntity.FastestInterval` | app/src/main/java/me/dotteam/dotprod/loc/HikeLocationEntity.java:331-333 | Under the object invariant, getFastestInterval returns the fastest interval of the request the provider is given |
| `HikeLocation.HikeLocationEntity.Priority` | app/src/main/java/me/dotteam/dotprod/loc/HikeLocationEntity.java:339-341 | Under the object invariant, getPriority returns the priority of the request the provider is given, not the priority preference |
| `HikeLocation.HikeLocationEntity.IsGoogleApiClientConnected` | app/src/main/java/me/dotteam/dotprod/loc/HikeLocationEntity.java:347-349 | The connection flag. The contracts of the constructor, start, stop, reset, the connection callbacks and the settings result state it through this function |
| `HikeLocation.HikeLocationEntity.IsRequestingLocationUpdates` | app/src/main/java/me/dotteam/dotprod/loc/HikeLocationEntity.java:355-357 | The requesting flag. The contracts of the constructor, start, stop, reset, onConnected and the settings result state it through this function |
| `HikeLocation.HikeLocationEntity.OnLocationChanged` | app/src/main/java/me/dotteam/dotprod/loc/HikeLocationEntity.java:372-433 | Follows `Decide`. A rejected fix changes neither the last fix nor the notifications. An accepted fix becomes the last fix and is broadcast to every listener in order with its distance. The invariant "every notified distance is 0 or beyond the fix's accuracy" is kept |
| `HikeLocation.HikeLocationEntity.BroadcastUpdate` | app/src/main/java/me/dotteam/dotprod/loc/HikeLocationEntity.java:435-440 | The notifications grow by exactly `Broadcast(listeners, location, distance)`, in list order |
| `HikeLocation.HikeLocationEntity.OnConnected` | app/src/main/java/me/dotteam/dotprod/loc/HikeLocationEntity.java:443-449 | Connected becomes true. Start runs again (preferences read, settings check, subscribe) iff updates were requested, and the requesting flag is kept |
| `HikeLocation.HikeLocationEntity.OnConnectionSuspended` | app/src/main/java/me/dotteam/dotprod/loc/HikeLocationEntity.java:452-467 | Connected becomes false. Requesting, the last fix and the listeners are untouched |
| `HikeLocation.HikeLocationEntity.OnConnectionFailed` | app/src/main/java/me/dotteam/dotprod/loc/HikeLocationEntity.java:470-474 | Connected becomes false. Requesting, the last fix and the listeners are untouched |
| `HikeLocation.HikeLocationEntity.OnLocationSettingsResult` | app/src/main/java/me/dotteam/dotprod/loc/HikeLocationEntity.java:179-220 | Only a "Not Now" answer to the resolution dialog changes state: it stops updates. Every other outcome leaves the entity as it was |

## Left out

- Google Play services (client build and connect, `requestLocationUpdates`, `removeLocationUpdates`, `checkLocationSettings`) is a foreign API. It appears only as entries of the `providerCalls` log. Fix delivery while unsubscribed is not prevented by the model, as the provider is outside it.
- The settings dialog, `Toast`, `startActivity` and the `Context` argument are UI. Only the "Not Now" branch is modelled, as a stop.
- `Location.distanceBetween` is a platform geodesic routine. It is uninterpreted here, so no geometric property of distance is assumed.
- The altitude-adjusted distance (`Math.sqrt` at line 423) is computed only for a log line and never reaches a listener.
- Java `float`/`double` rounding is not modelled. Accuracy, distance, altitude and the factor 0.25 are `real`.
- `SharedPreferences` reading and `Integer.parseInt` are I/O. The preferences arrive already parsed as optional integers, so a malformed priority string (which makes the source throw) is not modelled.
- `getInstance` is a process-wide singleton, and `Log` calls are logging only.
- `OnLocationChanged`: the source updates the caller's `Location` object in place (`setAltitude`) and then keeps that same object as the last fix (aliasing). Locations are values here, so the stored and broadcast fix is the smoothed copy, and the caller's object is not modelled.
- `BroadcastUpdate`: a listener that adds or removes listeners from inside its callback (re-entrant change of the list during the loop) is not modelled. Listeners only record their notification.
- HikeLocation.HikeLocationEntity.AddListener: the source calls `listener.toString()` before appending, so a null listener throws NullPointerException and leaves the list unchanged. Listeners here are non-null values, so that failure is not modelled.
- HikeLocation.HikeLocationEntity.RemoveListener: as for AddListener, a null listener throws in the source before the list is touched. The model has no null listener.
- Engine.Decide: `Location` keeps latitude, longitude, altitude, accuracy, bearing, speed, time and provider. The other data of an Android `Location` (the has-altitude/has-bearing flags, elapsed real time, extras) is not modelled. `setAltitude` (:417) also sets the has-altitude flag of a moved fix. Neither the flag nor that change is modelled.
- HikeLocation.HikeLocationEntity.SetInterval: the Play services `LocationRequest.setInterval` rejects an invalid argument by throwing, after the entity's own field has been assigned, which would leave field and request out of step. The model's setters cannot fail, so they always restore the invariant, and that failure is not modelled.
- HikeLocation.HikeLocationEntity.SetFastestInterval: same as SetInterval, for `LocationRequest.setFastestInterval`.
- HikeLocation.HikeLocationEntity.SetPriority: same as SetInterval, for `LocationRequest.setPriority` with an unknown priority.
- `Filter.LowpassFilter` requires a non-empty input. The source would fail at `output[0]` on an empty array, and its only caller always passes two samples.
- app/src/main/java/me/dotteam/dotprod/HikeActivity.java (Android activity, map and threads) is not part of this model.
- app/src/androidTest/java/me/dotteam/dotprod/test/system/data/DBAssistantTest.java (a database file check on the device) is not part of this model.
