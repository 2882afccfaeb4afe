/** The filtering decision applied by the location entity to every raw fix, as a
    pure function of the last accepted fix, the new fix, the accuracy threshold
    and the platform's horizontal distance routine. It is the specification that
    `HikeLocationEntity.OnLocationChanged` is proved against. */
module Engine {
  import opened Filter

  datatype Option<+T> = None | Some(value: T)

  /** One location sample: position, altitude and accuracy in meters, and the
      fields the entity only logs or passes on (bearing, speed, time in
      milliseconds, name of the provider). */
  datatype Location = Location(
    latitude: real, longitude: real, altitude: real, accuracy: real,
    bearing: real, speed: real, time: int, provider: string)

  /** The platform's `Location.distanceBetween`: start latitude, start longitude,
      end latitude, end longitude to horizontal distance. It is not interpreted. */
  type DistanceRoutine = (real, real, real, real) -> real

  function HorizontalDistance(distanceBetween: DistanceRoutine, from: Location, to: Location): (d: real) {
    distanceBetween(from.latitude, from.longitude, to.latitude, to.longitude)
  }

  /** The current altitude after the two-sample low-pass filter seeded with the
      previous one. */
  function SmoothedAltitude(previous: real, current: real): (r: real)
    ensures IsLowpassOf([previous, current], [previous, r])
    ensures previous <= current ==> previous <= r <= current
    ensures current <= previous ==> current <= r <= previous
  {
    previous + FilterAlpha * (current - previous)
  }

  /** What to do with a raw fix: drop it, or store `fix` as the last known
      location and broadcast it to the listeners with `distance`. */
  datatype Decision = Reject | Accept(fix: Location, distance: real)

  /** The filtering rule of onLocationChanged. */
  function Decide(last: Option<Location>, fix: Location, minAccuracy: int, distanceBetween: DistanceRoutine): (r: Decision)
    // accuracy gate (inclusive), then the movement gate (strict)
    ensures r.Reject? <==>
      || fix.accuracy > minAccuracy as real
      || (last.Some? && HorizontalDistance(distanceBetween, last.value, fix) <= fix.accuracy)
    // the first accepted fix is taken as it is, with distance 0
    ensures r.Accept? && last.None? ==> r.fix == fix && r.distance == 0.0
    // a movement keeps every field of the fix but the altitude, reports the
    // horizontal distance, and stores the low-pass filtered altitude
    ensures r.Accept? && last.Some? ==>
      && r.fix == fix.(altitude := r.fix.altitude)
      && r.distance == HorizontalDistance(distanceBetween, last.value, fix)
      && IsLowpassOf([last.value.altitude, fix.altitude], [last.value.altitude, r.fix.altitude])
    // every broadcast distance is 0 or beyond the fix's error radius
    ensures r.Accept? ==> r.distance == 0.0 || r.distance > r.fix.accuracy
  {
    if fix.accuracy <= minAccuracy as real then
      match last
      case None => Accept(fix, 0.0)
      case Some(previous) =>
        var distance := HorizontalDistance(distanceBetween, previous, fix);
        if distance > fix.accuracy then
          Accept(fix.(altitude := SmoothedAltitude(previous.altitude, fix.altitude)), distance)
        else
          Reject
    else
      Reject
  }

  /** The stored altitude of an accepted movement is exactly
      previous + 0.25 * (current - previous), hence between the two altitudes. */
  lemma AcceptedMoveAltitude(last: Location, fix: Location, minAccuracy: int, distanceBetween: DistanceRoutine)
    requires Decide(Some(last), fix, minAccuracy, distanceBetween).Accept?
    ensures var stored := Decide(Some(last), fix, minAccuracy, distanceBetween).fix.altitude;
      && stored == last.altitude + FilterAlpha * (fix.altitude - last.altitude)
      && (last.altitude <= fix.altitude ==> last.altitude <= stored <= fix.altitude)
      && (fix.altitude <= last.altitude ==> fix.altitude <= stored <= last.altitude)
  {
  }
}
