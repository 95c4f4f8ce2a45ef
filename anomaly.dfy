/** The anomaly classifiers (backend/anomaly.py). Distances are an abstract
    function in place of geopy's geodesic distance; times are seconds. */
module Anomaly {
  import opened Wrappers

  datatype Point = Point(lat: real, lng: real)

  /** Distance in kilometres between two points. */
  type Distance = (Point, Point) -> real

  /** The loop of `deviation_from_route`: True unless some planned point is within the threshold. */
  function FarFromAll(dist: Distance, current: Point, planned: seq<Point>, thresholdKm: real): (r: bool)
    ensures r <==> forall i :: 0 <= i < |planned| ==> dist(current, planned[i]) > thresholdKm
  {
    if planned == [] then true
    else if dist(current, planned[0]) <= thresholdKm then false
    else
      var rest := FarFromAll(dist, current, planned[1..], thresholdKm);
      assert forall i :: 1 <= i < |planned| ==> planned[i] == planned[1..][i - 1];
      rest
  }

  /** `deviation_from_route`: an empty route never deviates; otherwise the
      current point deviates when it is farther than the threshold from every
      planned point. */
  function DeviationFromRoute(dist: Distance, current: Point, planned: seq<Point>, thresholdKm: real): (r: bool)
    ensures r <==> planned != [] && forall i :: 0 <= i < |planned| ==> dist(current, planned[i]) > thresholdKm
  {
    if planned == [] then false else FarFromAll(dist, current, planned, thresholdKm)
  }

  /** A point at exactly the threshold distance counts as on the route. */
  lemma AtThresholdIsOnRoute(dist: Distance, current: Point, planned: seq<Point>, thresholdKm: real, i: nat)
    requires i < |planned| && dist(current, planned[i]) == thresholdKm
    ensures !DeviationFromRoute(dist, current, planned, thresholdKm)
  {
  }

  /** Adding a planned point to a non-empty route can only remove a deviation. */
  lemma {:induction false} ExtraPointNarrows(dist: Distance, current: Point, planned: seq<Point>, q: Point, thresholdKm: real)
    requires planned != []
    ensures DeviationFromRoute(dist, current, planned + [q], thresholdKm)
        <==> DeviationFromRoute(dist, current, planned, thresholdKm) && dist(current, q) > thresholdKm
  {
    var ext := planned + [q];
    assert forall i :: 0 <= i < |planned| ==> ext[i] == planned[i];
    assert ext[|planned|] == q;
  }

  /** `now_ts or time.time()`: a missing or zero `now_ts` is replaced by the clock. */
  function EffectiveNow(nowTs: Option<real>, clock: real): (n: real)
    ensures nowTs.Some? && nowTs.value != 0.0 ==> n == nowTs.value
    ensures nowTs.None? || nowTs.value == 0.0 ==> n == clock
  {
    if nowTs.None? || nowTs.value == 0.0 then clock else nowTs.value
  }

  /** `inactivity`: idle for at least `maxIdleMinutes` minutes. */
  function Inactivity(lastUpdateTs: real, nowTs: Option<real>, clock: real, maxIdleMinutes: real): (r: bool)
    ensures r <==> EffectiveNow(nowTs, clock) - lastUpdateTs >= 60.0 * maxIdleMinutes
  {
    var idleMin := (EffectiveNow(nowTs, clock) - lastUpdateTs) / 60.0;
    idleMin >= maxIdleMinutes
  }

  /** Being idle for exactly the limit counts as inactive. */
  lemma IdleLimitInclusive(lastUpdateTs: real, nowTs: real, clock: real, maxIdleMinutes: real)
    requires nowTs != 0.0 && nowTs - lastUpdateTs == 60.0 * maxIdleMinutes
    ensures Inactivity(lastUpdateTs, Some(nowTs), clock, maxIdleMinutes)
  {
  }

  /** A zero `now_ts` is falsy and means the clock, not the epoch. */
  lemma ZeroNowMeansClock(lastUpdateTs: real, clock: real, maxIdleMinutes: real)
    ensures Inactivity(lastUpdateTs, Some(0.0), clock, maxIdleMinutes)
        <==> clock - lastUpdateTs >= 60.0 * maxIdleMinutes
  {
  }
}
