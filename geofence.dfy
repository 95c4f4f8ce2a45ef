/** Bounding-box geofencing (backend/geofence.py). */
module Geofence {

  /** A zone as the source stores it: the list [min_lng, min_lat, max_lng, max_lat]. */
  type Box = b: seq<real> | |b| == 4 witness [0.0, 0.0, 0.0, 0.0]

  /** HIGH_RISK_ZONES. */
  const HighRiskZones: seq<Box> := [[91.73, 26.14, 91.80, 26.20]]

  /** The test `in_high_risk_zone` makes of one zone after unpacking it: longitude against
      entries 0 and 2, latitude against entries 1 and 3, edges included. */
  predicate Contains(box: Box, lat: real, lng: real) {
    var minLng, minLat, maxLng, maxLat := box[0], box[1], box[2], box[3];
    minLng <= lng <= maxLng && minLat <= lat <= maxLat
  }

  /** The loop of `in_high_risk_zone` over a list of zones. */
  function InZones(zones: seq<Box>, lat: real, lng: real): (r: bool)
    ensures r <==> exists i :: 0 <= i < |zones| && Contains(zones[i], lat, lng)
  {
    if zones == [] then false
    else if Contains(zones[0], lat, lng) then true
    else
      var rest := InZones(zones[1..], lat, lng);
      assert forall i :: 1 <= i < |zones| ==> zones[i] == zones[1..][i - 1];
      rest
  }

  /** `in_high_risk_zone(lat, lng)`: inside the one configured box. */
  function InHighRiskZone(lat: real, lng: real): (r: bool)
    ensures r <==> 91.73 <= lng <= 91.80 && 26.14 <= lat <= 26.20
  {
    InZones(HighRiskZones, lat, lng)
  }

  /** With no zones no point is in a high-risk zone. */
  lemma NoZonesNoRisk(lat: real, lng: real)
    ensures !InZones([], lat, lng)
  {
  }

  /** Edges are inclusive: both corners of a non-empty box are inside it. */
  lemma CornersInside(zones: seq<Box>, i: nat)
    requires i < |zones| && zones[i][0] <= zones[i][2] && zones[i][1] <= zones[i][3]
    ensures InZones(zones, zones[i][1], zones[i][0])
    ensures InZones(zones, zones[i][3], zones[i][2])
  {
    assert Contains(zones[i], zones[i][1], zones[i][0]);
    assert Contains(zones[i], zones[i][3], zones[i][2]);
  }

  /** The configured zone: (26.17, 91.75) is inside, (26.17, 91.70) is west of
      it, and its south-west corner (26.14, 91.73) is on the edge and inside. */
  lemma ConfiguredZone()
    ensures InHighRiskZone(26.17, 91.75)
    ensures !InHighRiskZone(26.17, 91.70)
    ensures InHighRiskZone(26.14, 91.73)
  {
    assert Contains(HighRiskZones[0], 26.17, 91.75);
    assert Contains(HighRiskZones[0], 26.14, 91.73);
  }
}
