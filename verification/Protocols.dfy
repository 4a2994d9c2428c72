/** The routing provider's surface: legs, their lookup table, and what a provider promises. */
module Protocols {
  import opened Ordering
  import opened TravelRules

  datatype RouteLeg = RouteLeg(fromId: PlaceId, toId: PlaceId, durationMin: int, distanceKm: real, usedFallback: bool)

  datatype Waypoint = Waypoint(id: PlaceId, lat: real, lng: real)

  type Lookup = map<(PlaceId, PlaceId), RouteLeg>

  /** An injected provider: the two calls the engine makes, as total functions of their waypoints. */
  datatype Routing = Routing(travelMatrix: seq<Waypoint> -> seq<RouteLeg>,
                             routePolyline: seq<(real, real)> -> Option<string>)

  /** Index legs by (from, to); the last leg of a pair wins. */
  function LegsToLookup(legs: seq<RouteLeg>): Lookup {
    if legs == [] then map[]
    else
      var last := legs[|legs| - 1];
      LegsToLookup(legs[..|legs| - 1])[(last.fromId, last.toId) := last]
  }

  function WaypointsFor(stops: seq<ScoredPlace>, baseLat: real, baseLng: real): seq<Waypoint> {
    [Waypoint(BASE_SENTINEL_ID, baseLat, baseLng)]
    + seq(|stops|, i requires 0 <= i < |stops| => Waypoint(stops[i].place.id, stops[i].place.lat, stops[i].place.lng))
  }

  /** The provider contract: a directed leg for every ordered pair of waypoints, never negative. */
  ghost predicate FullMatrix(waypoints: seq<Waypoint>, legs: seq<RouteLeg>) {
    && (forall i, j | 0 <= i < |waypoints| && 0 <= j < |waypoints| && i != j ::
          (waypoints[i].id, waypoints[j].id) in LegsToLookup(legs))
    && (forall k | 0 <= k < |legs| :: legs[k].durationMin >= 0)
  }

  ghost predicate HonestProvider(routing: Routing) {
    forall waypoints :: FullMatrix(waypoints, routing.travelMatrix(waypoints))
  }

  lemma {:induction false} LookupHolds(legs: seq<RouteLeg>)
    ensures |LegsToLookup(legs)| <= |legs|
    ensures forall p | p in LegsToLookup(legs) ::
              LegsToLookup(legs)[p] in legs && p == (LegsToLookup(legs)[p].fromId, LegsToLookup(legs)[p].toId)
  {
    if legs != [] {
      var front := legs[..|legs| - 1];
      LookupHolds(front);
      assert legs == front + [legs[|legs| - 1]];
    }
  }

  /** A full matrix has at least one leg per stop, so the schedule builder's length test passes. */
  lemma FullMatrixLongEnough(stops: seq<ScoredPlace>, baseLat: real, baseLng: real, legs: seq<RouteLeg>)
    requires DistinctStops(stops)
    requires FullMatrix(WaypointsFor(stops, baseLat, baseLng), legs)
    ensures |legs| >= |stops|
  {
    var lookup := LegsToLookup(legs);
    var w := WaypointsFor(stops, baseLat, baseLng);
    LookupHolds(legs);
    forall i | 0 <= i < |stops| ensures (BASE_SENTINEL_ID, stops[i].place.id) in lookup.Keys {
      assert w[0].id == BASE_SENTINEL_ID && w[i + 1].id == stops[i].place.id;
    }
    BaseHops(stops, lookup.Keys);
  }

  lemma {:induction false} BaseHops(stops: seq<ScoredPlace>, pairs: set<(PlaceId, PlaceId)>)
    requires DistinctStops(stops)
    requires forall i | 0 <= i < |stops| :: (BASE_SENTINEL_ID, stops[i].place.id) in pairs
    ensures |stops| <= |pairs|
  {
    if stops != [] {
      var n := |stops| - 1;
      var last := (BASE_SENTINEL_ID, stops[n].place.id);
      BaseHops(stops[..n], pairs - {last});
      assert |pairs - {last}| == |pairs| - 1;
    }
  }
}
