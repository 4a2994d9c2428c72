/** What the routing provider is asked for, and whose leg each stored polyline draws. */
module RouteGeometry {
  import opened Ordering
  import opened TravelRules
  import opened Protocols
  import opened RouteOptimizer
  import opened ScheduleBuilder
  import opened ScheduleProperties
  import opened Sequences
  import opened TravelEngine
  import opened TripModel
  import opened TripDrafts
  import opened TripRows
  import opened TripProperties
  import opened TripValidator
  import TravelHops

  function PointOf(s: ScoredPlace): (real, real) {
    (s.place.lat, s.place.lng)
  }

  /** Where one comes from on the way to stop i: the stop before it, or the base. */
  function PointBefore(order: seq<ScoredPlace>, i: nat, world: World): (real, real)
    requires i < |order|
  {
    if i == 0 then (world.baseLat, world.baseLng) else PointOf(order[i - 1])
  }

  /** The waypoints are the base and then the stops, each under its id and at its place. */
  ghost predicate AsksFor(waypoints: seq<Waypoint>, stops: seq<ScoredPlace>, world: World) {
    && |waypoints| == |stops| + 1
    && waypoints[0] == Waypoint(BASE_SENTINEL_ID, world.baseLat, world.baseLng)
    && forall i | 0 <= i < |stops| ::
         && waypoints[i + 1].id == stops[i].place.id
         && waypoints[i + 1].lat == stops[i].place.lat && waypoints[i + 1].lng == stops[i].place.lng
  }

  /** The points run from the base through the stops in order. */
  ghost predicate RunsThrough(points: seq<(real, real)>, order: seq<ScoredPlace>, world: World) {
    && |points| == |order| + 1 && points[0] == (world.baseLat, world.baseLng)
    && forall i | 0 <= i < |order| :: points[i + 1] == PointOf(order[i])
  }

  /** Polyline i draws the leg into stop i, from the point before it to its own. */
  ghost predicate LegsDrawn(polylines: seq<Option<string>>, order: seq<ScoredPlace>, world: World) {
    && |polylines| == |order|
    && forall i | 0 <= i < |order| ::
         polylines[i] == world.routing.routePolyline([PointBefore(order, i, world), PointOf(order[i])])
  }

  lemma LegPolylinesDrawn(order: seq<ScoredPlace>, world: World)
    ensures LegsDrawn(LegPolylines(order, world.baseLat, world.baseLng, world.routing), order, world)
  {
    var points := Coordinates(order, world.baseLat, world.baseLng);
    var polylines := LegPolylines(order, world.baseLat, world.baseLng, world.routing);
    forall i | 0 <= i < |order|
      ensures polylines[i] == world.routing.routePolyline([PointBefore(order, i, world), PointOf(order[i])])
    {
      assert points[i..i + 2] == [PointBefore(order, i, world), PointOf(order[i])];
    }
  }

  lemma {:induction false} LoopDraws(remaining: seq<ScoredPlace>, dropped: seq<DroppedStop>, drops: nat, world: World)
    requires drops <= MAX_ROUTE_DROP_ATTEMPTS
    ensures
      var r := OptimizeFrom(remaining, dropped, drops, world.baseLat, world.baseLng, world.routing);
      && r.legPolylines == LegPolylines(r.ordered, world.baseLat, world.baseLng, world.routing)
      && r.dayPolyline == DayPolyline(r.ordered, world.baseLat, world.baseLng, world.routing)
    decreases MAX_ROUTE_DROP_ATTEMPTS - drops
  {
    hide LegPolylines, DayPolyline, LowestScored, Without, BestOrder, RouteOptimizer.Travel, LegsToLookup, Matrix;
    if drops < MAX_ROUTE_DROP_ATTEMPTS && remaining != [] {
      var victim := LowestScored(remaining);
      LoopDraws(Without(remaining, victim.place.id), dropped + Dropped([victim]), drops + 1, world);
    }
  }

  /**
   * A routed day in the provider's terms. The legs are one matrix over the base and the stops kept; every kept
   * stop has its polyline, drawn from the stop before it or from the base; and the day's polyline runs from the
   * base through all of them in order.
   */
  lemma RouteDrawn(day: seq<ScoredPlace>, world: World)
    returns (kept: seq<ScoredPlace>, waypoints: seq<Waypoint>, points: seq<(real, real)>)
    requires DistinctStops(day) && day != []
    ensures
      var r := OptimizedRoute(day, world.baseLat, world.baseLng, world.routing);
      && multiset(r.ordered) == multiset(kept)
      && AsksFor(waypoints, kept, world) && r.legs == world.routing.travelMatrix(waypoints)
      && LegsDrawn(r.legPolylines, r.ordered, world)
      && RunsThrough(points, r.ordered, world) && r.dayPolyline == world.routing.routePolyline(points)
  {
    hide AscendingLowest, BestTravel, OptimizeFrom, RouteOptimizer.Travel;
    var r := OptimizedRoute(day, world.baseLat, world.baseLng, world.routing);
    var victims;
    victims, kept := OptimizeRouteExact(day, world.baseLat, world.baseLng, world.routing);
    waypoints := WaypointsFor(kept, world.baseLat, world.baseLng);
    points := Coordinates(r.ordered, world.baseLat, world.baseLng);
    LoopDraws(day, [], 0, world);
    LegPolylinesDrawn(r.ordered, world);
  }

  // ----- Which leg a stored polyline draws

  lemma {:induction false} PolylineFound(order: seq<ScoredPlace>, polylines: seq<Option<string>>, i: nat)
    requires DistinctStops(order) && i < |order| <= |polylines|
    ensures
      var found := PolylineByPlace(order, polylines);
      order[i].place.id in found && found[order[i].place.id] == polylines[i]
  {
    if i < |order| - 1 {
      PolylineFound(order[..|order| - 1], polylines, i);
    }
  }

  /** The polyline kept for a place is the one of the leg into it in the order `drawn`. */
  ghost predicate DrawnInto(polyline: Option<string>, id: PlaceId, drawn: seq<ScoredPlace>, world: World) {
    exists k | 0 <= k < |drawn| ::
      && drawn[k].place.id == id
      && polyline == world.routing.routePolyline([PointBefore(drawn, k, world), PointOf(drawn[k])])
  }

  lemma FoundDrawn(order: seq<ScoredPlace>, polylines: seq<Option<string>>, s: ScoredPlace, world: World)
    requires DistinctStops(order) && s in order && LegsDrawn(polylines, order, world)
    ensures s.place.id in PolylineByPlace(order, polylines)
    ensures DrawnInto(PolylineByPlace(order, polylines)[s.place.id], s.place.id, order, world)
  {
    hide PolylineByPlace;
    var i :| 0 <= i < |order| && order[i] == s;
    PolylineFound(order, polylines, i);
  }

  /** The planner's flat stops carry the polyline of the leg into them in the optimizer's order; the day, its own. */
  lemma FlatDrawn(day: nat, r: OptimizeResult, visits: seq<Visit>, i: nat, world: World)
    requires DistinctStops(r.ordered) && LegsDrawn(r.legPolylines, r.ordered, world)
    requires i < |ExtractMorningFirst(r.ordered)| == |visits|
    ensures
      var flat := DayDict(day, r, StampAll(ExtractMorningFirst(r.ordered), visits));
      && DrawnInto(flat.stops[i].legPolyline, flat.stops[i].place.id, r.ordered, world)
      && flat.dayPolyline == r.dayPolyline && flat.day == day
  {
    hide PolylineByPlace, DrawnInto, ExtractMorningFirst;
    var s := ExtractMorningFirst(r.ordered)[i];
    MorningFirstSubset(r.ordered);
    PartMembers(ExtractMorningFirst(r.ordered), r.ordered);
    FoundDrawn(r.ordered, r.legPolylines, s, world);
  }

  /** What a draft schedules comes from the order its polylines were drawn for. */
  ghost predicate DraftDrawn(draft: Draft, world: World) {
    && DistinctStops(draft.ordered) && LegsDrawn(draft.polylines, draft.ordered, world)
    && forall i | 0 <= i < |draft.scheduled| :: ScheduledFrom(draft.scheduled[i], draft.ordered)
  }

  ghost predicate ScheduledFrom(stop: ScheduledStop, order: seq<ScoredPlace>) {
    exists s | s in order :: s.place == stop.place
  }

  lemma StampedFrom(order: seq<ScoredPlace>, visits: seq<Visit>, drawn: seq<ScoredPlace>, i: nat)
    requires i < |order| == |visits| && multiset(order) <= multiset(drawn)
    ensures ScheduledFrom(StampAll(order, visits)[i], drawn)
  {
    PartMembers(order, drawn);
    assert order[i] in drawn;
  }

  lemma FixedDrawn(ids: seq<PlaceId>, env: Env, draft: Draft)
    requires CatalogOk(env.catalog) && AllKnown(ids, env.catalog) && Distinct(ids)
    requires FixedDraft(HydrateAll(ids, env.catalog), env.world) == Success(draft)
    ensures DraftDrawn(draft, env.world) && draft.ordered == HydrateAll(ids, env.catalog)
  {
    hide Schedule, ConsecutiveLegs, LegsToLookup, LegPolylines, DistinctStops, LegsDrawn, ScheduledFrom;
    var places := HydrateAll(ids, env.catalog);
    HydratedDistinct(ids, env.catalog);
    LegPolylinesDrawn(places, env.world);
    if places != [] {
      var visits := ScheduleShape(places, draft.legs, true);
      forall i | 0 <= i < |draft.scheduled| ensures ScheduledFrom(draft.scheduled[i], places) {
        StampedFrom(places, visits, places, i);
      }
    } else {
      NothingDrawn(env.world);
    }
  }

  lemma NothingDrawn(world: World)
    ensures LegsDrawn([], [], world)
  {
  }

  lemma OptimizedDrawn(ids: seq<PlaceId>, env: Env, draft: Draft)
    requires CatalogOk(env.catalog) && AllKnown(ids, env.catalog) && Distinct(ids) && ids != []
    requires OptimizedDraft(HydrateAll(ids, env.catalog), env.world) == Success(draft)
    ensures DraftDrawn(draft, env.world)
    ensures
      var places := HydrateAll(ids, env.catalog);
      && multiset(draft.ordered) == multiset(places)
      && draft.ordered == OptimizedRoute(places, env.world.baseLat, env.world.baseLng, env.world.routing).ordered
  {
    hide Schedule, OptimizedRoute, LegPolylines, LegsDrawn, ScheduledFrom, ExtractMorningFirst, AsksFor, RunsThrough;
    var places, world := HydrateAll(ids, env.catalog), env.world;
    HydratedDistinct(ids, env.catalog);
    NothingDropped(places, world);
    DistinctPermuted(places, draft.ordered);
    var _, _, _ := RouteDrawn(places, world);
    var visits := ScheduleShape(draft.ordered, draft.legs, false);
    MorningFirstSubset(draft.ordered);
    forall i | 0 <= i < |draft.scheduled| ensures ScheduledFrom(draft.scheduled[i], draft.ordered) {
      StampedFrom(ExtractMorningFirst(draft.ordered), visits, draft.ordered, i);
    }
  }

  lemma FreshDrawn(draft: Draft, day: int, world: World, i: nat)
    requires i < |draft.scheduled| && DraftDrawn(draft, world)
    ensures DrawnInto(FreshRow(draft, day, i).polyline, FreshRow(draft, day, i).placeId, draft.ordered, world)
  {
    hide PolylineByPlace, DrawnInto, LegsDrawn, DistinctStops;
    assert ScheduledFrom(draft.scheduled[i], draft.ordered);
    var s :| s in draft.ordered && s.place == draft.scheduled[i].place;
    FoundDrawn(draft.ordered, draft.polylines, s, world);
  }

  /**
   * The polylines an accepted edit stores. Each row's is the one the provider gave for the leg into its place in
   * one order of the places routed: for a reorder the order asked for, which is the day's; for the other edits
   * the optimizer's, from before the morning-only stops are moved to the front.
   */
  lemma EditDrawn(before: Trip, env: Env, user: nat, edit: Edit) returns (drawn: seq<ScoredPlace>)
    requires TripOk(before, env) && ApplyEdit(before, env, user, edit).Success?
    ensures PlacesToRoute(before, env, edit).Success? && AllKnown(PlacesToRoute(before, env, edit).value, env.catalog)
    ensures
      var now := DayRows(ApplyEdit(before, env, user, edit).value.rows, edit.day);
      var places := HydrateAll(PlacesToRoute(before, env, edit).value, env.catalog);
      && (forall i | 0 <= i < |now| :: DrawnInto(now[i].polyline, now[i].placeId, drawn, env.world))
      && multiset(drawn) == multiset(places)
      && (if edit.ReorderStops? then drawn == places && RowIds(now) == Ids(drawn)
          else drawn == OptimizedRoute(places, env.world.baseLat, env.world.baseLng, env.world.routing).ordered)
  {
    hide ApplyEdit, BlockingErrors, FixedDraft, OptimizedDraft, Persisted, DayOf, FromCatalog, RightPlaces,
         RightSchedule, FreshRow, DrawnInto, DraftDrawn;
    var after := ApplyEdit(before, env, user, edit).value;
    var draft := AcceptedDraft(before, env, user, edit);
    drawn := draft.ordered;
    AcceptedDay(before, env, edit, draft, after);
    RoutedPlaces(before, env, edit);
    var ids := PlacesToRoute(before, env, edit).value;
    HydratedDistinct(ids, env.catalog);
    if edit.ReorderStops? {
      FixedDrawn(ids, env, draft);
      DraftIsRight(before, env, edit, draft);
      ReorderKeepsOrder(edit, ids, draft, env);
    } else {
      TravelHops.RightPlacesSome(edit, RowIds(DayRows(before.rows, edit.day)), ids);
      OptimizedDrawn(ids, env, draft);
    }
    var now := FreshRows(draft, edit.day);
    forall i | 0 <= i < |now| ensures DrawnInto(now[i].polyline, now[i].placeId, drawn, env.world) {
      FreshDrawn(draft, edit.day, env.world, i);
    }
  }

  lemma ReorderKeepsOrder(edit: Edit, ids: seq<PlaceId>, draft: Draft, env: Env)
    requires edit.ReorderStops? && RightSchedule(true, ids, draft.scheduled, env.catalog)
    ensures StopIds(draft.scheduled) == ids
  {
  }

  // ----- When the leg drawn is the leg travelled

  /** Every stop's polyline draws the leg by which `order` really reaches it. */
  ghost predicate DrawnAsTravelled(order: seq<ScoredPlace>, drawn: seq<ScoredPlace>) {
    forall i, k | 0 <= i < |order| && 0 <= k < |drawn| && order[i].place.id == drawn[k].place.id ::
      IdBefore(order, i) == IdBefore(drawn, k)
  }

  lemma {:induction false} TravelledPrefix(order: seq<ScoredPlace>, drawn: seq<ScoredPlace>, n: nat)
    requires DistinctStops(drawn) && multiset(order) <= multiset(drawn) && DrawnAsTravelled(order, drawn)
    requires n <= |order|
    ensures n <= |drawn| && order[..n] == drawn[..n]
  {
    if n > 0 {
      TravelledPrefix(order, drawn, n - 1);
      PartMembers(order, drawn);
      assert order[n - 1] in drawn;
      var k :| 0 <= k < |drawn| && drawn[k] == order[n - 1];
      assert IdBefore(order, n - 1) == IdBefore(drawn, k);
      if n > 1 {
        assert order[n - 2] == order[..n - 1][n - 2] == drawn[n - 2];
      }
      assert k == n - 1;
    }
  }

  /** The drawn legs are the travelled ones exactly when the day keeps the optimizer's order. */
  lemma DrawnAsTravelledIff(order: seq<ScoredPlace>, drawn: seq<ScoredPlace>)
    requires DistinctStops(drawn) && multiset(order) <= multiset(drawn)
    ensures DrawnAsTravelled(order, drawn) <==> order <= drawn
  {
    if DrawnAsTravelled(order, drawn) {
      TravelledPrefix(order, drawn, |order|);
      assert order == order[..|order|];
    }
  }

  /**
   * With at most two morning-only stops, as every stored day has: the polylines draw the legs travelled exactly
   * when no morning-only stop comes after another kind of stop in the optimizer's order.
   */
  lemma MapShowsTravelIff(drawn: seq<ScoredPlace>)
    requires DistinctStops(drawn) && |Filter(IsMorning, drawn)| <= 2
    ensures DrawnAsTravelled(ExtractMorningFirst(drawn), drawn)
       <==> forall i, j | 0 <= i < j < |drawn| :: IsMorning(drawn[j]) ==> IsMorning(drawn[i])
  {
    hide ExtractMorningFirst, DrawnAsTravelled;
    var order := ExtractMorningFirst(drawn);
    MorningFirstKeepsAll(drawn);
    DrawnAsTravelledIff(order, drawn);
    if order <= drawn {
      assert order == drawn;
      forall i, j | 0 <= i < j < |drawn| ensures IsMorning(drawn[j]) ==> IsMorning(drawn[i]) {
        MorningFirstShape(drawn, i);
        MorningFirstShape(drawn, j);
      }
    }
    if forall i, j | 0 <= i < j < |drawn| :: IsMorning(drawn[j]) ==> IsMorning(drawn[i]) {
      AlreadyFirst(drawn);
    }
  }

  /** A museum and then a viewpoint: the viewpoint is visited first, from the base, but drawn from the museum. */
  lemma MapMissesTravel()
    ensures
      var museum := ScoredPlace(PlaceCandidate(1, "museum", Museum, 27.1, 88.1), 0.9);
      var viewpoint := ScoredPlace(PlaceCandidate(2, "viewpoint", Viewpoint, 27.2, 88.2), 0.8);
      && ExtractMorningFirst([museum, viewpoint]) == [viewpoint, museum]
      && !DrawnAsTravelled(ExtractMorningFirst([museum, viewpoint]), [museum, viewpoint])
  {
    var museum := ScoredPlace(PlaceCandidate(1, "museum", Museum, 27.1, 88.1), 0.9);
    var viewpoint := ScoredPlace(PlaceCandidate(2, "viewpoint", Viewpoint, 27.2, 88.2), 0.8);
    var drawn := [museum, viewpoint];
    FilterAll(IsMorning, [viewpoint]);
    FilterNone(IsOther, [viewpoint]);
    FilterCons(IsMorning, museum, [viewpoint]);
    FilterCons(IsOther, museum, [viewpoint]);
    assert drawn == [museum] + [viewpoint];
    MapShowsTravelIff(drawn);
    assert IsMorning(drawn[1]) && !IsMorning(drawn[0]);
  }

  lemma AlreadyFirst(stops: seq<ScoredPlace>)
    requires |Filter(IsMorning, stops)| <= 2
    requires forall i, j | 0 <= i < j < |stops| :: IsMorning(stops[j]) ==> IsMorning(stops[i])
    ensures ExtractMorningFirst(stops) == stops
  {
    MorningThenOthers(stops);
    var morning := Filter(IsMorning, stops);
    assert morning[..|morning|] == morning;
  }

  lemma {:induction false} MorningThenOthers(stops: seq<ScoredPlace>)
    requires forall i, j | 0 <= i < j < |stops| :: IsMorning(stops[j]) ==> IsMorning(stops[i])
    ensures Filter(IsMorning, stops) + Filter(IsOther, stops) == stops
  {
    if stops != [] && IsMorning(stops[0]) {
      MorningThenOthers(stops[1..]);
      var morning, others := Filter(IsMorning, stops[1..]), Filter(IsOther, stops[1..]);
      assert [stops[0]] + morning + others == [stops[0]] + (morning + others);
    } else {
      forall x | x in stops ensures IsOther(x) && !IsMorning(x) {
        var i :| 0 <= i < |stops| && stops[i] == x;
      }
      FilterAll(IsOther, stops);
      FilterNone(IsMorning, stops);
    }
  }
}
