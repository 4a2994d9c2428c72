/** Travel on a timed day, leg by leg. */
module TravelHops {
  import opened Ordering
  import opened Sequences
  import opened TravelRules
  import opened Protocols
  import opened RouteOptimizer
  import opened ScheduleBuilder
  import opened TripValidator
  import opened TravelEngine
  import opened TripModel
  import opened TripDrafts
  import opened TripRows
  import opened TripProperties
  import opened TripRuns

  // ----- One order of stops

  lemma {:induction false} ChainSums(order: seq<ScoredPlace>, lookup: Lookup, i: nat)
    requires i < |order| && HopsKnown(order, lookup)
    ensures ChainTravel(RequiredHops(order)[i].0, order[i..], lookup) == Sum(HopMinutes(order, lookup)[i..])
    decreases |order| - i
  {
    var minutes := HopMinutes(order, lookup);
    assert RequiredHops(order)[i] in lookup;
    assert order[i..][0] == order[i] && order[i..][1..] == order[i + 1..] && minutes[i..][1..] == minutes[i + 1..];
    if i + 1 < |order| {
      ChainSums(order, lookup, i + 1);
    } else {
      assert minutes[i + 1..] == [] && order[i + 1..] == [];
    }
  }

  /** The optimizer's travel of an order is the sum of the durations of its legs. */
  lemma TravelSumsLegs(order: seq<ScoredPlace>, lookup: Lookup)
    requires HopsKnown(order, lookup)
    ensures RouteOptimizer.Travel(order, lookup) == Sum(HopMinutes(order, lookup))
  {
    if order != [] {
      ChainSums(order, lookup, 0);
      assert order[0..] == order && HopMinutes(order, lookup)[0..] == HopMinutes(order, lookup);
    } else {
      assert HopMinutes(order, lookup) == [];
    }
  }

  /** A missing leg costs more than any day: it is used only when every order lacks some leg. */
  lemma {:induction false} MissingLegCosts(from: PlaceId, order: seq<ScoredPlace>, lookup: Lookup, i: nat)
    requires i < |order| && forall hop | hop in lookup :: lookup[hop].durationMin >= 0
    requires (if i == 0 then from else order[i - 1].place.id, order[i].place.id) !in lookup
    ensures ChainTravel(from, order, lookup) >= 1_000_000_000
    decreases |order|
  {
    if i == 0 {
      ChainNonNegative(order[0].place.id, order[1..], lookup);
    } else {
      MissingLegCosts(order[0].place.id, order[1..], lookup, i - 1);
    }
  }

  lemma {:induction false} ChainNonNegative(from: PlaceId, order: seq<ScoredPlace>, lookup: Lookup)
    requires forall hop | hop in lookup :: lookup[hop].durationMin >= 0
    ensures ChainTravel(from, order, lookup) >= 0
    decreases |order|
  {
    if order != [] {
      ChainNonNegative(order[0].place.id, order[1..], lookup);
    }
  }

  /** If some arrangement has all its legs, within any humanly possible travel, so has the best one. */
  lemma BestOrderAvoidsGaps(stops: seq<ScoredPlace>, lookup: Lookup, p: seq<ScoredPlace>)
    requires multiset(p) == multiset(stops) && HopsKnown(p, lookup)
    requires forall hop | hop in lookup :: lookup[hop].durationMin >= 0
    requires Sum(HopMinutes(p, lookup)) < 1_000_000_000
    ensures HopsKnown(BestOrder(stops, lookup), lookup)
  {
    hide BestOrder;
    var best := BestOrder(stops, lookup);
    BestOrderOptimal(stops, lookup, p);
    TravelSumsLegs(p, lookup);
    forall i | 0 <= i < |best| ensures RequiredHops(best)[i] in lookup {
      if RequiredHops(best)[i] !in lookup {
        MissingLegCosts(BASE_SENTINEL_ID, best, lookup, i);
      }
    }
  }

  // ----- A scheduled day

  lemma {:induction false} TravelIntoSums(order: seq<ScoredPlace>, visits: seq<Visit>, lookup: Lookup, n: nat)
    requires n <= |order| == |visits| && HopsKnown(order, lookup)
    ensures TravelInto(StampAll(order, visits), lookup, n) == Sum(HopMinutes(order, lookup)[..n])
  {
    hide StampAll, HopTravelMin, HopsKnown, PreviousId;
    if n > 0 {
      var minutes := HopMinutes(order, lookup);
      TravelIntoSums(order, visits, lookup, n - 1);
      assert minutes[..n] == minutes[..n - 1] + [minutes[n - 1]];
      SumAppend(minutes[..n - 1], [minutes[n - 1]]);
      HopInto(order, visits, lookup, n - 1);
    }
  }

  lemma HopInto(order: seq<ScoredPlace>, visits: seq<Visit>, lookup: Lookup, i: nat)
    requires i < |order| == |visits| && HopsKnown(order, lookup)
    ensures
      var scheduled := StampAll(order, visits);
      HopTravelMin(lookup, PreviousId(scheduled, i), scheduled[i].place.id) == HopMinutes(order, lookup)[i]
  {
    assert RequiredHops(order)[i] in lookup;
  }

  /** The plan of a timed day travels exactly the legs between its stops, the first one from the base. */
  lemma PlanTravel(order: seq<ScoredPlace>, visits: seq<Visit>, legs: seq<RouteLeg>)
    requires |order| == |visits| && HopsKnown(order, LegsToLookup(legs))
    ensures PlanFromScheduled(StampAll(order, visits), legs).totalTravelMin
         == RouteOptimizer.Travel(order, LegsToLookup(legs))
  {
    var lookup := LegsToLookup(legs);
    TravelIntoSums(order, visits, lookup, |order|);
    TravelSumsLegs(order, lookup);
    assert HopMinutes(order, lookup)[..|order|] == HopMinutes(order, lookup);
  }

  lemma FlatHop(scheduled: seq<ScheduledStop>, lookup: Lookup, polylines: map<PlaceId, Option<string>>, i: nat)
    requires i < |scheduled| && (PreviousId(scheduled, i), scheduled[i].place.id) in lookup
    ensures
      var stop := FlatStops(scheduled, lookup, polylines)[i];
      && stop.place == scheduled[i].place && stop.order == i + 1
      && stop.travelTimeMin == lookup[(PreviousId(scheduled, i), scheduled[i].place.id)].durationMin
  {
  }

  /** The flat stops the planner stores carry the duration of the leg into each of them. */
  lemma FlatHops(order: seq<ScoredPlace>, visits: seq<Visit>, lookup: Lookup, polylines: map<PlaceId, Option<string>>,
                 i: nat)
    requires i < |order| == |visits| && HopsKnown(order, lookup)
    ensures
      var hop := (if i == 0 then BASE_SENTINEL_ID else order[i - 1].place.id, order[i].place.id);
      var stop := FlatStops(StampAll(order, visits), lookup, polylines)[i];
      && stop.place == order[i].place && stop.order == i + 1
      && hop in lookup && stop.travelTimeMin == lookup[hop].durationMin
  {
    hide FlatStops;
    assert RequiredHops(order)[i] in lookup;
    FlatHop(StampAll(order, visits), lookup, polylines, i);
  }

  /** The planner's day total is the sum of its stops' legs whenever the morning reorder leaves the order alone. */
  lemma PlannerTotal(day: nat, r: OptimizeResult, visits: seq<Visit>)
    requires ExtractMorningFirst(r.ordered) == r.ordered && |visits| == |r.ordered|
    requires HopsKnown(r.ordered, LegsToLookup(r.legs))
    requires r.totalTravelMin == RouteOptimizer.Travel(r.ordered, LegsToLookup(r.legs))
    ensures DayDict(day, r, StampAll(r.ordered, visits)).totalTravelMin
         == Sum(HopMinutes(r.ordered, LegsToLookup(r.legs)))
  {
    TravelSumsLegs(r.ordered, LegsToLookup(r.legs));
  }

  // ----- An edited day

  /** The legs an edit asks the provider for: between the base and the places it routes. */
  function EditLookup(before: Trip, env: Env, edit: Edit): Lookup
    requires KnownPlaces(before.rows, env.catalog) && PlacesToRoute(before, env, edit).Success?
  {
    PlacesToRouteKnown(before, env, edit);
    var places := HydrateAll(PlacesToRoute(before, env, edit).value, env.catalog);
    LegsToLookup(env.world.routing.travelMatrix(WaypointsFor(places, env.world.baseLat, env.world.baseLng)))
  }

  /** Two lookups that agree on the legs of an order give it the same durations. */
  ghost predicate SameLegs(order: seq<ScoredPlace>, a: Lookup, b: Lookup) {
    forall i | 0 <= i < |order| ::
      && RequiredHops(order)[i] in a && RequiredHops(order)[i] in b
      && a[RequiredHops(order)[i]].durationMin == b[RequiredHops(order)[i]].durationMin
  }

  lemma {:induction false} ConsecutiveLegsAre(order: seq<ScoredPlace>, lookup: Lookup, n: nat)
    requires n <= |order| && ConsecutiveLegs(order, lookup, n).Some?
    ensures |ConsecutiveLegs(order, lookup, n).value| == n
    ensures forall i | 0 <= i < n ::
              && RequiredHops(order)[i] in lookup
              && ConsecutiveLegs(order, lookup, n).value[i] == lookup[RequiredHops(order)[i]]
  {
    hide RequiredHops;
    if n > 0 {
      ConsecutiveLegsAre(order, lookup, n - 1);
    }
  }

  /** A leg whose pair no later leg has is the one looked up. */
  lemma {:induction false} LegFound(legs: seq<RouteLeg>, i: nat)
    requires i < |legs|
    requires forall j | i < j < |legs| :: (legs[j].fromId, legs[j].toId) != (legs[i].fromId, legs[i].toId)
    ensures
      var pair := (legs[i].fromId, legs[i].toId);
      pair in LegsToLookup(legs) && LegsToLookup(legs)[pair] == legs[i]
  {
    if i < |legs| - 1 {
      LegFound(legs[..|legs| - 1], i);
    }
  }

  lemma FixedLegs(order: seq<ScoredPlace>, matrix: seq<RouteLeg>)
    requires DistinctStops(order) && ConsecutiveLegs(order, LegsToLookup(matrix), |order|).Some?
    ensures
      var lookup := LegsToLookup(matrix);
      SameLegs(order, LegsToLookup(ConsecutiveLegs(order, lookup, |order|).value), lookup)
  {
    hide LegsToLookup, ConsecutiveLegs;
    var lookup := LegsToLookup(matrix);
    var legs := ConsecutiveLegs(order, lookup, |order|).value;
    ConsecutiveLegsAre(order, lookup, |order|);
    LookupHolds(matrix);
    forall i | 0 <= i < |order|
      ensures RequiredHops(order)[i] in LegsToLookup(legs)
      ensures RequiredHops(order)[i] in lookup
      ensures LegsToLookup(legs)[RequiredHops(order)[i]] == lookup[RequiredHops(order)[i]]
    {
      forall j | 0 <= j < |legs| ensures (legs[j].fromId, legs[j].toId) == RequiredHops(order)[j] {
        assert RequiredHops(order)[j] in lookup;
      }
      LegFound(legs, i);
    }
  }

  /** What an edit's draft schedules: an order of catalog places, along legs the provider gave. */
  ghost predicate AlongLegs(order: seq<ScoredPlace>, visits: seq<Visit>, draft: Draft, lookup: Lookup,
                            catalog: map<PlaceId, CatalogPlace>) {
    && |visits| == |order| && draft.scheduled == StampAll(order, visits)
    && SameLegs(order, LegsToLookup(draft.legs), lookup)
    && AllKnown(Ids(order), catalog) && order == HydrateAll(Ids(order), catalog)
  }

  lemma ScheduledHopsKnown(stops: seq<ScoredPlace>, legs: seq<RouteLeg>, preserve: bool)
    requires Schedule(stops, legs, preserve).Success?
    ensures HopsKnown(if preserve then stops else ExtractMorningFirst(stops), LegsToLookup(legs))
  {
    var order := if preserve then stops else ExtractMorningFirst(stops);
    if stops == [] {
      assert ExtractMorningFirst(stops) == [];
    } else {
      NoneMissing(RequiredHops(order), LegsToLookup(legs));
    }
  }

  lemma FromHydrated(order: seq<ScoredPlace>, ids: seq<PlaceId>, catalog: map<PlaceId, CatalogPlace>)
    requires CatalogOk(catalog) && AllKnown(ids, catalog) && multiset(order) <= multiset(HydrateAll(ids, catalog))
    ensures AllKnown(Ids(order), catalog) && order == HydrateAll(Ids(order), catalog)
  {
    forall i | 0 <= i < |order|
      ensures order[i].place.id in catalog && order[i] == Hydrate(order[i].place.id, catalog)
    {
      assert order[i] in multiset(order) && order[i] in multiset(HydrateAll(ids, catalog));
      var j :| 0 <= j < |ids| && HydrateAll(ids, catalog)[j] == order[i];
    }
  }

  lemma FixedAlongLegs(ids: seq<PlaceId>, env: Env, draft: Draft) returns (visits: seq<Visit>)
    requires CatalogOk(env.catalog) && AllKnown(ids, env.catalog) && Distinct(ids)
    requires FixedDraft(HydrateAll(ids, env.catalog), env.world) == Success(draft)
    ensures
      var places := HydrateAll(ids, env.catalog);
      var matrix := env.world.routing.travelMatrix(WaypointsFor(places, env.world.baseLat, env.world.baseLng));
      AlongLegs(places, visits, draft, LegsToLookup(matrix), env.catalog)
  {
    hide Schedule, ConsecutiveLegs, LegsToLookup, DistinctStops;
    var places := HydrateAll(ids, env.catalog);
    var matrix := env.world.routing.travelMatrix(WaypointsFor(places, env.world.baseLat, env.world.baseLng));
    HydratedDistinct(ids, env.catalog);
    FromHydrated(places, ids, env.catalog);
    if places == [] {
      visits := [];
      assert StampAll(places, visits) == [];
    } else {
      FixedLegs(places, matrix);
      visits := ScheduleShape(places, draft.legs, true);
    }
  }

  lemma OptimizedAlongLegs(ids: seq<PlaceId>, env: Env, draft: Draft) returns (visits: seq<Visit>)
    requires CatalogOk(env.catalog) && AllKnown(ids, env.catalog) && Distinct(ids)
    requires OptimizedDraft(HydrateAll(ids, env.catalog), env.world) == Success(draft) && ids != []
    ensures
      var places := HydrateAll(ids, env.catalog);
      var matrix := env.world.routing.travelMatrix(WaypointsFor(places, env.world.baseLat, env.world.baseLng));
      AlongLegs(ExtractMorningFirst(draft.ordered), visits, draft, LegsToLookup(matrix), env.catalog)
  {
    hide Schedule, OptimizedRoute, LegsToLookup, ExtractMorningFirst, DistinctStops, AscendingLowest, OptimalOrder;
    var places, world := HydrateAll(ids, env.catalog), env.world;
    HydratedDistinct(ids, env.catalog);
    var victims, kept := OptimizeRouteExact(places, world.baseLat, world.baseLng, world.routing);
    NothingDropped(places, world);
    assert |Dropped(victims)| == |victims| == 0;
    assert kept == places;
    visits := ScheduleShape(draft.ordered, draft.legs, false);
    ScheduledHopsKnown(draft.ordered, draft.legs, false);
    ScheduleProperties.MorningFirstSubset(draft.ordered);
    FromHydrated(ExtractMorningFirst(draft.ordered), ids, env.catalog);
  }

  lemma DraftAlongLegs(before: Trip, env: Env, edit: Edit, draft: Draft)
    returns (order: seq<ScoredPlace>, visits: seq<Visit>)
    requires TripOk(before, env) && DraftFor(before, env, edit) == Success(draft)
    ensures PlacesToRoute(before, env, edit).Success?
    ensures AlongLegs(order, visits, draft, EditLookup(before, env, edit), env.catalog)
  {
    hide FixedDraft, OptimizedDraft, AlongLegs, RightPlaces;
    RoutedPlaces(before, env, edit);
    var ids := PlacesToRoute(before, env, edit).value;
    if edit.ReorderStops? {
      order := HydrateAll(ids, env.catalog);
      visits := FixedAlongLegs(ids, env, draft);
    } else {
      order := ExtractMorningFirst(draft.ordered);
      assert ids != [] by { RightPlacesSome(edit, RowIds(DayRows(before.rows, edit.day)), ids); }
      visits := OptimizedAlongLegs(ids, env, draft);
    }
  }

  lemma RightPlacesSome(edit: Edit, current: seq<PlaceId>, ids: seq<PlaceId>)
    requires RightPlaces(edit, current, ids) && !edit.ReorderStops?
    ensures ids != []
  {
    if edit.AddOne? {
      assert edit.placeId in multiset(ids);
    }
  }

  // ----- What an accepted edit stores

  /** Every row carries the duration of the leg from the place before it, or from the base. */
  ghost predicate LegByLeg(dayRows: seq<Row>, lookup: Lookup) {
    forall i | 0 <= i < |dayRows| :: LegInto(dayRows, lookup, i)
  }

  predicate LegInto(dayRows: seq<Row>, lookup: Lookup, i: nat)
    requires i < |dayRows|
  {
    var hop := (if i == 0 then BASE_SENTINEL_ID else dayRows[i - 1].placeId, dayRows[i].placeId);
    hop in lookup && dayRows[i].travelTimeMin == lookup[hop].durationMin
  }

  lemma FreshLegByLeg(order: seq<ScoredPlace>, visits: seq<Visit>, draft: Draft, day: int, lookup: Lookup,
                      catalog: map<PlaceId, CatalogPlace>)
    requires AlongLegs(order, visits, draft, lookup, catalog)
    ensures LegByLeg(FreshRows(draft, day), lookup)
  {
    hide LegsToLookup, SameLegs, PolylineByPlace;
    var rows := FreshRows(draft, day);
    forall i | 0 <= i < |rows| ensures LegInto(rows, lookup, i) {
      SameLeg(order, LegsToLookup(draft.legs), lookup, i);
      assert rows[i].travelTimeMin
          == HopTravelMin(LegsToLookup(draft.legs), PreviousId(draft.scheduled, i), draft.scheduled[i].place.id);
    }
  }

  lemma SameLeg(order: seq<ScoredPlace>, a: Lookup, b: Lookup, i: nat)
    requires i < |order| && SameLegs(order, a, b)
    ensures
      var hop := (if i == 0 then BASE_SENTINEL_ID else order[i - 1].place.id, order[i].place.id);
      hop in a && hop in b && a[hop].durationMin == b[hop].durationMin
  {
    assert RequiredHops(order)[i] in a;
  }

  lemma SameTravel(order: seq<ScoredPlace>, a: Lookup, b: Lookup)
    requires SameLegs(order, a, b)
    ensures HopsKnown(order, a) && HopsKnown(order, b)
    ensures RouteOptimizer.Travel(order, a) == RouteOptimizer.Travel(order, b)
  {
    forall i | 0 <= i < |order| ensures RequiredHops(order)[i] in a && RequiredHops(order)[i] in b {
    }
    TravelSumsLegs(order, a);
    TravelSumsLegs(order, b);
    assert HopMinutes(order, a) == HopMinutes(order, b);
  }

  /** An accepted plan is within the travel cap. */
  lemma AcceptedWithinCap(rows: seq<Row>, day: int, plan: DayPlan, editType: EditType, env: Env)
    requires KnownPlaces(rows, env.catalog) && BlockingErrors(rows, day, plan, editType, env) == Some([])
    ensures plan.totalTravelMin <= 180
  {
    hide Validation, PlanFromStored;
    var plans := EditedPlans(rows, day, plan, env.catalog);
    var days := InsertDay(day, DaysPresent(rows));
    DaysPresentIs(rows);
    InsertDayAscending(day, DaysPresent(rows));
    assert day in days;
    var i :| 0 <= i < |days| && days[i] == day;
    assert plans[i] == plan;
    ReportedIffHolds(plans, env.world.spread, TravelCapExceeded(i));
    FilterMembers(IsHardError, Validation(plans, env.world.spread).value.errors, TravelCapExceeded(i));
  }

  /**
   * The travel of an edited day is real. Each of its rows carries the duration the provider gave for the leg
   * from the place before it, or from the base; their sum is the optimizer's travel of the day's order; and it
   * is at most 180 minutes, whatever the edit.
   */
  lemma EditTravel(before: Trip, env: Env, user: nat, edit: Edit)
    requires TripOk(before, env) && ApplyEdit(before, env, user, edit).Success?
    ensures PlacesToRoute(before, env, edit).Success?
    ensures
      var now := DayRows(ApplyEdit(before, env, user, edit).value.rows, edit.day);
      var lookup := EditLookup(before, env, edit);
      && LegByLeg(now, lookup)
      && AllKnown(RowIds(now), env.catalog)
      && StoredTravel(now, |now|) == RouteOptimizer.Travel(HydrateAll(RowIds(now), env.catalog), lookup) <= 180
  {
    hide ApplyEdit, BlockingErrors, DraftFor, Persisted, DayOf, FromCatalog, EditLookup, AlongLegs, Accepted;
    var after := ApplyEdit(before, env, user, edit).value;
    var draft := AcceptedDraft(before, env, user, edit);
    AcceptedParts(before, env, edit, draft, after);
    AcceptedDay(before, env, edit, draft, after);
    var order, visits := DraftAlongLegs(before, env, edit, draft);
    var lookup := EditLookup(before, env, edit);
    FreshLegByLeg(order, visits, draft, edit.day, lookup, env.catalog);
    FreshTravel(order, visits, draft, edit.day, lookup, env.catalog);
    AcceptedWithinCap(before.rows, edit.day, PlanFromScheduled(draft.scheduled, draft.legs), TypeOf(edit), env);
  }

  lemma AcceptedParts(before: Trip, env: Env, edit: Edit, draft: Draft, after: Trip)
    requires KnownPlaces(before.rows, env.catalog) && Accepted(before, env, edit, draft, after)
    ensures DraftFor(before, env, edit) == Success(draft)
    ensures BlockingErrors(before.rows, edit.day, PlanFromScheduled(draft.scheduled, draft.legs), TypeOf(edit), env)
         == Some([])
  {
  }

  lemma FreshTravel(order: seq<ScoredPlace>, visits: seq<Visit>, draft: Draft, day: int, lookup: Lookup,
                    catalog: map<PlaceId, CatalogPlace>)
    requires AlongLegs(order, visits, draft, lookup, catalog)
    ensures
      var rows := FreshRows(draft, day);
      && AllKnown(RowIds(rows), catalog) && HydrateAll(RowIds(rows), catalog) == order
      && StoredTravel(rows, |rows|) == RouteOptimizer.Travel(order, lookup)
      && StoredTravel(rows, |rows|) == PlanFromScheduled(draft.scheduled, draft.legs).totalTravelMin
  {
    hide LegsToLookup;
    assert RowIds(FreshRows(draft, day)) == Ids(order);
    StoredTravelMatches(draft, day, |draft.scheduled|);
    SameTravel(order, LegsToLookup(draft.legs), lookup);
    PlanTravel(order, visits, draft.legs);
  }

  /** Over any run, a day within the travel cap stays within it, and every edited day is. */
  lemma {:induction false} RunWithinCap(trip: Trip, env: Env, requests: seq<Request>, day: int)
    requires TripOk(trip, env)
    ensures
      var first, last := DayRows(trip.rows, day), DayRows(RunEdits(trip, env, requests).rows, day);
      StoredTravel(first, |first|) <= 180 || Edited(trip, env, requests, day) ==> StoredTravel(last, |last|) <= 180
  {
    hide ApplyEdit, TripOk, DayRows, EditLookup, LegByLeg;
    if requests != [] {
      var front, request := requests[..|requests| - 1], requests[|requests| - 1];
      RunWithinCap(trip, env, front, day);
      if LastAccepted(trip, env, requests) {
        var before := RunEdits(trip, env, front);
        EditIsAudited(before, env, request.user, request.edit);
        EditTravel(before, env, request.user, request.edit);
      }
    }
  }
}
