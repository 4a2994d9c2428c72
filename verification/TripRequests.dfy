/** When an edit request is accepted, and what the audit log then says. */
module TripRequests {
  import opened Ordering
  import opened Sequences
  import opened TravelRules
  import opened Protocols
  import opened RouteOptimizer
  import opened WallClock
  import opened ScheduleBuilder
  import opened ScheduleProperties
  import opened TripValidator
  import opened EngineProperties
  import opened TripModel
  import opened TripRows
  import opened TripDrafts
  import opened TripProperties
  import opened TripRuns
  import TravelHops

  // ----- Before routing

  ghost predicate HasStop(rows: seq<Row>, day: int, id: PlaceId) {
    exists r | r in rows :: r.day == day && r.placeId == id
  }

  ghost predicate HasAnother(rows: seq<Row>, day: int, id: PlaceId) {
    exists r | r in rows :: r.day == day && r.placeId != id
  }

  /** What each request asks of the stored trip and the catalog. */
  ghost predicate Allowed(trip: Trip, env: Env, edit: Edit) {
    match edit
    case ReorderStops(day, ids) => multiset(ids) == multiset(DayIds(trip.rows, day))
    case RemoveOne(day, id) => HasStop(trip.rows, day, id) && HasAnother(trip.rows, day, id)
    case AddOne(_, id) =>
      && id in env.catalog && env.catalog[id].destinationId == trip.destinationId
      && forall r | r in trip.rows :: r.placeId != id
    case Reoptimize(day) => exists r | r in trip.rows :: r.day == day
  }

  /** The error of a request that is not allowed. */
  ghost function Reason(trip: Trip, env: Env, edit: Edit): EditError {
    match edit
    case ReorderStops(_, _) => NotAPermutation
    case RemoveOne(day, id) => if HasStop(trip.rows, day, id) then DayWouldBeEmpty else StopNotFound
    case AddOne(_, id) =>
      if id !in env.catalog then PlaceNotFound
      else if env.catalog[id].destinationId != trip.destinationId then WrongDestination
      else StopConflict
    case Reoptimize(_) => NothingToReoptimize
  }

  lemma OnDayIff(rows: seq<Row>, day: int, id: PlaceId)
    ensures id in DayIds(rows, day) <==> HasStop(rows, day, id)
  {
    if id in DayIds(rows, day) {
      var r := RowOfId(DayRows(rows, day), id);
      DayRowsMember(rows, day, r);
    }
    if HasStop(rows, day, id) {
      var r :| r in rows && r.day == day && r.placeId == id;
      DayRowsMember(rows, day, r);
      InRowIds(DayRows(rows, day), r);
    }
  }

  lemma AnotherIff(rows: seq<Row>, day: int, id: PlaceId)
    requires UniquePlaces(rows) && HasStop(rows, day, id)
    ensures HasAnother(rows, day, id) <==> |DayIds(rows, day)| != 1
  {
    hide DayRows;
    var ids := DayIds(rows, day);
    OnDayIff(rows, day, id);
    CurrentDistinct(rows, day);
    if HasAnother(rows, day, id) {
      var r :| r in rows && r.day == day && r.placeId != id;
      OnDayIff(rows, day, r.placeId);
      assert r.placeId in ids && id in ids;
    } else if |ids| != 1 {
      var k := if ids[0] == id then 1 else 0;
      OnDayIff(rows, day, ids[k]);
    }
  }

  lemma ReorderAllowedIff(ids: seq<PlaceId>, current: seq<PlaceId>)
    requires Distinct(current)
    ensures |ids| == |current| && AsSet(ids) == AsSet(current) <==> multiset(ids) == multiset(current)
  {
    if multiset(ids) == multiset(current) {
      assert |multiset(ids)| == |ids| && |multiset(current)| == |current|;
      forall id ensures id in AsSet(ids) <==> id in AsSet(current) {
        assert id in ids <==> id in multiset(ids);
        assert id in current <==> id in multiset(current);
      }
    } else if |ids| == |current| && AsSet(ids) == AsSet(current) {
      SameSetPermutes(ids, current);
    }
  }

  lemma StoredIff(rows: seq<Row>, id: PlaceId)
    ensures id in RowIds(rows) <==> exists r | r in rows :: r.placeId == id
  {
    if id in RowIds(rows) {
      var r := RowOfId(rows, id);
    }
    forall r | r in rows ensures r.placeId in RowIds(rows) {
      InRowIds(rows, r);
    }
  }

  /** A request reaches routing exactly when it is allowed; otherwise it fails for the reason given. */
  lemma RequestAllowedIff(trip: Trip, env: Env, edit: Edit)
    requires TripOk(trip, env)
    ensures PlacesToRoute(trip, env, edit).Success? <==> Allowed(trip, env, edit)
    ensures PlacesToRoute(trip, env, edit).Failure? ==>
              PlacesToRoute(trip, env, edit) == Failure(Reason(trip, env, edit))
  {
    hide DayRows;
    CurrentDistinct(trip.rows, edit.day);
    match edit
    case ReorderStops(day, ids) => ReorderAllowedIff(ids, DayIds(trip.rows, day));
    case RemoveOne(day, id) =>
      OnDayIff(trip.rows, day, id);
      if HasStop(trip.rows, day, id) {
        AnotherIff(trip.rows, day, id);
      }
    case AddOne(_, id) => StoredIff(trip.rows, id);
    case Reoptimize(day) =>
      var current := DayIds(trip.rows, day);
      if current != [] {
        OnDayIff(trip.rows, day, current[0]);
      } else {
        forall r | r in trip.rows ensures r.day != day {
          OnDayIff(trip.rows, day, r.placeId);
          assert r.day == day ==> HasStop(trip.rows, day, r.placeId);
        }
      }
  }

  // ----- Routing

  /** One stop, or some order of the stops, based on the provider's legs, within the travel cap. */
  ghost predicate FitsUndropped(stops: seq<ScoredPlace>, world: TravelEngine.World) {
    || |stops| <= 1
    || exists p | multiset(p) == multiset(stops) ::
         RouteOptimizer.Travel(p, LegsToLookup(Matrix(stops, world.baseLat, world.baseLng, world.routing))) <= 180
  }

  /** The optimizer drops nothing exactly when some order of all the stops is within the cap. */
  lemma DropsNothingIff(stops: seq<ScoredPlace>, world: TravelEngine.World)
    requires DistinctStops(stops)
    ensures OptimizedRoute(stops, world.baseLat, world.baseLng, world.routing).droppedStops == []
       <==> FitsUndropped(stops, world)
  {
    hide BestTravel, AscendingLowest, OptimizedRoute, Victims;
    if stops == [] {
      NoRoute(world);
    } else {
      var r := OptimizedRoute(stops, world.baseLat, world.baseLng, world.routing);
      var victims, kept := OptimizeRouteExact(stops, world.baseLat, world.baseLng, world.routing);
      assert |Dropped(victims)| == |victims|;
      if victims != [] {
        assert AfterDrops(stops, 0) == stops;
        var lookup := LegsToLookup(Matrix(stops, world.baseLat, world.baseLng, world.routing));
        forall p | multiset(p) == multiset(stops) ensures RouteOptimizer.Travel(p, lookup) > 180 {
          BestTravelIsLeast(stops, world.baseLat, world.baseLng, world.routing, p);
        }
      } else {
        assert kept == AfterDrops(stops, 0) == stops;
        assert multiset(r.ordered) == multiset(stops);
      }
    }
  }

  lemma NoRoute(world: TravelEngine.World)
    ensures OptimizedRoute([], world.baseLat, world.baseLng, world.routing).droppedStops == []
  {
  }

  lemma {:induction false} ConsecutiveFound(order: seq<ScoredPlace>, lookup: Lookup, n: nat)
    requires n <= |order| && HopsKnown(order, lookup)
    ensures ConsecutiveLegs(order, lookup, n).Some?
  {
    if n > 0 {
      ConsecutiveFound(order, lookup, n - 1);
      assert RequiredHops(order)[n - 1] in lookup;
    }
  }

  lemma ConsecutiveMeans(order: seq<ScoredPlace>, lookup: Lookup)
    requires ConsecutiveLegs(order, lookup, |order|).Some?
    ensures HopsKnown(order, lookup)
  {
    TravelHops.ConsecutiveLegsAre(order, lookup, |order|);
  }

  /** The legs the provider gives between the base and the stops. */
  function LegsAround(stops: seq<ScoredPlace>, world: TravelEngine.World): Lookup {
    LegsToLookup(world.routing.travelMatrix(WaypointsFor(stops, world.baseLat, world.baseLng)))
  }

  /** An order the caller chose is timed exactly when the provider gave every leg along it. */
  lemma FixedDraftIff(places: seq<ScoredPlace>, world: TravelEngine.World)
    requires DistinctStops(places)
    ensures FixedDraft(places, world).Success? <==> HopsKnown(places, LegsAround(places, world))
    ensures FixedDraft(places, world).Failure? ==> FixedDraft(places, world) == Failure(MissingRouteLeg)
  {
    hide LegsToLookup, ConsecutiveLegs, WaypointsFor;
    if places != [] {
      var matrix := world.routing.travelMatrix(WaypointsFor(places, world.baseLat, world.baseLng));
      var lookup := LegsToLookup(matrix);
      if HopsKnown(places, lookup) {
        ConsecutiveFound(places, lookup, |places|);
      }
      if ConsecutiveLegs(places, lookup, |places|).Some? {
        var legs := ConsecutiveLegs(places, lookup, |places|).value;
        ConsecutiveMeans(places, lookup);
        TravelHops.ConsecutiveLegsAre(places, lookup, |places|);
        TravelHops.FixedLegs(places, matrix);
        TravelHops.SameTravel(places, LegsToLookup(legs), lookup);
        NoneMissing(RequiredHops(places), LegsToLookup(legs));
      }
    }
  }

  lemma FixedAlways(places: seq<ScoredPlace>, world: TravelEngine.World)
    requires DistinctStops(places) && HonestProvider(world.routing)
    ensures FixedDraft(places, world).Success?
  {
    hide LegsToLookup, FullMatrix, WaypointsFor, FixedDraft, HopsKnown;
    var waypoints := WaypointsFor(places, world.baseLat, world.baseLng);
    assert FullMatrix(waypoints, world.routing.travelMatrix(waypoints));
    HopsOfSubset(places, places, world.baseLat, world.baseLng, world.routing.travelMatrix(waypoints));
    FixedDraftIff(places, world);
  }

  lemma OptimizedUnless(places: seq<ScoredPlace>, world: TravelEngine.World)
    requires DistinctStops(places) && HonestProvider(world.routing)
    ensures OptimizedDraft(places, world).Success? <==> FitsUndropped(places, world)
  {
    hide LegsToLookup, OptimizedRoute, FullMatrix, WaypointsFor, Schedule, FitsUndropped, AscendingLowest, OptimalOrder;
    var r := OptimizedRoute(places, world.baseLat, world.baseLng, world.routing);
    DropsNothingIff(places, world);
    if places == [] {
      NothingToTime(world);
    } else if r.droppedStops == [] {
      var victims, kept := OptimizeRouteExact(places, world.baseLat, world.baseLng, world.routing);
      assert |Dropped(victims)| == |victims| == 0;
      assert kept == places;
      assert FullMatrix(WaypointsFor(places, world.baseLat, world.baseLng), r.legs);
      ReorderedDayIsTimed(r.ordered, places, world.baseLat, world.baseLng, r.legs);
    }
  }

  lemma NothingToTime(world: TravelEngine.World)
    ensures OptimizedDraft([], world).Success?
  {
  }

  /** The places an allowed edit routes, as the optimizer gets them. */
  ghost function Routed(trip: Trip, env: Env, edit: Edit): seq<ScoredPlace>
    requires TripOk(trip, env) && Allowed(trip, env, edit)
  {
    RequestAllowedIff(trip, env, edit);
    PlacesToRouteKnown(trip, env, edit);
    HydrateAll(PlacesToRoute(trip, env, edit).value, env.catalog)
  }

  /** With an honest provider an allowed reorder can always be timed, any other allowed edit unless it would drop. */
  lemma DraftMadeIff(trip: Trip, env: Env, edit: Edit)
    requires TripOk(trip, env) && HonestProvider(env.world.routing)
    ensures DraftFor(trip, env, edit).Success?
       <==> Allowed(trip, env, edit) && (edit.ReorderStops? || FitsUndropped(Routed(trip, env, edit), env.world))
  {
    hide FixedDraft, OptimizedDraft, FitsUndropped, Allowed, RightPlaces;
    RequestAllowedIff(trip, env, edit);
    if Allowed(trip, env, edit) {
      RoutedPlaces(trip, env, edit);
      var places := Routed(trip, env, edit);
      HydratedDistinct(PlacesToRoute(trip, env, edit).value, env.catalog);
      FixedAlways(places, env.world);
      OptimizedUnless(places, env.world);
    }
  }

  // ----- Validation

  /** The trip passes with `plan` on the edited day; after a reorder, morning-slot errors are let through. */
  ghost predicate PassesEdited(trip: Trip, env: Env, edit: Edit, plan: DayPlan)
    requires KnownPlaces(trip.rows, env.catalog)
  {
    var result := Validation(EditedPlans(trip.rows, edit.day, plan, env.catalog), env.world.spread);
    && result.Some?
    && forall e | e in result.value.errors :: edit.ReorderStops? && e.MorningSlotViolation?
  }

  lemma NothingBlocksIff(trip: Trip, env: Env, edit: Edit, plan: DayPlan)
    requires KnownPlaces(trip.rows, env.catalog)
    ensures BlockingErrors(trip.rows, edit.day, plan, TypeOf(edit), env) == Some([])
       <==> PassesEdited(trip, env, edit, plan)
  {
    hide Validation, EditedPlans;
    var result := Validation(EditedPlans(trip.rows, edit.day, plan, env.catalog), env.world.spread);
    if result.Some? {
      var errors := result.value.errors;
      forall e ensures e in Filter(IsHardError, errors) <==> e in errors && !e.MorningSlotViolation? {
        FilterMembers(IsHardError, errors, e);
      }
      assert Filter(IsHardError, errors) != [] ==> Filter(IsHardError, errors)[0] in Filter(IsHardError, errors);
      assert errors != [] ==> errors[0] in errors;
    }
  }

  /**
   * Exactly when an edit is accepted, with an honest provider: the user owns the trip, the request is allowed,
   * a remove, add or reoptimize needs no stop dropped, and the whole trip passes with the new day in it, morning
   * slots aside after a reorder.
   */
  lemma AcceptedIff(trip: Trip, env: Env, user: nat, edit: Edit)
    requires TripOk(trip, env) && HonestProvider(env.world.routing)
    ensures ApplyEdit(trip, env, user, edit).Success?
       <==> && trip.userId == Some(user)
            && Allowed(trip, env, edit)
            && (edit.ReorderStops? || FitsUndropped(Routed(trip, env, edit), env.world))
            && DraftFor(trip, env, edit).Success?
            && var draft := DraftFor(trip, env, edit).value;
               PassesEdited(trip, env, edit, PlanFromScheduled(draft.scheduled, draft.legs))
    ensures trip.userId != Some(user) ==> ApplyEdit(trip, env, user, edit) == Failure(Forbidden)
    ensures trip.userId == Some(user) && !Allowed(trip, env, edit) ==>
              ApplyEdit(trip, env, user, edit) == Failure(Reason(trip, env, edit))
  {
    hide DraftFor, BlockingErrors, Allowed, FitsUndropped, PassesEdited, PlanFromScheduled, Stored;
    DraftMadeIff(trip, env, edit);
    RequestAllowedIff(trip, env, edit);
    NotAllowed(trip, env, edit);
    if DraftFor(trip, env, edit).Success? {
      var draft := DraftFor(trip, env, edit).value;
      NothingBlocksIff(trip, env, edit, PlanFromScheduled(draft.scheduled, draft.legs));
    }
  }

  lemma NotAllowed(trip: Trip, env: Env, edit: Edit)
    requires KnownPlaces(trip.rows, env.catalog)
    ensures PlacesToRoute(trip, env, edit).Failure? ==>
              DraftFor(trip, env, edit) == Failure(PlacesToRoute(trip, env, edit).error)
  {
  }

  /** A stored stop is read back as stored; one without a start time as starting at eight. */
  lemma StoredStart(r: Row, catalog: map<PlaceId, CatalogPlace>)
    requires r.placeId in catalog
    ensures
      var start := StoredStop(r, catalog).suggestedStartTime;
      if r.suggestedStartTime in {None, Some("")} then ParseHHMM(start) == Some(480)
      else r.suggestedStartTime == Some(start)
  {
    hide ParseHHMM;
    ClockConstants();
  }

  // ----- The audit event

  /** A snapshot keeps all of a row but its day and its arrival note. */
  function Restored(snapshot: Snapshot, day: int, note: Option<ArrivalNote>): Row {
    Row(snapshot.placeId, day, snapshot.order, snapshot.travelTimeMin, snapshot.visitDurationMin,
        snapshot.suggestedStartTime, note, snapshot.polyline)
  }

  /** The rows are those recorded, arrival notes aside. */
  ghost predicate Recorded(snapshots: seq<Snapshot>, dayRows: seq<Row>, day: int) {
    && |snapshots| == |dayRows|
    && forall i | 0 <= i < |dayRows| :: dayRows[i] == Restored(snapshots[i], day, dayRows[i].arrivalNote)
  }

  lemma SnapshotRecords(rows: seq<Row>, day: int)
    ensures Recorded(SnapshotDay(rows, day), DayRows(rows, day), day)
  {
    hide DayRows;
    var dayRows := DayRows(rows, day);
    forall i | 0 <= i < |dayRows| ensures dayRows[i].day == day {
      DayRowsMember(rows, day, dayRows[i]);
    }
  }

  /** What the event of an accepted edit says: the edit, the place it names, the day before and the day after. */
  lemma EventSays(before: Trip, env: Env, user: nat, edit: Edit)
    requires TripOk(before, env) && ApplyEdit(before, env, user, edit).Success?
    ensures
      var after := ApplyEdit(before, env, user, edit).value;
      && |after.log| == |before.log| + 1
      && var event := after.log[|before.log|];
         && (match edit
             case ReorderStops(_, _) => event.editType == Reorder && event.placeId == None
             case RemoveOne(_, id) => event.editType == RemoveStop && event.placeId == Some(id)
             case AddOne(_, id) => event.editType == AddStop && event.placeId == Some(id)
             case Reoptimize(_) => event.editType == ReoptimizeDay && event.placeId == None)
         && event.day == edit.day
         && Recorded(event.before, DayRows(before.rows, edit.day), edit.day)
         && Recorded(event.after, DayRows(after.rows, edit.day), edit.day)
  {
    hide ApplyEdit, Recorded, SnapshotDay, DayRows, Accepted;
    var after := ApplyEdit(before, env, user, edit).value;
    EditIsAudited(before, env, user, edit);
    var draft := AcceptedDraft(before, env, user, edit);
    AcceptedStores(before, env, edit, draft, after);
    SnapshotRecords(before.rows, edit.day);
    SnapshotRecords(after.rows, edit.day);
  }

  /** Replaying the log gives back every day of the trip, row by row, arrival notes aside. */
  lemma LogRestores(trip: Trip, env: Env, requests: seq<Request>, day: int)
    requires TripOk(trip, env)
    ensures
      var last := RunEdits(trip, env, requests);
      && |trip.log| <= |last.log|
      && Recorded(Replay(SnapshotDay(trip.rows, day), NewEvents(trip, last), day), DayRows(last.rows, day), day)
  {
    hide RunEdits, Recorded, Replay, NewEvents, DayRows, SnapshotDay;
    AuditReplays(trip, env, requests, day);
    SnapshotRecords(RunEdits(trip, env, requests).rows, day);
  }
}
