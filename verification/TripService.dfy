/** The trip service: a stored trip edited in place, one day at a time, all or nothing. */
module TripService {
  import opened Ordering
  import opened Sequences
  import opened TravelRules
  import opened Protocols
  import opened RouteOptimizer
  import opened ScheduleBuilder
  import opened TripValidator
  import opened TravelEngine
  import opened TripModel
  import opened TripRows
  import opened TripDrafts
  import opened TripProperties

  // ----- Pieces that only compute

  method ConsecutiveLegsForOrder(order: seq<ScoredPlace>, lookup: Lookup) returns (legs: Option<seq<RouteLeg>>)
    ensures legs == ConsecutiveLegs(order, lookup, |order|)
  {
    hide ConsecutiveLegs;
    var hops := RequiredHops(order);
    var found: seq<RouteLeg> := [];
    NoLegsYet(order, lookup);
    for i := 0 to |order|
      invariant ConsecutiveLegs(order, lookup, i) == Some(found)
    {
      NextLeg(order, lookup, i, found);
      if hops[i] !in lookup {
        MissingLegPersists(order, lookup, i + 1, |order|);
        return None;
      }
      found := found + [lookup[hops[i]]];
    }
    return Some(found);
  }

  lemma NoLegsYet(order: seq<ScoredPlace>, lookup: Lookup)
    ensures ConsecutiveLegs(order, lookup, 0) == Some([])
  {
  }

  lemma NextLeg(order: seq<ScoredPlace>, lookup: Lookup, i: nat, found: seq<RouteLeg>)
    requires i < |order| && ConsecutiveLegs(order, lookup, i) == Some(found)
    ensures
      var hop := RequiredHops(order)[i];
      ConsecutiveLegs(order, lookup, i + 1) == if hop in lookup then Some(found + [lookup[hop]]) else None
  {
    hide RequiredHops;
  }

  lemma {:induction false} MissingLegPersists(order: seq<ScoredPlace>, lookup: Lookup, i: nat, n: nat)
    requires i <= n <= |order| && ConsecutiveLegs(order, lookup, i).None?
    ensures ConsecutiveLegs(order, lookup, n).None?
  {
    hide RequiredHops;
    if i < n {
      MissingLegPersists(order, lookup, i, n - 1);
    }
  }

  method DayPlanFromScheduled(scheduled: seq<ScheduledStop>, legs: seq<RouteLeg>) returns (plan: DayPlan)
    ensures plan == PlanFromScheduled(scheduled, legs)
  {
    var lookup := LegsToLookup(legs);
    var total := 0;
    var prev := BASE_SENTINEL_ID;
    for i := 0 to |scheduled|
      invariant total == TravelInto(scheduled, lookup, i)
      invariant prev == if i == 0 then BASE_SENTINEL_ID else scheduled[i - 1].place.id
    {
      total := total + HopTravelMin(lookup, prev, scheduled[i].place.id);
      prev := scheduled[i].place.id;
    }
    return DayPlan(scheduled, total, []);
  }

  method DayPlanFromStored(dayRows: seq<Row>, catalog: map<PlaceId, CatalogPlace>) returns (plan: DayPlan)
    requires KnownPlaces(dayRows, catalog)
    ensures plan == PlanFromStored(dayRows, catalog)
  {
    var stops: seq<ScheduledStop> := [];
    var total := 0;
    for i := 0 to |dayRows|
      invariant |stops| == i && total == StoredTravel(dayRows, i)
      invariant forall j | 0 <= j < i :: stops[j] == StoredStop(dayRows[j], catalog)
    {
      stops := stops + [StoredStop(dayRows[i], catalog)];
      total := total + dayRows[i].travelTimeMin;
    }
    return DayPlan(stops, total, []);
  }

  /** Matrix, consecutive legs, polylines and timing for an order the caller chose; no optimization. */
  method DraftFixedOrder(order: seq<ScoredPlace>, world: World) returns (result: Result<Draft, EditError>)
    ensures result == FixedDraft(order, world)
  {
    if order == [] {
      return Success(Draft([], [], [], []));
    }
    hide Schedule, ConsecutiveLegs;
    var matrix := world.routing.travelMatrix(WaypointsFor(order, world.baseLat, world.baseLng));
    var legs := ConsecutiveLegsForOrder(order, LegsToLookup(matrix));
    if legs.None? {
      return Failure(MissingRouteLeg);
    }
    var polylines, _ := PopulateLegPolylines(order, world.baseLat, world.baseLng, world.routing);
    var timed := BuildDaySchedule(order, legs.value, true);
    match timed
    case Failure(cause) => return Failure(Unschedulable(cause));
    case Success(scheduled) => return Success(Draft(scheduled, legs.value, order, polylines));
  }

  /** Optimize, refuse if that drops a stop, then time. */
  method DraftOptimized(places: seq<ScoredPlace>, world: World) returns (result: Result<Draft, EditError>)
    ensures result == OptimizedDraft(places, world)
  {
    hide Schedule, OptimizedRoute;
    var r := OptimizeRoute(places, world.baseLat, world.baseLng, world.routing);
    if r.droppedStops != [] {
      return Failure(WouldDropOtherStops(r.droppedStops));
    }
    var timed := BuildDaySchedule(r.ordered, r.legs, false);
    match timed
    case Failure(cause) => return Failure(Unschedulable(cause));
    case Success(scheduled) => return Success(Draft(scheduled, r.legs, r.ordered, r.legPolylines));
  }

  // ----- Lemmas for the storing loops

  function NotThere(day: int, id: PlaceId): Row -> bool {
    (r: Row) => !(r.day == day && r.placeId == id)
  }

  /** Rows left after looking at the first k of the day's ids. */
  function LeftAfter(day: int, keptIds: seq<PlaceId>, ids: seq<PlaceId>, k: nat): Row -> bool
    requires k <= |ids|
  {
    (r: Row) => r.day != day || r.placeId in keptIds || r.placeId !in ids[..k]
  }

  lemma {:induction false} FilterTwice<T>(p: T -> bool, q: T -> bool, both: T -> bool, s: seq<T>)
    requires forall x | x in s :: both(x) <==> p(x) && q(x)
    ensures Filter(p, Filter(q, s)) == Filter(both, s)
  {
    if s != [] {
      FilterTwice(p, q, both, s[1..]);
      FilterStep(q, s);
      FilterStep(both, s);
      if q(s[0]) {
        FilterCons(p, s[0], Filter(q, s[1..]));
      }
    }
  }

  lemma DeleteOne(rows: seq<Row>, day: int, keptIds: seq<PlaceId>, ids: seq<PlaceId>, k: nat)
    requires k < |ids|
    ensures Filter(LeftAfter(day, keptIds, ids, k + 1), rows)
         == if ids[k] in keptIds then Filter(LeftAfter(day, keptIds, ids, k), rows)
            else Filter(NotThere(day, ids[k]), Filter(LeftAfter(day, keptIds, ids, k), rows))
  {
    var before, next := LeftAfter(day, keptIds, ids, k), LeftAfter(day, keptIds, ids, k + 1);
    assert ids[..k + 1] == ids[..k] + [ids[k]];
    if ids[k] in keptIds {
      FilterSame(next, before, rows);
    } else {
      FilterTwice(NotThere(day, ids[k]), before, next, rows);
    }
  }

  lemma DeletedAll(rows: seq<Row>, day: int, renewed: seq<Row>)
    ensures
      var ids := RowIds(Filter(OnDay(day), rows));
      Filter(LeftAfter(day, RowIds(renewed), ids, |ids|), rows) == Filter(Survives(day, renewed), rows)
  {
    var dayRows := Filter(OnDay(day), rows);
    var ids := RowIds(dayRows);
    assert ids[..|ids|] == ids;
    forall r | r in rows ensures LeftAfter(day, RowIds(renewed), ids, |ids|)(r) <==> Survives(day, renewed)(r) {
      if r.day == day {
        FilterMembers(OnDay(day), rows, r);
        InRowIds(dayRows, r);
      }
    }
    FilterSame(LeftAfter(day, RowIds(renewed), ids, |ids|), Survives(day, renewed), rows);
  }

  lemma {:induction false} RowForSnoc(renewed: seq<Row>, x: Row, r: Row)
    ensures RowFor(renewed + [x], r)
         == if r.placeId in RowIds(renewed) then RowFor(renewed, r) else if x.placeId == r.placeId then x else r
  {
    if renewed == [] {
      assert renewed + [x] == [x];
    } else {
      assert (renewed + [x])[1..] == renewed[1..] + [x];
      RowForSnoc(renewed[1..], x, r);
      assert RowIds(renewed) == [renewed[0].placeId] + RowIds(renewed[1..]);
    }
  }

  /** The fields of the day's row for x.placeId are overwritten; other rows keep theirs. */
  function Overwritten(table: seq<Row>, day: int, x: Row): seq<Row> {
    seq(|table|, j requires 0 <= j < |table| =>
      if table[j].day == day && table[j].placeId == x.placeId then x else table[j])
  }

  lemma OverwriteNext(kept: seq<Row>, day: int, renewed: seq<Row>, x: Row)
    requires x.day == day && x.placeId !in RowIds(renewed) && forall i | 0 <= i < |renewed| :: renewed[i].day == day
    ensures Overwritten(Replaced(kept, day, renewed), day, x) == Replaced(kept, day, renewed + [x])
  {
    forall j | 0 <= j < |kept|
      ensures Overwritten(Replaced(kept, day, renewed), day, x)[j] == Replaced(kept, day, renewed + [x])[j]
    {
      RowForSnoc(renewed, x, kept[j]);
      RowForIn(renewed, kept[j]);
    }
  }

  /** A new place has no row to overwrite. */
  lemma OverwriteNone(kept: seq<Row>, day: int, renewed: seq<Row>, x: Row)
    requires x.placeId !in RowIds(Filter(OnDay(day), kept))
    ensures Replaced(kept, day, renewed + [x]) == Replaced(kept, day, renewed)
  {
    forall j | 0 <= j < |kept| ensures Replaced(kept, day, renewed + [x])[j] == Replaced(kept, day, renewed)[j] {
      RowForSnoc(renewed, x, kept[j]);
      RowForIn(renewed, kept[j]);
      if kept[j].day == day {
        FilterMembers(OnDay(day), kept, kept[j]);
        InRowIds(Filter(OnDay(day), kept), kept[j]);
      }
    }
  }

  lemma SurvivorsOnDay(rows: seq<Row>, day: int, renewed: seq<Row>, id: PlaceId)
    requires id !in RowIds(Filter(OnDay(day), rows))
    ensures id !in RowIds(Filter(OnDay(day), Filter(Survives(day, renewed), rows)))
  {
    var kept := Filter(Survives(day, renewed), rows);
    if id in RowIds(Filter(OnDay(day), kept)) {
      var r := RowOfId(Filter(OnDay(day), kept), id);
      FilterMembers(OnDay(day), kept, r);
      FilterMembers(Survives(day, renewed), rows, r);
      FilterMembers(OnDay(day), rows, r);
      InRowIds(Filter(OnDay(day), rows), r);
    }
  }

  // ----- The service

  class Service {
    const env: Env
    const destinationId: nat
    const userId: Option<nat>
    var rows: seq<Row>
    var log: seq<EditEvent>

    function View(): Trip
      reads this
    {
      Trip(userId, destinationId, rows, log)
    }

    ghost predicate Valid()
      reads this
    {
      TripOk(View(), env)
    }

    constructor (trip: Trip, env: Env)
      requires TripOk(trip, env)
      ensures Valid() && View() == trip && this.env == env
    {
      this.env := env;
      userId, destinationId, rows, log := trip.userId, trip.destinationId, trip.rows, trip.log;
    }

    /** Whole-trip validation with the edited day's new plan in place. */
    method ValidateFullTrip(day: int, plan: DayPlan, editType: EditType) returns (errors: Option<seq<ValidationError>>)
      requires KnownPlaces(rows, env.catalog)
      ensures errors == BlockingErrors(rows, day, plan, editType, env)
    {
      hide Validation, PlanFromStored, DayRows, InsertDay, DaysPresent;
      var daysPresent := InsertDay(day, DaysPresent(rows));
      var plans: seq<DayPlan> := [];
      for i := 0 to |daysPresent|
        invariant plans == PlansOn(rows, daysPresent, i, day, plan, env.catalog)
      {
        if daysPresent[i] == day {
          plans := plans + [plan];
        } else {
          DayRowsKnown(rows, daysPresent[i], env.catalog);
          var stored := DayPlanFromStored(DayRows(rows, daysPresent[i]), env.catalog);
          plans := plans + [stored];
        }
      }
      var result := ValidateTrip(plans, env.world.spread);
      if result.None? {
        return None;
      }
      if editType == Reorder {
        var kept := DropMorningErrors(result.value.errors);
        return Some(kept);
      }
      return Some(result.value.errors);
    }

    /** Store the day in place and append one audit event. */
    method PersistDayAndAudit(day: int, draft: Draft, before: seq<Snapshot>, editType: EditType,
                              placeId: Option<PlaceId>)
      requires UniquePlaces(rows) && Distinct(StopIds(draft.scheduled))
      modifies this
      ensures rows == Persisted(old(rows), day, FreshRows(draft, day))
      ensures log == old(log) + [EditEvent(editType, day, placeId, before, Snapshots(FreshRows(draft, day)))]
    {
      hide LegsToLookup, PolylineByPlace, Replaced, DayOf, Distinct;
      var lookup := LegsToLookup(draft.legs);
      var polylines := PolylineByPlace(draft.ordered, draft.polylines);
      ghost var renewed := FreshRows(draft, day);
      FreshIsDay(draft, day);
      var existing := RowIds(Filter(OnDay(day), rows));
      var table := DeleteUnscheduled(rows, day, StopIds(draft.scheduled), renewed);
      ghost var kept := table;
      var newRows: seq<Row> := [];
      var after: seq<Snapshot> := [];
      var prev := BASE_SENTINEL_ID;
      assert renewed[..0] == [];
      StartReplacing(kept, day);
      for i := 0 to |draft.scheduled|
        invariant table == Replaced(kept, day, renewed[..i])
        invariant newRows == Filter(IsNewTo(Filter(OnDay(day), rows)), renewed[..i])
        invariant after == Snapshots(renewed[..i])
        invariant prev == if i == 0 then BASE_SENTINEL_ID else draft.scheduled[i - 1].place.id
        invariant rows == old(rows) && log == old(log)
      {
        var stop := draft.scheduled[i];
        var row := Row(stop.place.id, day, i + 1, HopTravelMin(lookup, prev, stop.place.id), stop.visitDurationMin,
                       Some(stop.suggestedStartTime), stop.arrivalNote,
                       if stop.place.id in polylines then polylines[stop.place.id] else None);
        assert row == renewed[i];
        StoreNext(rows, kept, day, renewed, i);
        if stop.place.id in existing {
          table := Overwritten(table, day, row);
        } else {
          newRows := newRows + [row];
        }
        after := after + [SnapshotOf(row)];
        prev := stop.place.id;
      }
      assert renewed[..|draft.scheduled|] == renewed;
      rows := table + newRows;
      log := log + [EditEvent(editType, day, placeId, before, after)];
    }

    /** Validate the draft and, if nothing blocks it, store it. */
    method ValidateAndStore(edit: Edit, draft: Draft) returns (error: Option<EditError>)
      requires Valid() && DraftFor(View(), env, edit) == Success(draft)
      modifies this
      ensures
        var plan := PlanFromScheduled(draft.scheduled, draft.legs);
        match BlockingErrors(old(rows), edit.day, plan, TypeOf(edit), env)
        case None => error == Some(UnreadableStartTime) && View() == old(View())
        case Some(errors) =>
          if errors != [] then error == Some(FailedValidation(errors)) && View() == old(View())
          else error == None && View() == Stored(old(View()), edit, draft)
    {
      hide BlockingErrors, DraftFor, PlanFromScheduled, RightPlaces, Persisted;
      var before := SnapshotDay(rows, edit.day);
      var plan := DayPlanFromScheduled(draft.scheduled, draft.legs);
      var errors := ValidateFullTrip(edit.day, plan, TypeOf(edit));
      if errors.None? {
        return Some(UnreadableStartTime);
      }
      if errors.value != [] {
        return Some(FailedValidation(errors.value));
      }
      DraftIsRight(View(), env, edit, draft);
      PersistDayAndAudit(edit.day, draft, before, TypeOf(edit), AuditedPlace(edit));
      return None;
    }

    /** How a request ends: the specified new trip, or the specified refusal and no change at all. */
    ghost predicate Ended(before: Trip, user: nat, edit: Edit, after: Trip, error: Option<EditError>)
      requires KnownPlaces(before.rows, env.catalog)
    {
      match ApplyEdit(before, env, user, edit)
      case Success(t) => error == None && after == t
      case Failure(e) => error == Some(e) && after == before
    }

    method ReorderDay(user: nat, day: int, placeIds: seq<PlaceId>) returns (error: Option<EditError>)
      requires Valid()
      modifies this
      ensures Valid()
      ensures Ended(old(View()), user, ReorderStops(day, placeIds), View(), error)
    {
      ghost var edit := ReorderStops(day, placeIds);
      hide BlockingErrors, FixedDraft, Stored, TripOk;
      if userId != Some(user) {
        return Some(Forbidden);
      }
      var current := RowIds(DayRows(rows, day));
      if |placeIds| != |current| || AsSet(placeIds) != AsSet(current) {
        return Some(NotAPermutation);
      }
      ValidIsKnown();
      PlacesToRouteKnown(View(), env, edit);
      var draft := DraftFixedOrder(HydrateAll(placeIds, env.catalog), env.world);
      if draft.Failure? {
        return Some(draft.error);
      }
      error := ValidateAndStore(ReorderStops(day, placeIds), draft.value);
      AfterEdit(old(View()), user, edit);
    }

    method RemoveStop(user: nat, day: int, placeId: PlaceId) returns (error: Option<EditError>)
      requires Valid()
      modifies this
      ensures Valid()
      ensures Ended(old(View()), user, RemoveOne(day, placeId), View(), error)
    {
      ghost var edit := RemoveOne(day, placeId);
      hide BlockingErrors, OptimizedDraft, Stored, TripOk;
      if userId != Some(user) {
        return Some(Forbidden);
      }
      var current := RowIds(DayRows(rows, day));
      if placeId !in current {
        return Some(StopNotFound);
      }
      if |current| == 1 {
        return Some(DayWouldBeEmpty);
      }
      ValidIsKnown();
      PlacesToRouteKnown(View(), env, edit);
      var draft := DraftOptimized(HydrateAll(WithoutId(current, placeId), env.catalog), env.world);
      if draft.Failure? {
        return Some(draft.error);
      }
      error := ValidateAndStore(RemoveOne(day, placeId), draft.value);
      AfterEdit(old(View()), user, edit);
    }

    method AddStop(user: nat, day: int, placeId: PlaceId) returns (error: Option<EditError>)
      requires Valid()
      modifies this
      ensures Valid()
      ensures Ended(old(View()), user, AddOne(day, placeId), View(), error)
    {
      ghost var edit := AddOne(day, placeId);
      hide BlockingErrors, OptimizedDraft, Stored, TripOk;
      if userId != Some(user) {
        return Some(Forbidden);
      }
      if placeId !in env.catalog {
        return Some(PlaceNotFound);
      }
      if env.catalog[placeId].destinationId != destinationId {
        return Some(WrongDestination);
      }
      if placeId in RowIds(rows) {
        return Some(StopConflict);
      }
      ValidIsKnown();
      PlacesToRouteKnown(View(), env, edit);
      var draft := DraftOptimized(HydrateAll(RowIds(DayRows(rows, day)) + [placeId], env.catalog), env.world);
      if draft.Failure? {
        return Some(draft.error);
      }
      error := ValidateAndStore(AddOne(day, placeId), draft.value);
      AfterEdit(old(View()), user, edit);
    }

    method ReoptimizeDay(user: nat, day: int) returns (error: Option<EditError>)
      requires Valid()
      modifies this
      ensures Valid()
      ensures Ended(old(View()), user, Reoptimize(day), View(), error)
    {
      ghost var edit := Reoptimize(day);
      hide BlockingErrors, OptimizedDraft, Stored, TripOk;
      if userId != Some(user) {
        return Some(Forbidden);
      }
      var current := RowIds(DayRows(rows, day));
      if current == [] {
        return Some(NothingToReoptimize);
      }
      ValidIsKnown();
      PlacesToRouteKnown(View(), env, edit);
      var draft := DraftOptimized(HydrateAll(current, env.catalog), env.world);
      if draft.Failure? {
        return Some(draft.error);
      }
      error := ValidateAndStore(Reoptimize(day), draft.value);
      AfterEdit(old(View()), user, edit);
    }

    lemma ValidIsKnown()
      requires Valid()
      ensures KnownPlaces(rows, env.catalog)
    {
    }

    lemma AfterEdit(before: Trip, user: nat, edit: Edit)
      requires TripOk(before, env)
      ensures ApplyEdit(before, env, user, edit).Success? ==> TripOk(ApplyEdit(before, env, user, edit).value, env)
    {
      if ApplyEdit(before, env, user, edit).Success? {
        EditKeepsTripOk(before, env, user, edit);
      }
    }
  }

  /** A reorder is only warned about morning slots. */
  method DropMorningErrors(errors: seq<ValidationError>) returns (kept: seq<ValidationError>)
    ensures kept == Filter(IsHardError, errors)
  {
    kept := [];
    for i := 0 to |errors|
      invariant kept == Filter(IsHardError, errors[..i])
    {
      assert errors[..i + 1] == errors[..i] + [errors[i]];
      FilterAppend(IsHardError, errors[..i], [errors[i]]);
      if !errors[i].MorningSlotViolation? {
        kept := kept + [errors[i]];
      }
    }
    assert errors[..|errors|] == errors;
  }

  /** Delete the day's rows whose place is no longer scheduled, one at a time. */
  method DeleteUnscheduled(rows: seq<Row>, day: int, scheduledIds: seq<PlaceId>, ghost renewed: seq<Row>)
    returns (table: seq<Row>)
    requires scheduledIds == RowIds(renewed)
    ensures table == Filter(Survives(day, renewed), rows)
  {
    table := rows;
    var ids := RowIds(Filter(OnDay(day), rows));
    FilterAll(LeftAfter(day, scheduledIds, ids, 0), rows);
    for k := 0 to |ids|
      invariant table == Filter(LeftAfter(day, scheduledIds, ids, k), rows)
    {
      DeleteOne(rows, day, scheduledIds, ids, k);
      if ids[k] !in scheduledIds {
        table := Filter(NotThere(day, ids[k]), table);
      }
    }
    DeletedAll(rows, day, renewed);
  }

  lemma StartReplacing(kept: seq<Row>, day: int)
    ensures Replaced(kept, day, []) == kept
  {
  }

  /** One more scheduled stop: its row is overwritten or inserted. */
  lemma StoreNext(rows: seq<Row>, kept: seq<Row>, day: int, renewed: seq<Row>, i: nat)
    requires i < |renewed| && DayOf(renewed, day) && kept == Filter(Survives(day, renewed), rows)
    ensures
      var done, row, dayRows := renewed[..i], renewed[i], Filter(OnDay(day), rows);
      && renewed[..i + 1] == done + [row]
      && Snapshots(renewed[..i + 1]) == Snapshots(done) + [SnapshotOf(row)]
      && if row.placeId in RowIds(dayRows) then
           && Replaced(kept, day, renewed[..i + 1]) == Overwritten(Replaced(kept, day, done), day, row)
           && Filter(IsNewTo(dayRows), renewed[..i + 1]) == Filter(IsNewTo(dayRows), done)
         else
           && Replaced(kept, day, renewed[..i + 1]) == Replaced(kept, day, done)
           && Filter(IsNewTo(dayRows), renewed[..i + 1]) == Filter(IsNewTo(dayRows), done) + [row]
  {
    var done, row, dayRows := renewed[..i], renewed[i], Filter(OnDay(day), rows);
    assert renewed[..i + 1] == done + [row];
    FilterAppend(IsNewTo(dayRows), done, [row]);
    if row.placeId in RowIds(dayRows) {
      forall j | 0 <= j < i ensures RowIds(done)[j] != row.placeId {
        assert RowIds(renewed)[j] != RowIds(renewed)[i];
      }
      OverwriteNext(kept, day, done, row);
    } else {
      SurvivorsOnDay(rows, day, renewed, row.placeId);
      OverwriteNone(kept, day, done, row);
    }
  }
}
