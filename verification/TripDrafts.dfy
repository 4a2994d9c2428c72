/** What an edit routes and schedules: exactly the places it should, hydrated from the catalog. */
module TripDrafts {
  import opened Ordering
  import opened Sequences
  import opened TravelRules
  import opened Protocols
  import opened RouteOptimizer
  import opened ScheduleBuilder
  import opened ScheduleProperties
  import opened TripValidator
  import opened TravelEngine
  import opened EngineProperties
  import opened TripModel
  import opened TripRows

  // ----- Distinct ids as sets

  lemma {:induction false} DistinctAsSet(ids: seq<PlaceId>)
    ensures |AsSet(ids)| <= |ids|
    ensures |AsSet(ids)| == |ids| <==> Distinct(ids)
    ensures Distinct(ids) ==> multiset(ids) == multiset(AsSet(ids))
  {
    if ids == [] {
      assert AsSet(ids) == {};
    } else {
      var front, last := ids[..|ids| - 1], ids[|ids| - 1];
      DistinctAsSet(front);
      assert ids == front + [last];
      assert AsSet(ids) == AsSet(front) + {last};
      if Distinct(ids) {
        assert last !in AsSet(front);
      } else if Distinct(front) {
        var i :| 0 <= i < |front| && ids[i] == last;
        assert last in AsSet(front);
      }
    }
  }

  /** A list as long as a list of distinct ids, with the same members, is a permutation of it. */
  lemma SameSetPermutes(a: seq<PlaceId>, b: seq<PlaceId>)
    requires Distinct(b) && |a| == |b| && AsSet(a) == AsSet(b)
    ensures Distinct(a) && multiset(a) == multiset(b)
  {
    DistinctAsSet(a);
    DistinctAsSet(b);
  }

  function PlaceOf(r: Row): PlaceId {
    r.placeId
  }

  lemma RowIdsMap(rows: seq<Row>)
    ensures RowIds(rows) == Map(PlaceOf, rows)
  {
    forall i | 0 <= i < |rows| ensures RowIds(rows)[i] == Map(PlaceOf, rows)[i] {
      assert Map(PlaceOf, rows)[i] == PlaceOf(rows[i]);
    }
  }

  lemma CurrentDistinct(rows: seq<Row>, day: int)
    requires UniquePlaces(rows)
    ensures Distinct(RowIds(DayRows(rows, day)))
    ensures forall id | id in RowIds(DayRows(rows, day)) :: id in RowIds(rows)
  {
    var filtered := Filter(OnDay(day), rows);
    FilterDistinct(OnDay(day), rows);
    StableSortPermutes(KeyOrder(RowOrder), filtered);
    MapPermutes(PlaceOf, DayRows(rows, day), filtered);
    RowIdsMap(DayRows(rows, day));
    RowIdsMap(filtered);
    DistinctPart(RowIds(DayRows(rows, day)), RowIds(filtered));
    forall id | id in RowIds(DayRows(rows, day)) ensures id in RowIds(rows) {
      var r := RowOfId(DayRows(rows, day), id);
      DayRowsMember(rows, day, r);
      InRowIds(rows, r);
    }
  }

  lemma {:induction false} WithoutIdRemoves(ids: seq<PlaceId>, id: PlaceId)
    requires Distinct(ids) && id in ids
    ensures multiset(ids) == multiset(WithoutId(ids, id)) + multiset{id}
    ensures |WithoutId(ids, id)| == |ids| - 1
  {
    assert ids == [ids[0]] + ids[1..];
    if ids[0] == id {
      WithoutIdAbsent(ids[1..], id);
    } else {
      WithoutIdRemoves(ids[1..], id);
    }
  }

  lemma {:induction false} WithoutIdAbsent(ids: seq<PlaceId>, id: PlaceId)
    requires forall i | 0 <= i < |ids| :: ids[i] != id
    ensures WithoutId(ids, id) == ids
  {
    if ids != [] {
      WithoutIdAbsent(ids[1..], id);
    }
  }

  /** The places an edit goes on to route, compared with the places the day has now. */
  ghost predicate RightPlaces(edit: Edit, current: seq<PlaceId>, ids: seq<PlaceId>) {
    match edit
    case ReorderStops(_, placeIds) => ids == placeIds && multiset(ids) == multiset(current)
    case RemoveOne(_, placeId) => multiset(current) == multiset(ids) + multiset{placeId} && ids != []
    case AddOne(_, placeId) => multiset(ids) == multiset(current) + multiset{placeId} && placeId !in current
    case Reoptimize(_) => ids == current && ids != []
  }

  lemma RoutedPlaces(trip: Trip, env: Env, edit: Edit)
    requires TripOk(trip, env) && PlacesToRoute(trip, env, edit).Success?
    ensures
      var ids := PlacesToRoute(trip, env, edit).value;
      var current := RowIds(DayRows(trip.rows, edit.day));
      && RightPlaces(edit, current, ids)
      && Distinct(ids) && AllKnown(ids, env.catalog)
      && (forall r | r in trip.rows && r.day != edit.day :: r.placeId !in ids)
  {
    var ids := PlacesToRoute(trip, env, edit).value;
    var current := RowIds(DayRows(trip.rows, edit.day));
    PlacesToRouteKnown(trip, env, edit);
    CurrentDistinct(trip.rows, edit.day);
    match edit {
      case ReorderStops(_, placeIds) => SameSetPermutes(placeIds, current);
      case RemoveOne(_, placeId) => WithoutIdRemoves(current, placeId); DistinctPart(ids, current);
      case AddOne(_, placeId) => DistinctSnoc(current, placeId);
      case Reoptimize(_) =>
    }
    forall r | r in trip.rows && r.day != edit.day ensures r.placeId !in ids {
      if r.placeId in ids {
        assert r.placeId in multiset(ids);
        InRowIds(trip.rows, r);
        assert r.placeId in multiset(current) && r.placeId in current;
        var s := RowOfId(DayRows(trip.rows, edit.day), r.placeId);
        DayRowsMember(trip.rows, edit.day, s);
        SameIdSameRow(trip.rows, r, s);
      }
    }
  }

  lemma DistinctSnoc(ids: seq<PlaceId>, id: PlaceId)
    requires Distinct(ids) && id !in ids
    ensures Distinct(ids + [id])
  {
  }

  lemma SameIdSameRow(rows: seq<Row>, r: Row, s: Row)
    requires UniquePlaces(rows) && r in rows && s in rows && r.placeId == s.placeId
    ensures r == s
  {
    var i :| 0 <= i < |rows| && rows[i] == r;
    var j :| 0 <= j < |rows| && rows[j] == s;
    assert RowIds(rows)[i] == RowIds(rows)[j];
  }

  // ----- The schedule an edit stores

  lemma HydratedDistinct(ids: seq<PlaceId>, catalog: map<PlaceId, CatalogPlace>)
    requires CatalogOk(catalog) && AllKnown(ids, catalog) && Distinct(ids)
    ensures DistinctStops(HydrateAll(ids, catalog))
    ensures Ids(HydrateAll(ids, catalog)) == ids
  {
  }

  /** Every scheduled stop is a catalog place with the edit-time score and a start time. */
  ghost predicate FromCatalog(scheduled: seq<ScheduledStop>, catalog: map<PlaceId, CatalogPlace>) {
    forall i | 0 <= i < |scheduled| ::
      && scheduled[i].place.id in catalog
      && scheduled[i].place == catalog[scheduled[i].place.id].place
      && scheduled[i].score == 1.0
      && scheduled[i].suggestedStartTime != ""
  }

  lemma StampedFromCatalog(order: seq<ScoredPlace>, visits: seq<Visit>, ids: seq<PlaceId>, catalog: map<PlaceId,
                           CatalogPlace>)
    requires |order| == |visits| && CatalogOk(catalog) && AllKnown(ids, catalog)
    requires multiset(order) <= multiset(HydrateAll(ids, catalog))
    ensures FromCatalog(StampAll(order, visits), catalog)
  {
    var stops := StampAll(order, visits);
    StampedReadable(order, visits);
    forall i | 0 <= i < |stops|
      ensures stops[i].place.id in catalog && stops[i].place == catalog[stops[i].place.id].place
      ensures stops[i].score == 1.0
    {
      assert order[i] in multiset(order) && order[i] in multiset(HydrateAll(ids, catalog));
      var j :| 0 <= j < |ids| && HydrateAll(ids, catalog)[j] == order[i];
    }
  }

  function MorningId(catalog: map<PlaceId, CatalogPlace>): PlaceId -> bool {
    (id: PlaceId) => id in catalog && MorningOnly(catalog[id].place.category)
  }

  /** How many of the places are morning-only. */
  function MorningAmong(ids: seq<PlaceId>, catalog: map<PlaceId, CatalogPlace>): nat {
    |Filter(MorningId(catalog), ids)|
  }

  lemma {:induction false} HydratedMorning(ids: seq<PlaceId>, catalog: map<PlaceId, CatalogPlace>)
    requires AllKnown(ids, catalog)
    ensures |Filter(IsMorning, HydrateAll(ids, catalog))| == MorningAmong(ids, catalog)
  {
    if ids != [] {
      HydratedMorning(ids[1..], catalog);
      assert HydrateAll(ids, catalog) == [Hydrate(ids[0], catalog)] + HydrateAll(ids[1..], catalog);
      FilterCons(IsMorning, Hydrate(ids[0], catalog), HydrateAll(ids[1..], catalog));
    }
  }

  /** How the scheduled stops relate to the places routed. */
  ghost predicate RightSchedule(reorder: bool, ids: seq<PlaceId>, scheduled: seq<ScheduledStop>, catalog: map<PlaceId,
                                CatalogPlace>) {
    && FromCatalog(scheduled, catalog)
    && Distinct(StopIds(scheduled))
    && multiset(StopIds(scheduled)) <= multiset(ids)
    && (reorder ==> StopIds(scheduled) == ids)
    && (!reorder && MorningAmong(ids, catalog) <= 2 ==> multiset(StopIds(scheduled)) == multiset(ids))
    && (!reorder && MorningAmong(ids, catalog) > 2 ==> |scheduled| == |ids| - MorningAmong(ids, catalog) + 2)
    && (!reorder ==> MorningStops(scheduled) <= 2)
  }

  predicate MorningStop(s: ScheduledStop) {
    MorningOnly(s.place.category)
  }

  function MorningStops(scheduled: seq<ScheduledStop>): nat {
    |Filter(MorningStop, scheduled)|
  }

  lemma {:induction false} StampedMorning(order: seq<ScoredPlace>, visits: seq<Visit>)
    requires |order| == |visits|
    ensures MorningStops(StampAll(order, visits)) == |Filter(IsMorning, order)|
  {
    if order == [] {
      assert StampAll(order, visits) == [];
    } else {
      StampedMorning(order[1..], visits[1..]);
      assert StampAll(order, visits) == [Stamp(order[0], visits[0])] + StampAll(order[1..], visits[1..]);
      FilterCons(MorningStop, Stamp(order[0], visits[0]), StampAll(order[1..], visits[1..]));
    }
  }

  lemma ScheduleShape(stops: seq<ScoredPlace>, legs: seq<RouteLeg>, preserve: bool) returns (visits: seq<Visit>)
    requires Schedule(stops, legs, preserve).Success?
    ensures
      var order := if preserve then stops else ExtractMorningFirst(stops);
      |visits| == |order| && Schedule(stops, legs, preserve).value == StampAll(order, visits)
  {
    if stops == [] {
      visits := [];
      assert ExtractMorningFirst(stops) == [];
    } else {
      var lookup := LegsToLookup(legs);
      var order := if preserve then stops else ExtractMorningFirst(stops);
      NoneMissing(RequiredHops(order), lookup);
      visits := DayTimeline(Durations(order), HopMinutes(order, lookup));
    }
  }

  lemma ExtractMorningCount(stops: seq<ScoredPlace>)
    ensures |Filter(IsMorning, ExtractMorningFirst(stops))| <= 2
  {
    hide ExtractMorningFirst;
    var order := ExtractMorningFirst(stops);
    forall i | 2 <= i < |order| ensures !IsMorning(order[i]) {
      MorningFirstShape(stops, i);
    }
    MorningInFront(order, 2);
  }

  lemma MorningInFront(order: seq<ScoredPlace>, k: nat)
    requires forall i | k <= i < |order| :: !IsMorning(order[i])
    ensures |Filter(IsMorning, order)| <= k
  {
    if |order| <= k {
      FilterSubset(IsMorning, order);
    } else {
      var front, back := order[..k], order[k..];
      assert order == front + back;
      forall x | x in back ensures !IsMorning(x) {
        var i :| 0 <= i < |back| && back[i] == x;
        assert order[k + i] == x;
      }
      FilterAppend(IsMorning, front, back);
      FilterSubset(IsMorning, front);
      FilterNone(IsMorning, back);
    }
  }

  lemma FixedSchedule(ids: seq<PlaceId>, env: Env, draft: Draft)
    requires CatalogOk(env.catalog) && AllKnown(ids, env.catalog) && Distinct(ids)
    requires FixedDraft(HydrateAll(ids, env.catalog), env.world) == Success(draft)
    ensures RightSchedule(true, ids, draft.scheduled, env.catalog)
  {
    hide Schedule;
    var places := HydrateAll(ids, env.catalog);
    HydratedDistinct(ids, env.catalog);
    if places == [] {
      assert draft.scheduled == [];
      assert StopIds(draft.scheduled) == ids;
    } else {
      var visits := ScheduleShape(places, draft.legs, true);
      StampedFromCatalog(places, visits, ids, env.catalog);
      StampedReadable(places, visits);
    }
  }

  /** When nothing is dropped the optimizer's order is an arrangement of all the places it was given. */
  lemma NothingDropped(places: seq<ScoredPlace>, world: World)
    requires DistinctStops(places)
    requires OptimizedRoute(places, world.baseLat, world.baseLng, world.routing).droppedStops == []
    ensures multiset(OptimizedRoute(places, world.baseLat, world.baseLng, world.routing).ordered) == multiset(places)
  {
    if places != [] {
      var victims, kept := OptimizeRouteExact(places, world.baseLat, world.baseLng, world.routing);
      assert |Dropped(victims)| == |victims|;
      assert multiset(places) == multiset(victims) + multiset(kept);
    }
  }

  lemma OptimizedSchedule(ids: seq<PlaceId>, env: Env, draft: Draft)
    requires CatalogOk(env.catalog) && AllKnown(ids, env.catalog) && Distinct(ids)
    requires OptimizedDraft(HydrateAll(ids, env.catalog), env.world) == Success(draft)
    ensures RightSchedule(false, ids, draft.scheduled, env.catalog)
  {
    HydratedMorning(ids, env.catalog);
    hide Schedule, OptimizedRoute, ExtractMorningFirst, FromCatalog;
    var places := HydrateAll(ids, env.catalog);
    HydratedDistinct(ids, env.catalog);
    NothingDropped(places, env.world);
    var ordered := draft.ordered;
    var order := ExtractMorningFirst(ordered);
    var visits := ScheduleShape(ordered, draft.legs, false);
    MorningFirstSubset(ordered);
    StampedFromCatalog(order, visits, ids, env.catalog);
    StampedReadable(order, visits);
    StampedMorning(order, visits);
    ExtractMorningCount(ordered);
    FilterMonotone(IsMorning, ordered, places);
    FilterMonotone(IsMorning, places, ordered);
    assert |multiset(ordered)| == |ordered| && |multiset(places)| == |places|;
    ReorderedIds(ordered, places, ids);
  }

  /** The ids left after the morning reorder. */
  lemma ReorderedIds(ordered: seq<ScoredPlace>, places: seq<ScoredPlace>, ids: seq<PlaceId>)
    requires multiset(ordered) == multiset(places) && Ids(places) == ids && Distinct(ids)
    ensures
      var order := ExtractMorningFirst(ordered);
      var n := |Filter(IsMorning, ordered)|;
      && multiset(Ids(order)) <= multiset(ids)
      && Distinct(Ids(order))
      && (n <= 2 ==> multiset(Ids(order)) == multiset(ids))
      && (n > 2 ==> |order| == |ordered| - n + 2)
  {
    hide ExtractMorningFirst;
    var order := ExtractMorningFirst(ordered);
    IdsPermute(ordered, places);
    if |Filter(IsMorning, ordered)| <= 2 {
      MorningFirstKeepsAll(ordered);
      IdsPermute(order, ordered);
    } else {
      MorningFirstOmits(ordered);
      var omitted := Filter(IsMorning, ordered)[2..];
      IdsPermute(ordered, order + omitted);
      IdsAppend(order, omitted);
    }
    DistinctPart(Ids(order), ids);
  }

  /** What any successful draft schedules. */
  lemma DraftIsRight(trip: Trip, env: Env, edit: Edit, draft: Draft)
    requires TripOk(trip, env) && DraftFor(trip, env, edit) == Success(draft)
    ensures PlacesToRoute(trip, env, edit).Success?
    ensures
      var ids := PlacesToRoute(trip, env, edit).value;
      && AllKnown(ids, env.catalog)
      && RightPlaces(edit, RowIds(DayRows(trip.rows, edit.day)), ids)
      && RightSchedule(edit.ReorderStops?, ids, draft.scheduled, env.catalog)
      && (forall r | r in trip.rows && r.day != edit.day :: r.placeId !in ids)
  {
    hide FixedDraft, OptimizedDraft, RightPlaces, RightSchedule;
    RoutedPlaces(trip, env, edit);
    var ids := PlacesToRoute(trip, env, edit).value;
    if edit.ReorderStops? {
      FixedSchedule(ids, env, draft);
    } else {
      OptimizedSchedule(ids, env, draft);
    }
  }
}
