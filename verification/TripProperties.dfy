/** What one edit does to a stored trip. */
module TripProperties {
  import opened Ordering
  import opened Sequences
  import opened TravelRules
  import opened Protocols
  import opened ScheduleBuilder
  import opened TripValidator
  import opened TripModel
  import opened TripRows
  import opened TripDrafts
  import opened EngineProperties

  // ----- The new rows, and what they read back as

  lemma FreshIsDay(draft: Draft, day: int)
    requires Distinct(StopIds(draft.scheduled))
    ensures DayOf(FreshRows(draft, day), day)
    ensures RowIds(FreshRows(draft, day)) == StopIds(draft.scheduled)
  {
    assert RowIds(FreshRows(draft, day)) == StopIds(draft.scheduled);
  }

  lemma {:induction false} StoredTravelMatches(draft: Draft, day: int, n: nat)
    requires n <= |draft.scheduled|
    ensures StoredTravel(FreshRows(draft, day), n) == TravelInto(draft.scheduled, LegsToLookup(draft.legs), n)
  {
    if n > 0 {
      StoredTravelMatches(draft, day, n - 1);
    }
  }

  /** Store and reload is lossless: the stored rows give back the very plan that was validated. */
  lemma ReadsBack(draft: Draft, day: int, catalog: map<PlaceId, CatalogPlace>)
    requires FromCatalog(draft.scheduled, catalog)
    ensures KnownPlaces(FreshRows(draft, day), catalog)
    ensures PlanFromStored(FreshRows(draft, day), catalog) == PlanFromScheduled(draft.scheduled, draft.legs)
  {
    var renewed := FreshRows(draft, day);
    StoredTravelMatches(draft, day, |draft.scheduled|);
    forall i | 0 <= i < |renewed| ensures renewed[i].placeId in catalog {
    }
    assert PlanFromStored(renewed, catalog).stops == draft.scheduled;
  }

  // ----- The days of a trip

  ghost predicate Ascending(days: seq<int>) {
    forall i, j | 0 <= i < j < |days| :: days[i] < days[j]
  }

  lemma {:induction false} InsertDayAscending(day: int, days: seq<int>)
    requires Ascending(days)
    ensures Ascending(InsertDay(day, days))
    ensures forall d :: d in InsertDay(day, days) <==> d == day || d in days
  {
    if days == [] {
    } else if day < days[0] {
      assert InsertDay(day, days) == [day] + days;
    } else if day > days[0] {
      var rest := InsertDay(day, days[1..]);
      InsertDayAscending(day, days[1..]);
      assert days == [days[0]] + days[1..];
      forall j | 0 <= j < |rest| ensures days[0] < rest[j] {
        assert rest[j] in rest;
        assert rest[j] == day || rest[j] in days[1..];
      }
    }
  }

  lemma {:induction false} DaysPresentIs(rows: seq<Row>)
    ensures Ascending(DaysPresent(rows))
    ensures forall d :: d in DaysPresent(rows) <==> exists r :: r in rows && r.day == d
  {
    if rows != [] {
      DaysPresentIs(rows[1..]);
      InsertDayAscending(rows[0].day, DaysPresent(rows[1..]));
      assert rows == [rows[0]] + rows[1..];
      assert rows[0] in rows;
    }
  }

  lemma TailMembers(a: seq<int>, d: int)
    requires Ascending(a) && a != []
    ensures d in a[1..] <==> d in a && d != a[0]
  {
    assert a == [a[0]] + a[1..];
  }

  lemma {:induction false} AscendingUnique(a: seq<int>, b: seq<int>)
    requires Ascending(a) && Ascending(b) && forall d :: d in a <==> d in b
    ensures a == b
  {
    assert a != [] ==> a[0] in a;
    assert b != [] ==> b[0] in b;
    if a != [] {
      var i :| 0 <= i < |b| && b[i] == a[0];
      var j :| 0 <= j < |a| && a[j] == b[0];
      assert a[0] == b[0];
      forall d ensures d in a[1..] <==> d in b[1..] {
        TailMembers(a, d);
        TailMembers(b, d);
      }
      AscendingUnique(a[1..], b[1..]);
    }
  }

  /** Storing a non-empty day adds that day and no other. */
  lemma DaysAfter(rows: seq<Row>, day: int, renewed: seq<Row>)
    requires Distinct(RowIds(rows)) && DayOf(renewed, day) && renewed != []
    ensures DaysPresent(Persisted(rows, day, renewed)) == InsertDay(day, DaysPresent(rows))
  {
    hide Persisted, DayOf;
    var after := Persisted(rows, day, renewed);
    DaysPresentIs(rows);
    DaysPresentIs(after);
    InsertDayAscending(day, DaysPresent(rows));
    forall d ensures d in DaysPresent(after) <==> d in InsertDay(day, DaysPresent(rows)) {
      DayOfMeans(renewed, day);
      if d == day {
        PersistedMember(rows, day, renewed, renewed[0]);
        assert renewed[0] in after;
      } else if d in DaysPresent(after) {
        var r :| r in after && r.day == d;
        PersistedMember(rows, day, renewed, r);
      } else if d in DaysPresent(rows) {
        var r :| r in rows && r.day == d;
        PersistedMember(rows, day, renewed, r);
      }
    }
    AscendingUnique(DaysPresent(after), InsertDay(day, DaysPresent(rows)));
  }

  // ----- Validation of the edited trip is validation of the stored one

  lemma StoredIsEdited(rows: seq<Row>, day: int, draft: Draft, catalog: map<PlaceId, CatalogPlace>)
    requires KnownPlaces(rows, catalog) && UniquePlaces(rows)
    requires FromCatalog(draft.scheduled, catalog) && Distinct(StopIds(draft.scheduled)) && draft.scheduled != []
    ensures
      var after := Persisted(rows, day, FreshRows(draft, day));
      && KnownPlaces(after, catalog)
      && StoredPlans(after, catalog) == EditedPlans(rows, day, PlanFromScheduled(draft.scheduled, draft.legs), catalog)
  {
    hide Persisted, DayOf, FromCatalog, PlanFromStored, PlanFromScheduled;
    var renewed := FreshRows(draft, day);
    var after := Persisted(rows, day, renewed);
    var plan := PlanFromScheduled(draft.scheduled, draft.legs);
    FreshIsDay(draft, day);
    ReadsBack(draft, day, catalog);
    PersistedKnown(rows, day, renewed, catalog);
    DaysAfter(rows, day, renewed);
    PersistedDay(rows, day, renewed);
    var days := DaysPresent(after);
    forall i | 0 <= i < |days| ensures StoredPlans(after, catalog)[i] == EditedPlans(rows, day, plan, catalog)[i] {
      if days[i] != day {
        DayOfMeans(renewed, day);
        PersistedOtherDay(rows, day, renewed, days[i]);
      }
    }
  }

  lemma PersistedKnown(rows: seq<Row>, day: int, renewed: seq<Row>, catalog: map<PlaceId, CatalogPlace>)
    requires KnownPlaces(rows, catalog) && KnownPlaces(renewed, catalog)
    requires DayOf(renewed, day) && Distinct(RowIds(rows))
    ensures KnownPlaces(Persisted(rows, day, renewed), catalog)
  {
    var after := Persisted(rows, day, renewed);
    forall i | 0 <= i < |after| ensures after[i].placeId in catalog {
      PersistedMember(rows, day, renewed, after[i]);
    }
  }

  lemma {:induction false} AnchorFires(days: seq<DayPlan>, n: nat, i: nat)
    requires i < n <= |days| && !HasAnchor(days[i].stops)
    ensures NoAnchor(i) in AnchorErrors(days, n)
  {
    if i < n - 1 {
      AnchorFires(days, n - 1, i);
    }
  }

  /** An edit that would leave its day empty never passes: the empty day has no anchor. */
  lemma EmptyDayRejected(rows: seq<Row>, day: int, plan: DayPlan, editType: EditType, env: Env)
    requires KnownPlaces(rows, env.catalog) && plan.stops == []
    ensures BlockingErrors(rows, day, plan, editType, env) != Some([])
  {
    hide PlanFromStored, TravelCapErrors, NoRepeatErrors, MorningErrors, GeoErrors, Readable;
    var plans := EditedPlans(rows, day, plan, env.catalog);
    var days := InsertDay(day, DaysPresent(rows));
    DaysPresentIs(rows);
    InsertDayAscending(day, DaysPresent(rows));
    assert day in days;
    var i :| 0 <= i < |days| && days[i] == day;
    assert plans[i] == plan;
    AnchorFires(plans, |plans|, i);
    var result := Validation(plans, env.world.spread);
    if result.Some? {
      AnchorAmong(plans, env.world.spread, NoAnchor(i));
      FilterMembers(IsHardError, result.value.errors, NoAnchor(i));
    }
  }

  lemma AnchorAmong(plans: seq<DayPlan>, spread: GeoSpread, e: ValidationError)
    requires e in AnchorErrors(plans, |plans|) && Validation(plans, spread).Some? && plans != []
    ensures e in Validation(plans, spread).value.errors
  {
  }

  // ----- One edit

  /** Everything an accepted edit does. */
  ghost predicate Accepted(before: Trip, env: Env, edit: Edit, draft: Draft, after: Trip)
    requires KnownPlaces(before.rows, env.catalog)
  {
    && DraftFor(before, env, edit) == Success(draft)
    && after == Stored(before, edit, draft)
    && BlockingErrors(before.rows, edit.day, PlanFromScheduled(draft.scheduled, draft.legs), TypeOf(edit), env)
       == Some([])
  }

  lemma AcceptedDraft(before: Trip, env: Env, user: nat, edit: Edit) returns (draft: Draft)
    requires KnownPlaces(before.rows, env.catalog) && ApplyEdit(before, env, user, edit).Success?
    ensures Accepted(before, env, edit, draft, ApplyEdit(before, env, user, edit).value)
    ensures before.userId == Some(user)
  {
    hide BlockingErrors, DraftFor, Stored;
    draft := DraftFor(before, env, edit).value;
  }

  lemma PartMembers<T>(a: seq<T>, b: seq<T>)
    requires multiset(a) <= multiset(b)
    ensures forall x | x in a :: x in b
  {
    forall x | x in a ensures x in b {
      assert x in multiset(a) && x in multiset(b);
    }
  }

  /** The day an accepted edit leaves behind: never empty, and exactly the new rows. */
  lemma AcceptedDay(before: Trip, env: Env, edit: Edit, draft: Draft, after: Trip)
    requires TripOk(before, env) && Accepted(before, env, edit, draft, after)
    ensures draft.scheduled != []
    ensures FromCatalog(draft.scheduled, env.catalog) && Distinct(StopIds(draft.scheduled))
    ensures DayOf(FreshRows(draft, edit.day), edit.day)
    ensures DayRows(after.rows, edit.day) == FreshRows(draft, edit.day)
    ensures RowIds(DayRows(after.rows, edit.day)) == StopIds(draft.scheduled)
    ensures forall r | r in before.rows && r.day != edit.day :: r.placeId !in StopIds(draft.scheduled)
  {
    hide BlockingErrors, DraftFor, Persisted, DayOf, FromCatalog, RightPlaces;
    DraftIsRight(before, env, edit, draft);
    FreshIsDay(draft, edit.day);
    PersistedDay(before.rows, edit.day, FreshRows(draft, edit.day));
    var ids := PlacesToRoute(before, env, edit).value;
    PartMembers(StopIds(draft.scheduled), ids);
    if draft.scheduled == [] {
      EmptyDayRejected(before.rows, edit.day, PlanFromScheduled(draft.scheduled, draft.legs), TypeOf(edit), env);
    }
  }

  /** The database constraints survive every edit. */
  lemma EditKeepsTripOk(before: Trip, env: Env, user: nat, edit: Edit)
    requires TripOk(before, env) && ApplyEdit(before, env, user, edit).Success?
    ensures TripOk(ApplyEdit(before, env, user, edit).value, env)
  {
    hide ApplyEdit, Accepted, DayOf, FromCatalog, Persisted;
    var after := ApplyEdit(before, env, user, edit).value;
    var draft := AcceptedDraft(before, env, user, edit);
    AcceptedStores(before, env, edit, draft, after);
    AcceptedDay(before, env, edit, draft, after);
    FreshIsDay(draft, edit.day);
    ReadsBack(draft, edit.day, env.catalog);
    PersistedKnown(before.rows, edit.day, FreshRows(draft, edit.day), env.catalog);
    PersistedUnique(before.rows, edit.day, FreshRows(draft, edit.day));
  }

  lemma AcceptedStores(before: Trip, env: Env, edit: Edit, draft: Draft, after: Trip)
    requires KnownPlaces(before.rows, env.catalog) && Accepted(before, env, edit, draft, after)
    ensures after.rows == Persisted(before.rows, edit.day, FreshRows(draft, edit.day))
    ensures after == Stored(before, edit, draft)
  {
  }

  /**
   * The audit log tells the truth about every accepted edit: exactly one event is appended, for the edited
   * day; its `before` and `after` are the day's rows on either side; every other day is untouched.
   */
  lemma EditIsAudited(before: Trip, env: Env, user: nat, edit: Edit)
    requires TripOk(before, env) && ApplyEdit(before, env, user, edit).Success?
    ensures
      var after := ApplyEdit(before, env, user, edit).value;
      && |after.log| == |before.log| + 1 && after.log[..|before.log|] == before.log
      && after.log[|before.log|].editType == TypeOf(edit) && after.log[|before.log|].day == edit.day
      && after.log[|before.log|].before == SnapshotDay(before.rows, edit.day)
      && after.log[|before.log|].after == SnapshotDay(after.rows, edit.day)
      && after.userId == before.userId == Some(user) && after.destinationId == before.destinationId
    ensures forall d | d != edit.day ::
              DayRows(ApplyEdit(before, env, user, edit).value.rows, d) == DayRows(before.rows, d)
  {
    hide ApplyEdit, Accepted, DayOf, FromCatalog, Persisted;
    var after := ApplyEdit(before, env, user, edit).value;
    var draft := AcceptedDraft(before, env, user, edit);
    AcceptedStores(before, env, edit, draft, after);
    AcceptedDay(before, env, edit, draft, after);
    forall d | d != edit.day ensures DayRows(after.rows, d) == DayRows(before.rows, d) {
      DayOfMeans(FreshRows(draft, edit.day), edit.day);
      PersistedOtherDay(before.rows, edit.day, FreshRows(draft, edit.day), d);
    }
  }

  /**
   * Store and reload of a validated trip is lossless: after a remove, add or reoptimize the stored trip
   * passes validation as a whole; after a reorder the only errors it can have are morning-slot ones.
   */
  lemma StoredTripValidates(before: Trip, env: Env, user: nat, edit: Edit)
    requires TripOk(before, env) && ApplyEdit(before, env, user, edit).Success?
    ensures
      var after := ApplyEdit(before, env, user, edit).value;
      && KnownPlaces(after.rows, env.catalog)
      && var result := Validation(StoredPlans(after.rows, env.catalog), env.world.spread);
         && result.Some?
         && (!edit.ReorderStops? ==> result.value.passed)
         && (forall e | e in result.value.errors :: edit.ReorderStops? && IsMorningError(e))
  {
    hide ApplyEdit, DayOf, FromCatalog, Persisted, DraftFor, Stored, EditedPlans, StoredPlans;
    var after := ApplyEdit(before, env, user, edit).value;
    var draft := AcceptedDraft(before, env, user, edit);
    AcceptedStores(before, env, edit, draft, after);
    AcceptedDay(before, env, edit, draft, after);
    StoredIsEdited(before.rows, edit.day, draft, env.catalog);
    var result := Validation(StoredPlans(after.rows, env.catalog), env.world.spread).value;
    forall e | e in result.errors ensures edit.ReorderStops? && IsMorningError(e) {
      FilterMembers(IsHardError, result.errors, e);
    }
  }

  // ----- The places of the edited day

  function DayIds(rows: seq<Row>, day: int): seq<PlaceId> {
    RowIds(DayRows(rows, day))
  }

  /** How many morning-only places a day holds. */
  function DayMorning(rows: seq<Row>, day: int, catalog: map<PlaceId, CatalogPlace>): nat {
    MorningAmong(DayIds(rows, day), catalog)
  }

  lemma {:induction false} ScheduledMorning(scheduled: seq<ScheduledStop>, catalog: map<PlaceId, CatalogPlace>)
    requires FromCatalog(scheduled, catalog)
    ensures MorningStops(scheduled) == MorningAmong(StopIds(scheduled), catalog)
  {
    if scheduled == [] {
      assert StopIds(scheduled) == [];
    } else {
      assert scheduled[0].place == catalog[scheduled[0].place.id].place;
      ScheduledMorning(scheduled[1..], catalog);
      assert StopIds(scheduled) == [scheduled[0].place.id] + StopIds(scheduled[1..]);
      FilterCons(MorningId(catalog), scheduled[0].place.id, StopIds(scheduled[1..]));
    }
  }

  lemma MorningAmongMonotone(a: seq<PlaceId>, b: seq<PlaceId>, catalog: map<PlaceId, CatalogPlace>)
    requires multiset(a) <= multiset(b)
    ensures MorningAmong(a, catalog) <= MorningAmong(b, catalog)
  {
    FilterMonotone(MorningId(catalog), a, b);
  }

  /** The places an add routes: the day's and the new one. */
  lemma MorningAmongAdded(ids: seq<PlaceId>, current: seq<PlaceId>, id: PlaceId, catalog: map<PlaceId, CatalogPlace>)
    requires multiset(ids) == multiset(current) + multiset{id}
    ensures MorningAmong(ids, catalog) == MorningAmong(current, catalog) + if MorningId(catalog)(id) then 1 else 0
  {
    var joined := current + [id];
    assert multiset(joined) == multiset(ids);
    FilterMonotone(MorningId(catalog), ids, joined);
    FilterMonotone(MorningId(catalog), joined, ids);
    FilterAppend(MorningId(catalog), current, [id]);
  }

  /** An add that would put a third morning-only stop on the day. */
  predicate ThirdMorning(rows: seq<Row>, edit: Edit, catalog: map<PlaceId, CatalogPlace>)
    requires edit.AddOne?
  {
    MorningId(catalog)(edit.placeId) && DayMorning(rows, edit.day, catalog) >= 2
  }

  /** What an edit does to the places of its day, given what was there. */
  ghost predicate DayChange(rows: seq<Row>, edit: Edit, current: seq<PlaceId>, now: seq<PlaceId>,
                            catalog: map<PlaceId, CatalogPlace>) {
    match edit
    case ReorderStops(_, placeIds) => now == placeIds && multiset(now) == multiset(current)
    case RemoveOne(_, placeId) => multiset(now) + multiset{placeId} == multiset(current)
    case AddOne(_, placeId) =>
      && multiset(now) <= multiset(current) + multiset{placeId}
      && (multiset(now) == multiset(current) + multiset{placeId} <==> !ThirdMorning(rows, edit, catalog))
      && (ThirdMorning(rows, edit, catalog) ==> |now| == |current|)
    case Reoptimize(_) => multiset(now) == multiset(current)
  }

  lemma RightDayChange(before: Trip, env: Env, edit: Edit, ids: seq<PlaceId>, scheduled: seq<ScheduledStop>)
    requires RightPlaces(edit, DayIds(before.rows, edit.day), ids)
    requires RightSchedule(edit.ReorderStops?, ids, scheduled, env.catalog)
    requires DayMorning(before.rows, edit.day, env.catalog) <= 2
    ensures DayChange(before.rows, edit, DayIds(before.rows, edit.day), StopIds(scheduled), env.catalog)
    ensures MorningAmong(StopIds(scheduled), env.catalog) <= 2
  {
    var current, now := DayIds(before.rows, edit.day), StopIds(scheduled);
    ScheduledMorning(scheduled, env.catalog);
    assert |multiset(ids)| == |ids| && |multiset(current)| == |current| && |multiset(now)| == |now| == |scheduled|;
    match edit {
      case ReorderStops(_, placeIds) => MorningAmongMonotone(ids, current, env.catalog);
      case RemoveOne(_, placeId) => MorningAmongMonotone(ids, current, env.catalog);
      case AddOne(_, placeId) => MorningAmongAdded(ids, current, placeId, env.catalog);
      case Reoptimize(_) =>
    }
  }

  /**
   * Exactly what each accepted edit does to its day, when the day has at most two morning-only stops:
   * reorder gives the requested order, reoptimize keeps the places, remove takes out exactly one, and add
   * inserts exactly one unless it would be a third morning-only stop. The day is never left empty, its
   * orders are 1..n, and it still has at most two morning-only stops.
   */
  lemma EditChangesDay(before: Trip, env: Env, user: nat, edit: Edit)
    requires TripOk(before, env) && ApplyEdit(before, env, user, edit).Success?
    requires DayMorning(before.rows, edit.day, env.catalog) <= 2
    ensures
      var after := ApplyEdit(before, env, user, edit).value;
      var now := DayRows(after.rows, edit.day);
      && DayChange(before.rows, edit, DayIds(before.rows, edit.day), DayIds(after.rows, edit.day), env.catalog)
      && now != []
      && (forall i | 0 <= i < |now| :: now[i].order == i + 1)
      && DayMorning(after.rows, edit.day, env.catalog) <= 2
  {
    hide ApplyEdit, BlockingErrors, DraftFor, Persisted, DayOf, RightPlaces, RightSchedule, DayChange;
    var after := ApplyEdit(before, env, user, edit).value;
    var draft := AcceptedDraft(before, env, user, edit);
    AcceptedDay(before, env, edit, draft, after);
    DraftIsRight(before, env, edit, draft);
    RightDayChange(before, env, edit, PlacesToRoute(before, env, edit).value, draft.scheduled);
  }
}
