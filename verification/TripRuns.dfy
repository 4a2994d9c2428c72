/** Whole histories of edits: the audit log replays the trip, and the trip's invariant holds throughout. */
module TripRuns {
  import opened Ordering
  import opened TravelRules
  import opened TripValidator
  import opened TripModel
  import opened TripProperties

  datatype Request = Request(user: nat, edit: Edit)

  /** One request: an accepted edit changes the trip, a refused one does not. */
  ghost function Step(trip: Trip, env: Env, request: Request): (next: Trip)
    requires TripOk(trip, env)
    ensures TripOk(next, env)
  {
    if ApplyEdit(trip, env, request.user, request.edit).Success? then
      EditKeepsTripOk(trip, env, request.user, request.edit);
      ApplyEdit(trip, env, request.user, request.edit).value
    else trip
  }

  ghost function RunEdits(trip: Trip, env: Env, requests: seq<Request>): (last: Trip)
    requires TripOk(trip, env)
    ensures TripOk(last, env)
  {
    if requests == [] then trip
    else Step(RunEdits(trip, env, requests[..|requests| - 1]), env, requests[|requests| - 1])
  }

  ghost predicate LastAccepted(trip: Trip, env: Env, requests: seq<Request>)
    requires TripOk(trip, env) && requests != []
  {
    var last := requests[|requests| - 1];
    ApplyEdit(RunEdits(trip, env, requests[..|requests| - 1]), env, last.user, last.edit).Success?
  }

  ghost function AcceptedCount(trip: Trip, env: Env, requests: seq<Request>): nat
    requires TripOk(trip, env)
  {
    if requests == [] then 0
    else AcceptedCount(trip, env, requests[..|requests| - 1]) + if LastAccepted(trip, env, requests) then 1 else 0
  }

  // ----- Replaying the log

  /** A day's rows according to the log: what its last event left, or what was there at the start. */
  function Replay(initial: seq<Snapshot>, events: seq<EditEvent>, day: int): seq<Snapshot> {
    if events == [] then initial
    else if events[|events| - 1].day == day then events[|events| - 1].after
    else Replay(initial, events[..|events| - 1], day)
  }

  /** Every event of the day starts from where the events before it left the day. */
  predicate Chained(initial: seq<Snapshot>, events: seq<EditEvent>, day: int) {
    events == [] ||
    (var front, last := events[..|events| - 1], events[|events| - 1];
     Chained(initial, front, day) && (last.day == day ==> last.before == Replay(initial, front, day)))
  }

  function NewEvents(trip: Trip, last: Trip): seq<EditEvent>
    requires |trip.log| <= |last.log|
  {
    last.log[|trip.log|..]
  }

  lemma {:induction false} AuditReplays(trip: Trip, env: Env, requests: seq<Request>, day: int)
    requires TripOk(trip, env)
    ensures
      var last := RunEdits(trip, env, requests);
      && |trip.log| <= |last.log| && last.log[..|trip.log|] == trip.log
      && |NewEvents(trip, last)| == AcceptedCount(trip, env, requests)
      && Replay(SnapshotDay(trip.rows, day), NewEvents(trip, last), day) == SnapshotDay(last.rows, day)
      && Chained(SnapshotDay(trip.rows, day), NewEvents(trip, last), day)
  {
    hide ApplyEdit, SnapshotDay, TripOk;
    if requests != [] {
      var front, request := requests[..|requests| - 1], requests[|requests| - 1];
      AuditReplays(trip, env, front, day);
      var before, last := RunEdits(trip, env, front), RunEdits(trip, env, requests);
      if LastAccepted(trip, env, requests) {
        EditIsAudited(before, env, request.user, request.edit);
        var event := last.log[|before.log|];
        assert NewEvents(trip, last) == NewEvents(trip, before) + [event];
        assert (NewEvents(trip, before) + [event])[..|NewEvents(trip, before)|] == NewEvents(trip, before);
        SnapshotUnchanged(before, last, request.edit.day, day);
      }
    }
  }

  lemma SnapshotUnchanged(before: Trip, last: Trip, edited: int, day: int)
    requires edited != day ==> DayRows(last.rows, day) == DayRows(before.rows, day)
    ensures edited != day ==> SnapshotDay(last.rows, day) == SnapshotDay(before.rows, day)
  {
  }

  // ----- The invariant of every run

  /** Places unique and known, and never more than two morning-only stops on a day. */
  ghost predicate TripInvariant(trip: Trip, env: Env) {
    TripOk(trip, env) && forall d :: DayMorning(trip.rows, d, env.catalog) <= 2
  }

  /** Every run of edits keeps the invariant, and no day that has stops is ever emptied. */
  lemma {:induction false} RunKeepsInvariant(trip: Trip, env: Env, requests: seq<Request>)
    requires TripInvariant(trip, env)
    ensures TripInvariant(RunEdits(trip, env, requests), env)
    ensures forall d | DayRows(trip.rows, d) != [] :: DayRows(RunEdits(trip, env, requests).rows, d) != []
  {
    hide ApplyEdit, DayMorning, TripOk;
    if requests != [] {
      var front, request := requests[..|requests| - 1], requests[|requests| - 1];
      RunKeepsInvariant(trip, env, front);
      var before, last := RunEdits(trip, env, front), RunEdits(trip, env, requests);
      if LastAccepted(trip, env, requests) {
        EditIsAudited(before, env, request.user, request.edit);
        EditChangesDay(before, env, request.user, request.edit);
        forall d ensures DayMorning(last.rows, d, env.catalog) <= 2 {
          if d != request.edit.day {
            MorningUnchanged(before, last, d, env.catalog);
          }
        }
      }
    }
  }

  /** The day's stops are numbered 1, 2, ..., n. */
  predicate Numbered(rows: seq<Row>, day: int) {
    forall i | 0 <= i < |DayRows(rows, day)| :: DayRows(rows, day)[i].order == i + 1
  }

  /** Some accepted edit of the run was of this day. */
  ghost predicate Edited(trip: Trip, env: Env, requests: seq<Request>, day: int)
    requires TripOk(trip, env)
  {
    requests != [] &&
    (|| (LastAccepted(trip, env, requests) && requests[|requests| - 1].edit.day == day)
     || Edited(trip, env, requests[..|requests| - 1], day))
  }

  /** Over any run a numbered day stays numbered, and every edited day is. */
  lemma {:induction false} RunKeepsNumbers(trip: Trip, env: Env, requests: seq<Request>, day: int)
    requires TripInvariant(trip, env)
    ensures Numbered(trip.rows, day) || Edited(trip, env, requests, day) ==>
              Numbered(RunEdits(trip, env, requests).rows, day)
  {
    hide ApplyEdit, TripOk, DayRows, DayMorning, DayChange;
    if requests != [] {
      var front, request := requests[..|requests| - 1], requests[|requests| - 1];
      RunKeepsNumbers(trip, env, front, day);
      var before, last := RunEdits(trip, env, front), RunEdits(trip, env, requests);
      if LastAccepted(trip, env, requests) {
        RunKeepsInvariant(trip, env, front);
        InvariantOnDay(before, env, request.edit.day);
        EditIsAudited(before, env, request.user, request.edit);
        EditChangesDay(before, env, request.user, request.edit);
      }
    }
  }

  lemma InvariantOnDay(trip: Trip, env: Env, day: int)
    requires TripInvariant(trip, env)
    ensures TripOk(trip, env) && DayMorning(trip.rows, day, env.catalog) <= 2
  {
  }

  lemma MorningUnchanged(before: Trip, last: Trip, day: int, catalog: map<PlaceId, CatalogPlace>)
    requires DayRows(last.rows, day) == DayRows(before.rows, day)
    ensures DayMorning(last.rows, day, catalog) == DayMorning(before.rows, day, catalog)
  {
  }

  /** The type of the most recent accepted edit. */
  ghost function LatestEdit(trip: Trip, env: Env, requests: seq<Request>): Option<EditType>
    requires TripOk(trip, env)
  {
    if requests == [] then None
    else if LastAccepted(trip, env, requests) then Some(TypeOf(requests[|requests| - 1].edit))
    else LatestEdit(trip, env, requests[..|requests| - 1])
  }

  /** At any point of a run the stored trip validates, unless the latest accepted edit was a reorder. */
  lemma {:induction false} RunStaysValid(trip: Trip, env: Env, requests: seq<Request>)
    requires TripOk(trip, env) && LatestEdit(trip, env, requests).Some?
    ensures
      var last := RunEdits(trip, env, requests);
      && KnownPlaces(last.rows, env.catalog)
      && var result := Validation(StoredPlans(last.rows, env.catalog), env.world.spread);
         && result.Some?
         && (LatestEdit(trip, env, requests) != Some(Reorder) ==> result.value.passed)
         && (forall e | e in result.value.errors :: IsMorningError(e))
  {
    hide ApplyEdit, StoredPlans, Validation;
    var front, request := requests[..|requests| - 1], requests[|requests| - 1];
    if LastAccepted(trip, env, requests) {
      StoredTripValidates(RunEdits(trip, env, front), env, request.user, request.edit);
    } else {
      RunStaysValid(trip, env, front);
    }
  }
}
