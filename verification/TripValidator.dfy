/** The five itinerary checks. */
module TripValidator {
  import opened Ordering
  import opened Sequences
  import opened TravelRules
  import opened RouteOptimizer
  import opened WallClock
  import opened ScheduleBuilder

  datatype ValidationError =
    | EmptyItinerary
    | TravelCapExceeded(day: nat)
    | RepeatedPlace(id: PlaceId, count: nat)
    | MorningSlotViolation(day: nat, slot: nat)
    | NoAnchor(day: nat)
    | GeoIncoherent(day: nat)

  datatype DayPlan = DayPlan(stops: seq<ScheduledStop>, totalTravelMin: int, droppedStops: seq<DroppedStop>)

  datatype ValidationResult = ValidationResult(passed: bool, droppedWarning: bool, errors: seq<ValidationError>)

  /** Whether a day's stops are too spread out: the coordinate statistics are not modelled. */
  type GeoSpread = seq<ScheduledStop> -> bool

  // ----- What each check reports about the first n days

  function TravelCapErrors(days: seq<DayPlan>, n: nat): seq<ValidationError>
    requires n <= |days|
  {
    if n == 0 then []
    else
      TravelCapErrors(days, n - 1)
      + if days[n - 1].totalTravelMin > MAX_DAILY_TRAVEL_MIN then [TravelCapExceeded(n - 1)] else []
  }

  function StopIds(stops: seq<ScheduledStop>): seq<PlaceId> {
    seq(|stops|, i requires 0 <= i < |stops| => stops[i].place.id)
  }

  /** The place ids of the first n days, in order. */
  function AllIds(days: seq<DayPlan>, n: nat): seq<PlaceId>
    requires n <= |days|
  {
    if n == 0 then [] else AllIds(days, n - 1) + StopIds(days[n - 1].stops)
  }

  /** Counter keys: each id once, where it was first seen. */
  function FirstSeen(ids: seq<PlaceId>): seq<PlaceId> {
    if ids == [] then []
    else
      var front, last := ids[..|ids| - 1], ids[|ids| - 1];
      FirstSeen(front) + if last in front then [] else [last]
  }

  /** The keys, among the first n, that were counted more than once. */
  function RepeatErrors(keys: seq<PlaceId>, n: nat, counts: multiset<PlaceId>): seq<ValidationError>
    requires n <= |keys|
  {
    if n == 0 then []
    else
      RepeatErrors(keys, n - 1, counts)
      + if counts[keys[n - 1]] > 1 then [RepeatedPlace(keys[n - 1], counts[keys[n - 1]])] else []
  }

  function NoRepeatErrors(days: seq<DayPlan>): seq<ValidationError> {
    var ids := AllIds(days, |days|);
    RepeatErrors(FirstSeen(ids), |FirstSeen(ids)|, multiset(ids))
  }

  /** A stop whose start time the morning check can read (it only reads morning-only stops). */
  predicate ReadableStart(stop: ScheduledStop) {
    MorningOnly(stop.place.category) ==> ParseHHMM(stop.suggestedStartTime).Some?
  }

  predicate Readable(days: seq<DayPlan>) {
    forall i, j | 0 <= i < |days| && 0 <= j < |days[i].stops| :: ReadableStart(days[i].stops[j])
  }

  /** Slot is 1-based. */
  predicate LateMorning(stop: ScheduledStop, slot: nat)
    requires ReadableStart(stop)
  {
    MorningOnly(stop.place.category)
    && (slot > 2 || ParseHHMM(stop.suggestedStartTime).value > MORNING_SLOT_LATEST_START)
  }

  function DayMorningErrors(day: nat, stops: seq<ScheduledStop>, n: nat): seq<ValidationError>
    requires n <= |stops| && forall j | 0 <= j < n :: ReadableStart(stops[j])
  {
    if n == 0 then []
    else
      DayMorningErrors(day, stops, n - 1)
      + if LateMorning(stops[n - 1], n) then [MorningSlotViolation(day, n)] else []
  }

  function MorningErrors(days: seq<DayPlan>, n: nat): seq<ValidationError>
    requires n <= |days| && Readable(days)
  {
    if n == 0 then []
    else MorningErrors(days, n - 1) + DayMorningErrors(n - 1, days[n - 1].stops, |days[n - 1].stops|)
  }

  predicate HasAnchor(stops: seq<ScheduledStop>) {
    exists i | 0 <= i < |stops| :: stops[i].score > ANCHOR_MIN_SCORE
  }

  function AnchorErrors(days: seq<DayPlan>, n: nat): seq<ValidationError>
    requires n <= |days|
  {
    if n == 0 then []
    else AnchorErrors(days, n - 1) + if HasAnchor(days[n - 1].stops) then [] else [NoAnchor(n - 1)]
  }

  predicate TooSpread(stops: seq<ScheduledStop>, spread: GeoSpread) {
    |stops| >= 2 && spread(stops)
  }

  function GeoErrors(days: seq<DayPlan>, n: nat, spread: GeoSpread): seq<ValidationError>
    requires n <= |days|
  {
    if n == 0 then []
    else GeoErrors(days, n - 1, spread) + if TooSpread(days[n - 1].stops, spread) then [GeoIncoherent(n - 1)] else []
  }

  predicate AnyDropped(days: seq<DayPlan>) {
    exists i | 0 <= i < |days| :: days[i].droppedStops != []
  }

  /** The result of validation, or None when a start time cannot be read (a ValueError). */
  function Validation(days: seq<DayPlan>, spread: GeoSpread): Option<ValidationResult> {
    if days == [] then Some(ValidationResult(false, false, [EmptyItinerary]))
    else if !Readable(days) then None
    else
      var n := |days|;
      var errors := TravelCapErrors(days, n) + NoRepeatErrors(days) + MorningErrors(days, n)
                    + AnchorErrors(days, n) + GeoErrors(days, n, spread);
      Some(ValidationResult(errors == [], AnyDropped(days), errors))
  }

  // ----- The checks

  method CheckDailyTravelCap(days: seq<DayPlan>) returns (errors: seq<ValidationError>)
    ensures errors == TravelCapErrors(days, |days|)
  {
    errors := [];
    for i := 0 to |days|
      invariant errors == TravelCapErrors(days, i)
    {
      if days[i].totalTravelMin > MAX_DAILY_TRAVEL_MIN {
        errors := errors + [TravelCapExceeded(i)];
      }
    }
  }

  method CheckNoRepeatPlaces(days: seq<DayPlan>) returns (errors: seq<ValidationError>)
    ensures errors == NoRepeatErrors(days)
  {
    var keys, counts := CountIds(days);
    errors := [];
    for k := 0 to |keys|
      invariant errors == RepeatErrors(keys, k, counts)
    {
      if counts[keys[k]] > 1 {
        errors := errors + [RepeatedPlace(keys[k], counts[keys[k]])];
      }
    }
  }

  /** A Counter over `ids`: multiplicities, and the keys in the order they were first seen. */
  ghost predicate Counted(keys: seq<PlaceId>, counts: multiset<PlaceId>, ids: seq<PlaceId>) {
    counts == multiset(ids) && keys == FirstSeen(ids)
  }

  method CountIds(days: seq<DayPlan>) returns (keys: seq<PlaceId>, counts: multiset<PlaceId>)
    ensures Counted(keys, counts, AllIds(days, |days|))
  {
    keys, counts := [], multiset{};
    for i := 0 to |days|
      invariant Counted(keys, counts, AllIds(days, i))
    {
      keys, counts := CountDay(keys, counts, AllIds(days, i), days[i].stops);
    }
  }

  method CountDay(oldKeys: seq<PlaceId>, oldCounts: multiset<PlaceId>, ghost before: seq<PlaceId>,
                  stops: seq<ScheduledStop>)
    returns (keys: seq<PlaceId>, counts: multiset<PlaceId>)
    requires Counted(oldKeys, oldCounts, before)
    ensures Counted(keys, counts, before + StopIds(stops))
  {
    keys, counts := oldKeys, oldCounts;
    ghost var all := StopIds(stops);
    assert before + all[..0] == before;
    for j := 0 to |stops|
      invariant Counted(keys, counts, before + all[..j])
    {
      var id := stops[j].place.id;
      CountNext(keys, counts, before + all[..j], id);
      PrefixNext(before, all, j);
      if id !in keys {
        keys := keys + [id];
      }
      counts := counts + multiset{id};
    }
    assert all[..|stops|] == all;
  }

  lemma CountNext(keys: seq<PlaceId>, counts: multiset<PlaceId>, ids: seq<PlaceId>, id: PlaceId)
    requires Counted(keys, counts, ids)
    ensures Counted(if id in keys then keys else keys + [id], counts + multiset{id}, ids + [id])
  {
    FirstSeenAppend(ids, id);
  }

  lemma {:induction false} FirstSeenIn(ids: seq<PlaceId>, id: PlaceId)
    ensures id in FirstSeen(ids) <==> id in ids
  {
    if ids != [] {
      FirstSeenIn(ids[..|ids| - 1], id);
      assert ids == ids[..|ids| - 1] + [ids[|ids| - 1]];
    }
  }

  lemma FirstSeenAppend(ids: seq<PlaceId>, id: PlaceId)
    ensures FirstSeen(ids + [id]) == if id in FirstSeen(ids) then FirstSeen(ids) else FirstSeen(ids) + [id]
  {
    FirstSeenIn(ids, id);
    assert (ids + [id])[..|ids|] == ids;
  }

  method CheckMorningSlots(days: seq<DayPlan>) returns (errors: Option<seq<ValidationError>>)
    ensures errors == if Readable(days) then Some(MorningErrors(days, |days|)) else None
  {
    var found: seq<ValidationError> := [];
    for i := 0 to |days|
      invariant forall k, l | 0 <= k < i && 0 <= l < |days[k].stops| :: ReadableStart(days[k].stops[l])
      invariant Readable(days) ==> found == MorningErrors(days, i)
    {
      var here := CheckDayMorning(i, days[i].stops);
      if here.None? {
        return None;
      }
      found := found + here.value;
    }
    return Some(found);
  }

  method CheckDayMorning(day: nat, stops: seq<ScheduledStop>) returns (errors: Option<seq<ValidationError>>)
    ensures errors.None? <==> exists j | 0 <= j < |stops| :: !ReadableStart(stops[j])
    ensures errors.Some? ==> errors.value == DayMorningErrors(day, stops, |stops|)
  {
    var found: seq<ValidationError> := [];
    for j := 0 to |stops|
      invariant forall k | 0 <= k < j :: ReadableStart(stops[k])
      invariant found == DayMorningErrors(day, stops, j)
    {
      if MorningOnly(stops[j].place.category) {
        var start := ParseHHMM(stops[j].suggestedStartTime);
        if start.None? {
          assert !ReadableStart(stops[j]);
          return None;
        }
        if j + 1 > 2 || start.value > MORNING_SLOT_LATEST_START {
          found := found + [MorningSlotViolation(day, j + 1)];
        }
      }
    }
    return Some(found);
  }

  method CheckAnchorPerDay(days: seq<DayPlan>) returns (errors: seq<ValidationError>)
    ensures errors == AnchorErrors(days, |days|)
  {
    errors := [];
    for i := 0 to |days|
      invariant errors == AnchorErrors(days, i)
    {
      if !HasAnchor(days[i].stops) {
        errors := errors + [NoAnchor(i)];
      }
    }
  }

  method CheckGeoCoherence(days: seq<DayPlan>, spread: GeoSpread) returns (errors: seq<ValidationError>)
    ensures errors == GeoErrors(days, |days|, spread)
  {
    errors := [];
    for i := 0 to |days|
      invariant errors == GeoErrors(days, i, spread)
    {
      if |days[i].stops| >= 2 && spread(days[i].stops) {
        errors := errors + [GeoIncoherent(i)];
      }
    }
  }

  method ValidateTrip(days: seq<DayPlan>, spread: GeoSpread) returns (result: Option<ValidationResult>)
    ensures result == Validation(days, spread)
  {
    if days == [] {
      return Some(ValidationResult(false, false, [EmptyItinerary]));
    }
    var travel := CheckDailyTravelCap(days);
    var repeats := CheckNoRepeatPlaces(days);
    var morning := CheckMorningSlots(days);
    if morning.None? {
      return None;
    }
    var anchors := CheckAnchorPerDay(days);
    var geo := CheckGeoCoherence(days, spread);
    var errors := travel + repeats + morning.value + anchors + geo;
    return Some(ValidationResult(errors == [], AnyDropped(days), errors));
  }

  // ----- What passing means

  predicate Distinct(ids: seq<PlaceId>) {
    forall i, j | 0 <= i < j < |ids| :: ids[i] != ids[j]
  }

  /** The itinerary a passing validation describes, said without reference to the checks. */
  predicate Acceptable(days: seq<DayPlan>, spread: GeoSpread) {
    && days != []
    && (forall i | 0 <= i < |days| :: days[i].totalTravelMin <= 180)
    && Distinct(AllIds(days, |days|))
    && (forall i | 0 <= i < |days| :: MorningInPlace(days[i].stops))
    && (forall i | 0 <= i < |days| :: Anchored(days[i].stops))
    && (forall i | 0 <= i < |days| :: |days[i].stops| < 2 || !spread(days[i].stops))
  }

  /** Every morning-only stop is first or second and starts by 10:30. */
  predicate MorningInPlace(stops: seq<ScheduledStop>) {
    forall j | 0 <= j < |stops| && MorningOnly(stops[j].place.category) ::
      && j < 2
      && ParseHHMM(stops[j].suggestedStartTime).Some?
      && ParseHHMM(stops[j].suggestedStartTime).value <= 630
  }

  /** Some stop is worth the day. */
  predicate Anchored(stops: seq<ScheduledStop>) {
    exists j | 0 <= j < |stops| :: stops[j].score > 0.7
  }

  lemma InPlaceMeans(stops: seq<ScheduledStop>)
    ensures MorningInPlace(stops)
       <==> forall j | 0 <= j < |stops| :: ReadableStart(stops[j]) && !LateMorning(stops[j], j + 1)
  {
    hide ParseHHMM;
  }

  lemma AnchoredMeans(stops: seq<ScheduledStop>)
    ensures Anchored(stops) <==> HasAnchor(stops)
  {
  }

  lemma {:induction false} TravelCapIff(days: seq<DayPlan>, n: nat)
    requires n <= |days|
    ensures TravelCapErrors(days, n) == [] <==> forall i | 0 <= i < n :: days[i].totalTravelMin <= MAX_DAILY_TRAVEL_MIN
  {
    if n > 0 {
      TravelCapIff(days, n - 1);
    }
  }

  /** The travel check fires exactly on the days over the cap. */
  lemma {:induction false} TravelCapFires(days: seq<DayPlan>, n: nat, i: nat)
    requires n <= |days|
    ensures TravelCapExceeded(i) in TravelCapErrors(days, n) <==> i < n && days[i].totalTravelMin > MAX_DAILY_TRAVEL_MIN
  {
    if n > 0 {
      TravelCapFires(days, n - 1, i);
    }
  }

  lemma {:induction false} RepeatIff(keys: seq<PlaceId>, n: nat, counts: multiset<PlaceId>)
    requires n <= |keys|
    ensures RepeatErrors(keys, n, counts) == [] <==> forall k | 0 <= k < n :: counts[keys[k]] <= 1
  {
    if n > 0 {
      RepeatIff(keys, n - 1, counts);
    }
  }

  lemma {:induction false} CountOnce(ids: seq<PlaceId>)
    ensures Distinct(ids) <==> forall id | id in ids :: multiset(ids)[id] <= 1
  {
    if ids != [] {
      var front, last := ids[..|ids| - 1], ids[|ids| - 1];
      CountOnce(front);
      assert ids == front + [last];
      assert multiset(ids) == multiset(front) + multiset{last};
      if Distinct(ids) {
        assert last !in front;
        assert last !in multiset(front);
        forall id | id in ids ensures multiset(ids)[id] <= 1 {
          if id != last {
            assert id in front;
          }
        }
      } else if Distinct(front) {
        var i :| 0 <= i < |front| && ids[i] == last;
        assert front[i] in multiset(front);
        assert multiset(ids)[last] >= 2;
      } else {
        var id :| id in front && multiset(front)[id] > 1;
        assert id in ids;
      }
    }
  }

  /** The no-repeat check reports nothing exactly when no place occurs twice in the itinerary. */
  lemma NoRepeatIff(days: seq<DayPlan>)
    ensures NoRepeatErrors(days) == [] <==> Distinct(AllIds(days, |days|))
  {
    var ids := AllIds(days, |days|);
    var keys := FirstSeen(ids);
    RepeatIff(keys, |keys|, multiset(ids));
    CountOnce(ids);
    if forall k | 0 <= k < |keys| :: multiset(ids)[keys[k]] <= 1 {
      forall id | id in ids ensures multiset(ids)[id] <= 1 {
        FirstSeenIn(ids, id);
        var k :| 0 <= k < |keys| && keys[k] == id;
      }
    } else {
      var k :| 0 <= k < |keys| && multiset(ids)[keys[k]] > 1;
      FirstSeenIn(ids, keys[k]);
    }
  }

  lemma {:induction false} DayMorningIff(day: nat, stops: seq<ScheduledStop>, n: nat)
    requires n <= |stops| && forall j | 0 <= j < n :: ReadableStart(stops[j])
    ensures DayMorningErrors(day, stops, n) == [] <==> forall j | 0 <= j < n :: !LateMorning(stops[j], j + 1)
  {
    if n > 0 {
      DayMorningIff(day, stops, n - 1);
    }
  }

  lemma {:induction false} MorningIff(days: seq<DayPlan>, n: nat)
    requires n <= |days| && Readable(days)
    ensures MorningErrors(days, n) == [] <==> forall i | 0 <= i < n :: MorningInPlace(days[i].stops)
  {
    hide LateMorning, MorningInPlace;
    if n > 0 {
      MorningIff(days, n - 1);
      var stops := days[n - 1].stops;
      DayMorningIff(n - 1, stops, |stops|);
      InPlaceMeans(stops);
    }
  }

  lemma {:induction false} AnchorIff(days: seq<DayPlan>, n: nat)
    requires n <= |days|
    ensures AnchorErrors(days, n) == [] <==> forall i | 0 <= i < n :: Anchored(days[i].stops)
  {
    if n > 0 {
      AnchorIff(days, n - 1);
      AnchoredMeans(days[n - 1].stops);
    }
  }

  lemma {:induction false} GeoIff(days: seq<DayPlan>, n: nat, spread: GeoSpread)
    requires n <= |days|
    ensures GeoErrors(days, n, spread) == [] <==> forall i | 0 <= i < n :: |days[i].stops| < 2 || !spread(days[i].stops)
  {
    if n > 0 {
      GeoIff(days, n - 1, spread);
    }
  }

  lemma AllEmpty<T>(a: seq<T>, b: seq<T>, c: seq<T>, d: seq<T>, e: seq<T>)
    ensures a + b + c + d + e == [] <==> a == [] && b == [] && c == [] && d == [] && e == []
  {
    assert |a + b + c + d + e| == |a| + |b| + |c| + |d| + |e|;
  }

  lemma AcceptableReadable(days: seq<DayPlan>)
    requires forall i | 0 <= i < |days| :: MorningInPlace(days[i].stops)
    ensures Readable(days)
  {
    hide LateMorning, ParseHHMM;
    forall i, j | 0 <= i < |days| && 0 <= j < |days[i].stops| ensures ReadableStart(days[i].stops[j]) {
      assert MorningInPlace(days[i].stops);
    }
  }

  /** Validation passes exactly on the acceptable itineraries. */
  lemma PassesIffAcceptable(days: seq<DayPlan>, spread: GeoSpread)
    ensures Acceptable(days, spread) <==> Validation(days, spread).Some? && Validation(days, spread).value.passed
  {
    hide MorningInPlace, Anchored, Readable, LateMorning, Distinct;
    var n := |days|;
    if days != [] && Readable(days) {
      TravelCapIff(days, n);
      NoRepeatIff(days);
      MorningIff(days, n);
      AnchorIff(days, n);
      GeoIff(days, n, spread);
      AllEmpty(TravelCapErrors(days, n), NoRepeatErrors(days), MorningErrors(days, n), AnchorErrors(days, n),
               GeoErrors(days, n, spread));
    } else if forall i | 0 <= i < |days| :: MorningInPlace(days[i].stops) {
      AcceptableReadable(days);
    }
  }

  // ----- What each error means

  /** The fact about the itinerary that an error reports. */
  predicate Holds(e: ValidationError, days: seq<DayPlan>, spread: GeoSpread) {
    match e
    case EmptyItinerary => days == []
    case TravelCapExceeded(d) => d < |days| && days[d].totalTravelMin > 180
    case RepeatedPlace(id, count) => count > 1 && multiset(AllIds(days, |days|))[id] == count
    case MorningSlotViolation(d, slot) =>
      && d < |days| && 1 <= slot <= |days[d].stops|
      && var stop := days[d].stops[slot - 1];
         && MorningOnly(stop.place.category)
         && (slot > 2 || (ParseHHMM(stop.suggestedStartTime).Some? && ParseHHMM(stop.suggestedStartTime).value > 630))
    case NoAnchor(d) => d < |days| && forall j | 0 <= j < |days[d].stops| :: days[d].stops[j].score <= 0.7
    case GeoIncoherent(d) => d < |days| && |days[d].stops| >= 2 && spread(days[d].stops)
  }

  lemma {:induction false} TravelCapReports(days: seq<DayPlan>, n: nat, e: ValidationError)
    requires n <= |days|
    ensures e in TravelCapErrors(days, n)
       <==> e.TravelCapExceeded? && e.day < n && days[e.day].totalTravelMin > 180
  {
    if n > 0 {
      TravelCapReports(days, n - 1, e);
    }
  }

  lemma {:induction false} RepeatReports(keys: seq<PlaceId>, n: nat, counts: multiset<PlaceId>, e: ValidationError)
    requires n <= |keys|
    ensures e in RepeatErrors(keys, n, counts)
       <==> e.RepeatedPlace? && e.count > 1 && counts[e.id] == e.count && e.id in keys[..n]
  {
    if n > 0 {
      RepeatReports(keys, n - 1, counts, e);
      assert keys[..n] == keys[..n - 1] + [keys[n - 1]];
    }
  }

  lemma NoRepeatReports(days: seq<DayPlan>, e: ValidationError)
    ensures e in NoRepeatErrors(days)
       <==> e.RepeatedPlace? && e.count > 1 && multiset(AllIds(days, |days|))[e.id] == e.count
  {
    var ids := AllIds(days, |days|);
    var keys := FirstSeen(ids);
    RepeatReports(keys, |keys|, multiset(ids), e);
    assert keys[..|keys|] == keys;
    if e.RepeatedPlace? {
      FirstSeenIn(ids, e.id);
      assert e.id in ids <==> e.id in multiset(ids);
    }
  }

  lemma {:induction false} DayMorningReports(day: nat, stops: seq<ScheduledStop>, n: nat, e: ValidationError)
    requires n <= |stops| && forall j | 0 <= j < n :: ReadableStart(stops[j])
    ensures e in DayMorningErrors(day, stops, n)
       <==> e.MorningSlotViolation? && e.day == day && 1 <= e.slot <= n && LateMorning(stops[e.slot - 1], e.slot)
  {
    hide LateMorning;
    if n > 0 {
      DayMorningReports(day, stops, n - 1, e);
    }
  }

  lemma {:induction false} MorningReports(days: seq<DayPlan>, n: nat, spread: GeoSpread, e: ValidationError)
    requires n <= |days| && Readable(days)
    ensures e in MorningErrors(days, n) <==> e.MorningSlotViolation? && e.day < n && Holds(e, days, spread)
  {
    hide ParseHHMM;
    if n > 0 {
      MorningReports(days, n - 1, spread, e);
      DayMorningReports(n - 1, days[n - 1].stops, |days[n - 1].stops|, e);
    }
  }

  lemma {:induction false} AnchorReports(days: seq<DayPlan>, n: nat, spread: GeoSpread, e: ValidationError)
    requires n <= |days|
    ensures e in AnchorErrors(days, n) <==> e.NoAnchor? && e.day < n && Holds(e, days, spread)
  {
    if n > 0 {
      AnchorReports(days, n - 1, spread, e);
      AnchoredMeans(days[n - 1].stops);
    }
  }

  lemma {:induction false} GeoReports(days: seq<DayPlan>, n: nat, spread: GeoSpread, e: ValidationError)
    requires n <= |days|
    ensures e in GeoErrors(days, n, spread) <==> e.GeoIncoherent? && e.day < n && Holds(e, days, spread)
  {
    if n > 0 {
      GeoReports(days, n - 1, spread, e);
    }
  }

  /** Validation reports exactly what is wrong: an error is in the list if and only if what it says holds. */
  lemma ReportedIffHolds(days: seq<DayPlan>, spread: GeoSpread, e: ValidationError)
    requires Validation(days, spread).Some?
    ensures e in Validation(days, spread).value.errors <==> Holds(e, days, spread)
  {
    hide ParseHHMM, MorningErrors, AnchorErrors, GeoErrors, NoRepeatErrors, TravelCapErrors;
    if days != [] {
      TravelCapReports(days, |days|, e);
      NoRepeatReports(days, e);
      MorningReports(days, |days|, spread, e);
      AnchorReports(days, |days|, spread, e);
      GeoReports(days, |days|, spread, e);
    }
  }

  /** Drops are warned about exactly when some day dropped something, whether or not the itinerary passes. */
  lemma WarnsIffDropped(days: seq<DayPlan>, spread: GeoSpread)
    requires days != [] && Validation(days, spread).Some?
    ensures Validation(days, spread).value.droppedWarning
       <==> exists i, d | 0 <= i < |days| :: d in days[i].droppedStops
  {
    hide Readable, TravelCapErrors, NoRepeatErrors, MorningErrors, AnchorErrors, GeoErrors;
    if i :| 0 <= i < |days| && days[i].droppedStops != [] {
      assert days[i].droppedStops[0] in days[i].droppedStops;
    }
  }
}
