/** "HH:MM" wall-clock strings: the format the schedule writes and the validator reads. */
module WallClock {
  import opened Ordering

  const MINUTES_PER_DAY := 24 * 60

  function Digit(d: nat): char
    requires d < 10
  {
    (d + '0' as int) as char
  }

  function TwoDigits(n: nat): string
    requires n < 100
  {
    [Digit(n / 10), Digit(n % 10)]
  }

  function FormatHHMM(totalMin: int): string {
    var t := (if totalMin < 0 then 0 else totalMin) % MINUTES_PER_DAY;
    TwoDigits(t / 60) + ":" + TwoDigits(t % 60)
  }

  /** int(text) on plain decimal digits; anything else is a ValueError. */
  function ParseInt(text: string): Option<nat> {
    if text == [] then None
    else
      var last := text[|text| - 1];
      if !('0' <= last <= '9') then None
      else
        var digit: nat := last as int - '0' as int;
        if |text| == 1 then Some(digit)
        else match ParseInt(text[..|text| - 1])
          case None => None
          case Some(high) => Some(10 * high + digit)
  }

  function Colon(text: string): nat
    ensures Colon(text) <= |text|
  {
    if text == [] || text[0] == ':' then 0 else 1 + Colon(text[1..])
  }

  /** value.split(":") must give exactly two integers. */
  function ParseHHMM(value: string): Option<int> {
    var i := Colon(value);
    if i == |value| then None
    else match (ParseInt(value[..i]), ParseInt(value[i + 1..]))
      case (Some(hours), Some(minutes)) => Some(hours * 60 + minutes)
      case _ => None
  }

  lemma ParseTwoDigits(n: nat)
    requires n < 100
    ensures ParseInt(TwoDigits(n)) == Some(n)
    ensures ':' !in TwoDigits(n)
  {
    var text := TwoDigits(n);
    assert text[..1] == [Digit(n / 10)];
    assert ParseInt(text[..1]) == Some(n / 10);
  }

  /** Reading back a formatted time gives the minute of the day; the hour part wraps at midnight. */
  lemma FormatParse(totalMin: int)
    ensures ParseHHMM(FormatHHMM(totalMin)) == Some((if totalMin < 0 then 0 else totalMin) % MINUTES_PER_DAY)
  {
    var t := (if totalMin < 0 then 0 else totalMin) % MINUTES_PER_DAY;
    var value := FormatHHMM(totalMin);
    ParseTwoDigits(t / 60);
    ParseTwoDigits(t % 60);
    assert value[0] == TwoDigits(t / 60)[0] && value[1] == TwoDigits(t / 60)[1] && value[2] == ':';
    assert value[1..][1..] == value[2..] && Colon(value[2..]) == 0;
    assert Colon(value) == 2;
    assert value[..2] == TwoDigits(t / 60) && value[3..] == TwoDigits(t % 60);
  }

  /** Within one day the round trip is exact. */
  lemma FormatParseWithinDay(minute: int)
    requires 0 <= minute < MINUTES_PER_DAY
    ensures ParseHHMM(FormatHHMM(minute)) == Some(minute)
  {
    FormatParse(minute);
  }
}

/** Wall-clock start times for one day's stops. */
module ScheduleBuilder {
  import opened Ordering
  import opened Sequences
  import opened TravelRules
  import opened Protocols
  import opened WallClock

  datatype ScheduledStop = ScheduledStop(
    place: PlaceCandidate,
    score: real,
    visitDurationMin: nat,
    suggestedStartTime: string,
    arrivalNote: Option<ArrivalNote>)

  datatype ScheduleError = TooFewLegs | MissingLeg(fromId: PlaceId, toId: PlaceId)

  datatype Result<+T, +E> = Success(value: T) | Failure(error: E)

  /** The one note the builder writes. */
  datatype ArrivalNote = LunchBreakBeforeVisit

  /** Up to two morning-only stops first, the rest after them; morning-only stops beyond two are left out. */
  function ExtractMorningFirst(stops: seq<ScoredPlace>): seq<ScoredPlace> {
    var morning := Filter(IsMorning, stops);
    if morning == [] then stops
    else
      var k := if |morning| < 2 then |morning| else 2;
      morning[..k] + Filter(IsOther, stops)
  }

  function RequiredHops(order: seq<ScoredPlace>): seq<(PlaceId, PlaceId)> {
    seq(|order|, i requires 0 <= i < |order| =>
      (if i == 0 then BASE_SENTINEL_ID else order[i - 1].place.id, order[i].place.id))
  }

  // ----- The clock, in minutes after midnight

  datatype Clock = Clock(now: int, lunchTaken: bool)

  datatype Visit = Visit(start: int, end: int, lunchNote: bool)

  /** When a visit starts if the clock reaches the stop at `c`: after lunch if lunch falls here. */
  function VisitStart(c: Clock, minutes: nat): int {
    if !c.lunchTaken && c.now < LUNCH_BREAK_START < c.now + minutes then LUNCH_BREAK_START + LUNCH_BREAK_MIN
    else if !c.lunchTaken && c.now >= LUNCH_BREAK_START then c.now + LUNCH_BREAK_MIN
    else c.now
  }

  predicate LunchFirst(c: Clock, minutes: nat) {
    !c.lunchTaken && (c.now < LUNCH_BREAK_START < c.now + minutes || c.now >= LUNCH_BREAK_START)
  }

  function VisitAt(c: Clock, minutes: nat): Visit {
    Visit(VisitStart(c, minutes), VisitStart(c, minutes) + minutes, LunchFirst(c, minutes))
  }

  function AfterVisit(c: Clock, minutes: nat): Clock {
    Clock(VisitStart(c, minutes) + minutes, c.lunchTaken || LunchFirst(c, minutes))
  }

  /** Travelling to the next stop; a hop that reaches lunch time ends at the end of lunch. */
  function TravelFrom(c: Clock, hop: int): Clock {
    if !c.lunchTaken && c.now < LUNCH_BREAK_START <= c.now + hop then
      Clock(LUNCH_BREAK_START + LUNCH_BREAK_MIN, true)
    else
      Clock(c.now + hop, c.lunchTaken)
  }

  /** The visits from the moment the clock reaches the first of them; hops[0] is already spent. */
  function Timeline(durations: seq<nat>, hops: seq<int>, c: Clock): (visits: seq<Visit>)
    requires |durations| == |hops|
    ensures |visits| == |durations|
  {
    if durations == [] then []
    else
      var visit := VisitAt(c, durations[0]);
      if |durations| == 1 then [visit]
      else [visit] + Timeline(durations[1..], hops[1..], TravelFrom(AfterVisit(c, durations[0]), hops[1]))
  }

  function DayTimeline(durations: seq<nat>, hops: seq<int>): (visits: seq<Visit>)
    requires |durations| == |hops|
    ensures |visits| == |durations|
  {
    if durations == [] then [] else Timeline(durations, hops, Clock(DAY_START + hops[0], false))
  }

  function Durations(order: seq<ScoredPlace>): seq<nat> {
    seq(|order|, i requires 0 <= i < |order| => VisitDurationMin(order[i].place.category))
  }

  ghost predicate HopsKnown(order: seq<ScoredPlace>, lookup: Lookup) {
    forall i | 0 <= i < |order| :: RequiredHops(order)[i] in lookup
  }

  function HopMinutes(order: seq<ScoredPlace>, lookup: Lookup): seq<int>
    requires HopsKnown(order, lookup)
  {
    seq(|order|, i requires 0 <= i < |order| => lookup[RequiredHops(order)[i]].durationMin)
  }

  function Stamp(s: ScoredPlace, v: Visit): ScheduledStop {
    ScheduledStop(s.place, s.score, VisitDurationMin(s.place.category), FormatHHMM(v.start),
                  if v.lunchNote then Some(LunchBreakBeforeVisit) else None)
  }

  function StampAll(order: seq<ScoredPlace>, visits: seq<Visit>): seq<ScheduledStop>
    requires |order| == |visits|
  {
    seq(|order|, i requires 0 <= i < |order| => Stamp(order[i], visits[i]))
  }

  ghost function FirstMissing(hops: seq<(PlaceId, PlaceId)>, lookup: Lookup): Option<(PlaceId, PlaceId)> {
    if hops == [] then None
    else if hops[0] !in lookup then Some(hops[0])
    else FirstMissing(hops[1..], lookup)
  }

  lemma {:induction false} NoneMissing(hops: seq<(PlaceId, PlaceId)>, lookup: Lookup)
    ensures FirstMissing(hops, lookup).None? <==> forall i | 0 <= i < |hops| :: hops[i] in lookup
  {
    if hops != [] {
      NoneMissing(hops[1..], lookup);
      if forall i | 0 <= i < |hops[1..]| :: hops[1..][i] in lookup {
        forall i | 1 <= i < |hops| ensures hops[i] in lookup {
          assert hops[i] == hops[1..][i - 1];
        }
      } else {
        var i :| 0 <= i < |hops[1..]| && hops[1..][i] !in lookup;
        assert hops[i + 1] !in lookup;
      }
    }
  }

  /** What timing a day gives, in the order asked for. */
  ghost function Schedule(orderedStops: seq<ScoredPlace>, routeLegs: seq<RouteLeg>, preserveOrder: bool)
    : Result<seq<ScheduledStop>, ScheduleError>
  {
    if orderedStops == [] then Success([])
    else if |routeLegs| < |orderedStops| then Failure(TooFewLegs)
    else
      var lookup := LegsToLookup(routeLegs);
      var order := if preserveOrder then orderedStops else ExtractMorningFirst(orderedStops);
      NoneMissing(RequiredHops(order), lookup);
      match FirstMissing(RequiredHops(order), lookup)
      case Some(hop) => Failure(MissingLeg(hop.0, hop.1))
      case None => Success(StampAll(order, DayTimeline(Durations(order), HopMinutes(order, lookup))))
  }

  method BuildDaySchedule(orderedStops: seq<ScoredPlace>, routeLegs: seq<RouteLeg>, preserveOrder: bool)
    returns (result: Result<seq<ScheduledStop>, ScheduleError>)
    ensures result == Schedule(orderedStops, routeLegs, preserveOrder)
  {
    if orderedStops == [] {
      return Success([]);
    }
    if |routeLegs| < |orderedStops| {
      return Failure(TooFewLegs);
    }
    var lookup := LegsToLookup(routeLegs);
    var order := if preserveOrder then orderedStops else ExtractMorningFirst(orderedStops);
    var hops := RequiredHops(order);
    for k := 0 to |hops|
      invariant forall i | 0 <= i < k :: hops[i] in lookup
      invariant FirstMissing(hops, lookup) == FirstMissing(hops[k..], lookup)
    {
      if hops[k] !in lookup {
        return Failure(MissingLeg(hops[k].0, hops[k].1));
      }
      assert hops[k..][1..] == hops[k + 1..];
    }
    NoneMissing(hops, lookup);
    var scheduled := TimeStops(order, HopMinutes(order, lookup));
    return Success(scheduled);
  }

  /** Insert lunch before a visit that would cross it, or that begins after it is due. */
  method TakeLunch(clock: int, taken: bool, visit: nat)
    returns (start: int, lunchTaken: bool, note: Option<ArrivalNote>)
    ensures start == VisitStart(Clock(clock, taken), visit)
    ensures Clock(start + visit, lunchTaken) == AfterVisit(Clock(clock, taken), visit)
    ensures note == if LunchFirst(Clock(clock, taken), visit) then Some(LunchBreakBeforeVisit) else None
  {
    start, lunchTaken, note := clock, taken, None;
    if !lunchTaken && clock < LUNCH_BREAK_START < clock + visit {
      start := LUNCH_BREAK_START + LUNCH_BREAK_MIN;
      lunchTaken := true;
      note := Some(LunchBreakBeforeVisit);
    } else if !lunchTaken && clock >= LUNCH_BREAK_START {
      start := clock + LUNCH_BREAK_MIN;
      lunchTaken := true;
      note := Some(LunchBreakBeforeVisit);
    }
  }

  /** Travel to the next stop, taking lunch when the hop reaches it. */
  method Travel(clock: int, taken: bool, travel: int) returns (arrival: int, lunchTaken: bool)
    ensures Clock(arrival, lunchTaken) == TravelFrom(Clock(clock, taken), travel)
  {
    lunchTaken := taken;
    var nextArrival := clock + travel;
    if !lunchTaken && clock < LUNCH_BREAK_START <= nextArrival {
      arrival := LUNCH_BREAK_START + LUNCH_BREAK_MIN;
      lunchTaken := true;
    } else {
      arrival := nextArrival;
    }
  }

  ghost predicate Stamped(scheduled: seq<ScheduledStop>, order: seq<ScoredPlace>, visits: seq<Visit>, i: nat)
    requires i <= |order| == |visits|
  {
    |scheduled| == i && forall j | 0 <= j < i :: scheduled[j] == Stamp(order[j], visits[j])
  }

  lemma StampNext(scheduled: seq<ScheduledStop>, order: seq<ScoredPlace>, visits: seq<Visit>, i: nat,
                  stop: ScheduledStop)
    requires i < |order| == |visits| && Stamped(scheduled, order, visits, i)
    requires stop == Stamp(order[i], visits[i])
    ensures Stamped(scheduled + [stop], order, visits, i + 1)
  {
  }

  /** The timing loop, once every hop is known; travel[i] is the hop into order[i]. */
  method TimeStops(order: seq<ScoredPlace>, travel: seq<int>) returns (scheduled: seq<ScheduledStop>)
    requires order != [] && |travel| == |order|
    ensures scheduled == StampAll(order, DayTimeline(Durations(order), travel))
  {
    ghost var durations := Durations(order);
    ghost var visits := DayTimeline(durations, travel);
    var clock := DAY_START + travel[0];
    var lunchTaken := false;
    scheduled := [];
    assert visits[0..] == visits && durations[0..] == durations && travel[0..] == travel;
    for i := 0 to |order|
      invariant Stamped(scheduled, order, visits, i)
      invariant i < |order| ==> OnTimeline(durations, travel, visits, i, Clock(clock, lunchTaken))
    {
      ghost var arrival := Clock(clock, lunchTaken);
      TimelineStep(durations, travel, visits, i, arrival);
      var visit := VisitDurationMin(order[i].place.category);
      var start, note;
      start, lunchTaken, note := TakeLunch(clock, lunchTaken, visit);
      var stop := ScheduledStop(order[i].place, order[i].score, visit, FormatHHMM(start), note);
      StampNext(scheduled, order, visits, i, stop);
      scheduled := scheduled + [stop];
      clock := start + visit;
      if i + 1 < |order| {
        clock, lunchTaken := Travel(clock, lunchTaken, travel[i + 1]);
        assert Clock(clock, lunchTaken) == TravelFrom(AfterVisit(arrival, durations[i]), travel[i + 1]);
      }
    }
  }

  /** From stop i on, `visits` is what the clock at `c` leads to. */
  ghost predicate OnTimeline(durations: seq<nat>, hops: seq<int>, visits: seq<Visit>, i: nat, c: Clock)
    requires i < |durations| == |hops| == |visits|
  {
    visits[i..] == Timeline(durations[i..], hops[i..], c)
  }

  lemma TimelineStep(durations: seq<nat>, hops: seq<int>, visits: seq<Visit>, i: nat, c: Clock)
    requires i < |durations| == |hops| == |visits|
    requires OnTimeline(durations, hops, visits, i, c)
    ensures visits[i] == VisitAt(c, durations[i])
    ensures i + 1 < |durations| ==>
              OnTimeline(durations, hops, visits, i + 1, TravelFrom(AfterVisit(c, durations[i]), hops[i + 1]))
  {
    assert visits[i] == visits[i..][0];
    if i + 1 < |durations| {
      assert visits[i + 1..] == visits[i..][1..];
      assert durations[i..][1..] == durations[i + 1..] && hops[i..][1..] == hops[i + 1..];
    }
  }
}
