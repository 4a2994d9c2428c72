/** Every planner run ends, for any agent and any tool results, within an explicit number of cycles. */
module PlannerTermination {
  import opened Ordering
  import opened PlannerMachine

  /** The one thing tools may not do: report the code reserved for names that are not registered. */
  ghost predicate PlainOutcome(outcome: Outcome) {
    outcome.Returns? ==> outcome.result.code != Some(UnknownToolCode)
  }

  ghost predicate PlainCalls(calls: seq<Call>) {
    forall i | 0 <= i < |calls| :: PlainOutcome(calls[i].outcome)
  }

  ghost predicate PlainDecision(d: Decision) {
    match d
    case Picks(calls) => calls != [] && PlainCalls(calls)
    case PicksAfterNudge(calls) => calls != [] && PlainCalls(calls)
    case PicksNothing(outcome) => PlainOutcome(outcome)
    case Fails(outcome) => PlainOutcome(outcome)
  }

  // ----- What merging cannot touch

  /** The fields no tool result can write. */
  ghost predicate ControlUnchanged(s: TravelState, t: TravelState) {
    && t.phase == s.phase
    && t.toolLoopCount == s.toolLoopCount
    && t.toolTrace == s.toolTrace
    && t.replanLoopCount == s.replanLoopCount
    && t.maxReplanAttempts == s.maxReplanAttempts
    && t.stuckFingerprint == s.stuckFingerprint
    && t.stuckCycles == s.stuckCycles
  }

  /** Only a list is extended, and only at its end. */
  ghost predicate Grows(s: TravelState, t: TravelState) {
    s.warnings <= t.warnings && s.errors <= t.errors
  }

  lemma MergeKeepsControl(s: TravelState, e: Entry)
    ensures ControlUnchanged(s, Merge(s, e)) && Grows(s, Merge(s, e))
  {
    hide SetKey, ControlUnchanged, Grows;
    if KeyOf(e) in LIST_APPEND_KEYS {
      ExtendKeepsControl(s, e);
    } else if KeyOf(e) in MERGE_KEYS {
      SetKeepsControl(s, e);
    } else {
      NothingKeepsControl(s);
    }
  }

  lemma NothingKeepsControl(s: TravelState)
    ensures ControlUnchanged(s, s) && Grows(s, s)
  {
  }

  lemma ExtendKeepsControl(s: TravelState, e: Entry)
    ensures ControlUnchanged(s, Extend(s, e)) && Grows(s, Extend(s, e))
  {
  }

  lemma SetKeepsControl(s: TravelState, e: Entry)
    requires KeyOf(e) in MERGE_KEYS
    ensures ControlUnchanged(s, SetKey(s, e)) && Grows(s, SetKey(s, e))
  {
    match e
    case CandidatesEntry(_) =>
    case RankedEntry(_) =>
    case RouteEntry(_) =>
    case ScheduleEntry(_) =>
    case ValidationEntry(_) =>
    case LastValidateOkEntry(_) =>
    case ReadinessEntry(_) =>
    case AbortEntry(_) =>
    case PlanCompleteEntry(_) =>
    case NeedsClarificationEntry(_) =>
    case UnreadEntry(_) =>
    case _ => assert false;
  }

  /** Whatever keys a tool's data names, phase, counters, budget, trace and detector state stay as they are. */
  lemma {:induction false} DataNeverWritesControl(s: TravelState, data: seq<Entry>)
    ensures ControlUnchanged(s, MergeAll(s, data)) && Grows(s, MergeAll(s, data))
  {
    hide Merge;
    if data != [] {
      DataNeverWritesControl(s, data[..|data| - 1]);
      MergeKeepsControl(MergeAll(s, data[..|data| - 1]), data[|data| - 1]);
    }
  }

  // ----- Measures

  function NonNeg(x: int): nat {
    if x < 0 then 0 else x
  }

  function Max1(x: int): nat {
    if x < 1 then 1 else x
  }

  /** Tool calls left before the cap. */
  function CallsLeft(s: TravelState, settings: Settings): nat {
    NonNeg(settings.maxToolCalls - s.toolLoopCount)
  }

  function Min(a: nat, b: nat): nat {
    if a < b then a else b
  }

  /**
   * How many times a phase can still be stuck, with `left` replans and `spare` calls left, and a schedule that
   * has stops or not. Going round REPLAN and PLAN once more takes two calls, none of them the last one, and
   * getting to VALIDATE without a schedule takes one.
   */
  function RankOf(phase: Phase, left: nat, spare: nat, scheduled: bool): (rank: nat)
    ensures rank >= 1 && (rank == 1 <==> phase == WrapUp)
  {
    var rounds := Min(NonNeg(left - 1), NonNeg(if scheduled then spare - 1 else spare - 2) / 2);
    match phase
    case Discover => if scheduled || spare >= 2 then 4 + rounds else 3
    case Plan => if scheduled || spare >= 2 then 3 + rounds else 2
    case Validate => 2 + Min(NonNeg(left - 1), NonNeg(spare - 1) / 2)
    case Replan => 2 + Min(left, spare / 2)
    case WrapUp => 1
  }

  /** It never increases. */
  function Rank(s: TravelState, settings: Settings): (rank: nat)
    ensures rank >= 1 && (rank == 1 <==> s.phase == WrapUp)
  {
    RankOf(s.phase, NonNeg(s.maxReplanAttempts - s.replanLoopCount), CallsLeft(s, settings),
           ScheduleHasStops(s.schedule))
  }

  /** The cycles left: each of them uses a call, lowers the rank, or brings the detector closer to its limit. */
  function Potential(s: TravelState, settings: Settings): int {
    (Max1(settings.stuckLimit) - 1) * CallsLeft(s, settings)
    + Max1(settings.stuckLimit) * Rank(s, settings) - s.stuckCycles
  }

  /** Between cycles: nothing counted yet, or the recorded fingerprint is the current one. */
  ghost predicate Boundary(s: TravelState, settings: Settings) {
    && s.stuckCycles < Max1(settings.stuckLimit)
    && (s.stuckCycles == 0 || s.stuckFingerprint == Some(FingerprintOf(s, settings)))
  }

  // ----- One call

  lemma ExecutePlain(s: TravelState, call: Call)
    requires PlainOutcome(call.outcome)
    ensures Counts(call.name, ExecuteTool(s, call)) <==> Registered(call.name)
  {
  }

  /** A call never raises the measures; a registered one below the cap uses up a call. */
  lemma CallMeasures(s: TravelState, call: Call, settings: Settings)
    requires PlainOutcome(call.outcome)
    ensures
      var t := CallStep(s, call, settings);
      && Rank(t, settings) <= Rank(s, settings)
      && t.toolLoopCount == s.toolLoopCount + (if Registered(call.name) then 1 else 0)
      && t.maxReplanAttempts == s.maxReplanAttempts
      && t.stuckCycles == s.stuckCycles && t.stuckFingerprint == s.stuckFingerprint
  {
    hide ExecuteTool, Applied, Transitioned, Rank;
    ExecutePlain(s, call);
    var result := ExecuteTool(s, call);
    AppliedControl(s, call.name, result);
    var applied := Applied(s, call.name, result);
    TransitionFrame(applied, call.name, result, settings);
    if Registered(call.name) {
      TransitionRank(s, applied, call.name, result, settings);
    } else {
      UnregisteredCall(s, call, settings);
    }
  }

  /** Applying a result: the count goes up by one for a counted call, one trace entry is added. */
  lemma AppliedControl(s: TravelState, name: ToolName, result: ToolResult)
    ensures
      var t := Applied(s, name, result);
      && t.phase == s.phase
      && t.toolLoopCount == s.toolLoopCount + (if Counts(name, result) then 1 else 0)
      && t.toolTrace == s.toolTrace + [TraceEntry(name, result.ok, s.phase, result.code)]
      && t.replanLoopCount == s.replanLoopCount && t.maxReplanAttempts == s.maxReplanAttempts
      && t.stuckFingerprint == s.stuckFingerprint && t.stuckCycles == s.stuckCycles
      && s.warnings <= t.warnings
  {
    hide MergeAll;
    DataNeverWritesControl(if Counts(name, result) then s.(toolLoopCount := s.toolLoopCount + 1) else s, result.data);
  }

  /** What no transition and no unsticking writes. */
  ghost predicate SameWork(s: TravelState, t: TravelState) {
    && t.toolLoopCount == s.toolLoopCount && t.toolTrace == s.toolTrace
    && t.maxReplanAttempts == s.maxReplanAttempts
    && t.readinessScore == s.readinessScore && t.candidates == s.candidates && t.ranked == s.ranked
    && t.route == s.route && t.schedule == s.schedule
    && t.validation == s.validation && t.lastValidateOk == s.lastValidateOk
    && t.errors == s.errors && t.stuckFingerprint == s.stuckFingerprint
    && (s.abortTriggered ==> t.abortTriggered)
  }

  function Landing(phase: Phase, move: Move): Phase {
    match move
    case Stay => phase
    case Clarify => phase
    case Advance(next) => next
    case EnterReplan => Replan
    case GiveUp => WrapUp
  }

  /** A move writes phase, abort, replan count and clarification, and nothing else. */
  lemma MoveFrame(s: TravelState, move: Move)
    ensures
      var t := Moved(s, move);
      && SameWork(s, t) && t.phase == Landing(s.phase, move)
      && t.planComplete == s.planComplete && t.warnings == s.warnings && t.stuckCycles == s.stuckCycles
      && t.replanLoopCount == s.replanLoopCount + (if move == EnterReplan then 1 else 0)
      && (move == GiveUp ==> t.abortTriggered)
      && (move != Clarify ==> t.needsClarification == s.needsClarification)
  {
    match move
    case Stay =>
    case Clarify =>
    case Advance(_) =>
    case EnterReplan =>
    case GiveUp =>
  }

  lemma TransitionFrame(s: TravelState, name: ToolName, result: ToolResult, settings: Settings)
    ensures
      var t, move := Transitioned(s, name, result, settings), MoveFor(s, name, result, settings);
      && SameWork(s, t) && t.phase == Landing(s.phase, move)
      && t.planComplete == s.planComplete && t.warnings == s.warnings && t.stuckCycles == s.stuckCycles
      && t.replanLoopCount == s.replanLoopCount + (if move == EnterReplan then 1 else 0)
  {
    hide MoveFor, SameWork, Moved;
    MoveFrame(s, MoveFor(s, name, result, settings));
  }

  /** A counted call: what the transition may gain in phases it has paid for with the call. */
  lemma TransitionRank(s: TravelState, applied: TravelState, name: ToolName, result: ToolResult, settings: Settings)
    requires applied.phase == s.phase && applied.toolLoopCount == s.toolLoopCount + 1
    requires applied.replanLoopCount == s.replanLoopCount && applied.maxReplanAttempts == s.maxReplanAttempts
    ensures Rank(Transitioned(applied, name, result, settings), settings) <= Rank(s, settings)
  {
    hide IsReplanTool, ScheduleHasStops, Transitioned, MoveFor, RankOf;
    var left, spare := NonNeg(s.maxReplanAttempts - s.replanLoopCount), CallsLeft(s, settings);
    var move := MoveFor(applied, name, result, settings);
    TransitionFrame(applied, name, result, settings);
    MovePossible(applied, name, result, settings);
    if move != GiveUp {
      MoveRank(s.phase, left, spare, ScheduleHasStops(s.schedule), ScheduleHasStops(applied.schedule), move);
    }
  }

  lemma MovePossible(s: TravelState, name: ToolName, result: ToolResult, settings: Settings)
    ensures
      var move := MoveFor(s, name, result, settings);
      && (move != GiveUp ==> s.toolLoopCount < settings.maxToolCalls)
      && Possible(s.phase, NonNeg(s.maxReplanAttempts - s.replanLoopCount), move)
  {
    hide IsReplanTool;
  }

  /** The moves of the table, by phase and replans left. */
  predicate Possible(phase: Phase, left: nat, move: Move) {
    match move
    case Stay => true
    case Clarify => phase == Discover
    case GiveUp => true
    case EnterReplan => phase == Validate && left > 0
    case Advance(next) =>
      || (phase == Discover && next == Plan)
      || (phase == Plan && next == Validate)
      || (phase == Validate && next == WrapUp)
      || (phase == Replan && next == WrapUp)
      || (phase == Replan && next == Plan && left > 0)
  }

  /** In numbers: one call fewer, any schedule. */
  lemma MoveRank(phase: Phase, left: nat, spare: nat, scheduled: bool, then': bool, move: Move)
    requires Possible(phase, left, move) && spare >= 2 && move != GiveUp
    ensures RankOf(Landing(phase, move), if move == EnterReplan then left - 1 else left, spare - 1, then')
         <= RankOf(phase, left, spare, scheduled)
  {
  }

  /** A call of an unregistered name changes nothing but the trace, except that it can end an exhausted replan. */
  lemma UnregisteredCall(s: TravelState, call: Call, settings: Settings)
    requires !Registered(call.name)
    ensures
      var t := CallStep(s, call, settings);
      && t.toolLoopCount == s.toolLoopCount
      && Rank(t, settings) <= Rank(s, settings)
      && (!AtCap(s, settings) && t.phase == s.phase ==> t == s.(toolTrace := t.toolTrace))
      && (!AtCap(s, settings) && t.phase != s.phase ==>
            && Rank(t, settings) < Rank(s, settings)
            && s.phase == Replan && t.phase == WrapUp && s.replanLoopCount >= s.maxReplanAttempts)
  {
    hide ScheduleHasStops, RankOf;
    assert MergeAll(s, []) == s;
  }

  // ----- One batch

  predicate AnyRegistered(calls: seq<Call>) {
    exists i | 0 <= i < |calls| :: Registered(calls[i].name)
  }

  lemma {:induction false} BatchMeasures(s: TravelState, calls: seq<Call>, settings: Settings)
    requires PlainCalls(calls)
    ensures
      var t := Batch(s, calls, settings);
      && Rank(t, settings) <= Rank(s, settings)
      && t.toolLoopCount >= s.toolLoopCount
      && (AnyRegistered(calls) ==> t.toolLoopCount > s.toolLoopCount)
      && t.stuckCycles == s.stuckCycles && t.stuckFingerprint == s.stuckFingerprint
  {
    hide Rank, CallStep;
    if calls != [] {
      var front, last := calls[..|calls| - 1], calls[|calls| - 1];
      BatchMeasures(s, front, settings);
      CallMeasures(Batch(s, front, settings), last, settings);
      if AnyRegistered(calls) && !Registered(last.name) {
        var i :| 0 <= i < |calls| && Registered(calls[i].name);
        assert Registered(front[i].name);
      }
    }
  }

  lemma {:induction false} IdleBatch(s: TravelState, calls: seq<Call>, settings: Settings)
    requires !AnyRegistered(calls) && !AtCap(s, settings)
    ensures
      var t := Batch(s, calls, settings);
      && !AtCap(t, settings)
      && (Rank(t, settings) < Rank(s, settings) || (t.phase == s.phase && t == s.(toolTrace := t.toolTrace)))
  {
    hide Rank, CallStep;
    if calls != [] {
      var front, last := calls[..|calls| - 1], calls[|calls| - 1];
      assert !Registered(calls[|calls| - 1].name);
      forall i | 0 <= i < |front| ensures !Registered(front[i].name) {
        assert !Registered(calls[i].name);
      }
      IdleBatch(s, front, settings);
      var u := Batch(s, front, settings);
      UnregisteredCall(u, last, settings);
      var t := Batch(s, calls, settings);
      assert t == CallStep(u, last, settings);
      if u == s.(toolTrace := u.toolTrace) {
        SameButTrace(s, u);
      }
      if t == u.(toolTrace := t.toolTrace) {
        SameButTrace(u, t);
      }
    }
  }

  lemma SameButTrace(s: TravelState, u: TravelState)
    requires u == s.(toolTrace := u.toolTrace)
    ensures forall settings :: Rank(u, settings) == Rank(s, settings)
  {
  }

  // ----- The detector

  /** What unsticking writes: phase, abort, a warning, and in WRAP_UP the end. */
  lemma UnstickFrame(s: TravelState)
    ensures
      var t := Unstick(s);
      && SameWork(s, t) && t.phase == Landing(s.phase, UnstuckMove(s))
      && t.replanLoopCount == s.replanLoopCount && t.stuckCycles == 0
      && t.planComplete == (s.planComplete || s.phase == WrapUp)
      && t.warnings == s.warnings + [UnstuckWarning(s)]
      && t.needsClarification == s.needsClarification
  {
    hide Moved, UnstuckWarning, ScheduleHasStops;
    MoveFrame(s, UnstuckMove(s));
  }

  lemma UnstickAdvances(s: TravelState, settings: Settings)
    ensures
      var t := Unstick(s);
      && t.stuckCycles == 0
      && t.toolLoopCount == s.toolLoopCount && t.maxReplanAttempts == s.maxReplanAttempts
      && (|| (Rank(t, settings) < Rank(s, settings) && t.phase != s.phase)
          || (s.phase == WrapUp && t.phase == WrapUp && t.planComplete && Rank(t, settings) == Rank(s, settings)))
  {
    hide ScheduleHasStops, RankOf, Unstick;
    UnstickFrame(s);
    NextPhaseRank(NonNeg(s.maxReplanAttempts - s.replanLoopCount), CallsLeft(s, settings),
                  ScheduleHasStops(s.schedule));
  }

  lemma NextPhaseRank(left: nat, spare: nat, scheduled: bool)
    ensures RankOf(Plan, left, spare, scheduled) < RankOf(Discover, left, spare, scheduled)
    ensures scheduled ==> RankOf(Validate, left, spare, scheduled) < RankOf(Plan, left, spare, scheduled)
  {
  }

  lemma DetectorStep(s: TravelState, settings: Settings)
    requires s.stuckCycles < Max1(settings.stuckLimit)
    ensures
      var t := Detected(s, settings);
      && Boundary(t, settings)
      && t.toolLoopCount == s.toolLoopCount && t.maxReplanAttempts == s.maxReplanAttempts
      && Rank(t, settings) <= Rank(s, settings)
      && (Final(t) || Rank(t, settings) < Rank(s, settings) || (t.phase == s.phase && t.stuckCycles > 0))
      && (s.stuckFingerprint == Some(FingerprintOf(s, settings)) && t.phase == s.phase && !Final(t) ==>
            t.stuckCycles == s.stuckCycles + 1)
  {
    hide Unstick, Rank;
    var fp := FingerprintOf(s, settings);
    var cycles := if s.stuckFingerprint == Some(fp) then s.stuckCycles + 1 else 1;
    var recorded := s.(stuckFingerprint := Some(fp), stuckCycles := cycles);
    SameRank(s, recorded, settings);
    UnstickAdvances(recorded, settings);
  }

  lemma SameRank(s: TravelState, t: TravelState, settings: Settings)
    requires t.phase == s.phase && t.replanLoopCount == s.replanLoopCount && t.maxReplanAttempts == s.maxReplanAttempts
    requires t.toolLoopCount == s.toolLoopCount && t.schedule == s.schedule
    ensures Rank(t, settings) == Rank(s, settings)
  {
  }

  // ----- One cycle

  lemma PendingPlain(s: TravelState, d: Decision, settings: Settings)
    requires PlainDecision(d)
    ensures PlainCalls(Pending(s, d, settings))
    ensures !AtCap(s, settings) ==> Pending(s, d, settings) != []
  {
  }

  lemma AgentMeasures(s: TravelState, d: Decision, settings: Settings)
    ensures
      var t := Agreed(s, d, settings);
      && Rank(t, settings) <= Rank(s, settings)
      && t.toolLoopCount == s.toolLoopCount && t.maxReplanAttempts == s.maxReplanAttempts
      && t.stuckCycles == s.stuckCycles && t.stuckFingerprint == s.stuckFingerprint
      && (|| Rank(t, settings) < Rank(s, settings)
          || (t.phase == s.phase && FingerprintOf(t, settings) == FingerprintOf(s, settings)))
  {
    hide ScheduleHasStops, RankOf;
  }

  /** A cycle below the cap whose calls are all unregistered names. */
  predicate IdleCycle(s: TravelState, d: Decision, settings: Settings) {
    !AtCap(s, settings) && !AnyRegistered(Pending(s, d, settings))
  }

  /** What a cycle leaves behind, before the detector looks at it. */
  function Executed(s: TravelState, d: Decision, settings: Settings): TravelState {
    Batch(Agreed(s, d, settings), Pending(s, d, settings), settings)
  }

  /** Before the detector: a call was used, the rank fell, or nothing the detector compares has changed. */
  lemma ExecutedMeasures(s: TravelState, d: Decision, settings: Settings)
    requires PlainDecision(d)
    ensures
      var t := Executed(s, d, settings);
      && Rank(t, settings) <= Rank(s, settings) && CallsLeft(t, settings) <= CallsLeft(s, settings)
      && t.stuckCycles == s.stuckCycles && t.stuckFingerprint == s.stuckFingerprint
      && (|| CallsLeft(t, settings) < CallsLeft(s, settings)
          || Rank(t, settings) < Rank(s, settings)
          || (t.phase == s.phase && FingerprintOf(t, settings) == FingerprintOf(s, settings)))
      && (!AtCap(s, settings) && !IdleCycle(s, d, settings) ==> CallsLeft(t, settings) < CallsLeft(s, settings))
  {
    hide Rank, Agreed, Pending;
    var agreed, calls := Agreed(s, d, settings), Pending(s, d, settings);
    AgentMeasures(s, d, settings);
    PendingPlain(s, d, settings);
    BatchMeasures(agreed, calls, settings);
    if AtCap(s, settings) {
      CapEmpties(s, d, settings);
    } else if !AnyRegistered(calls) {
      IdleBatch(agreed, calls, settings);
    }
  }

  lemma CapEmpties(s: TravelState, d: Decision, settings: Settings)
    requires AtCap(s, settings)
    ensures Pending(s, d, settings) == [] && Agreed(s, d, settings).phase == WrapUp
  {
  }

  lemma CycleStep(s: TravelState, d: Decision, settings: Settings)
    requires Boundary(s, settings) && PlainDecision(d)
    ensures
      var t := Cycle(s, d, settings);
      && Boundary(t, settings)
      && CallsLeft(t, settings) <= CallsLeft(s, settings) && Rank(t, settings) <= Rank(s, settings)
      && (Final(t) || Rank(t, settings) < Rank(s, settings) || t.stuckCycles > 0)
      && (|| Final(t)
          || CallsLeft(t, settings) < CallsLeft(s, settings)
          || Rank(t, settings) < Rank(s, settings)
          || (t.phase == s.phase && t.stuckCycles == s.stuckCycles + 1))
  {
    hide Rank, Executed, Detected, FingerprintOf;
    var executed := Executed(s, d, settings);
    assert Cycle(s, d, settings) == Detected(executed, settings) by { CycleIs(s, d, settings); }
    ExecutedMeasures(s, d, settings);
    DetectorStep(executed, settings);
    SameCount(executed, Detected(executed, settings), settings);
    if s.stuckCycles == 0 {
      DetectorFromZero(executed, settings);
    }
  }

  lemma CycleIs(s: TravelState, d: Decision, settings: Settings)
    ensures Cycle(s, d, settings) == Detected(Executed(s, d, settings), settings)
  {
  }

  lemma SameCount(s: TravelState, t: TravelState, settings: Settings)
    requires t.toolLoopCount == s.toolLoopCount
    ensures CallsLeft(t, settings) == CallsLeft(s, settings)
  {
  }

  lemma DetectorFromZero(s: TravelState, settings: Settings)
    requires s.stuckCycles == 0
    ensures
      var t := Detected(s, settings);
      t.phase == s.phase && !Final(t) ==> t.stuckCycles == 1
  {
    hide Unstick, FingerprintOf, Rank;
    var cycles := 1;
    UnstickAdvances(s.(stuckFingerprint := Some(FingerprintOf(s, settings)), stuckCycles := cycles), settings);
  }

  /** Every cycle that does not end the run lowers the potential, which is positive between cycles. */
  lemma CycleDecreases(s: TravelState, d: Decision, settings: Settings)
    requires Boundary(s, settings) && PlainDecision(d)
    ensures Boundary(Cycle(s, d, settings), settings)
    ensures 1 <= Potential(s, settings)
    ensures !Final(Cycle(s, d, settings)) ==> Potential(Cycle(s, d, settings), settings) < Potential(s, settings)
  {
    hide Rank, CallsLeft, Cycle;
    CycleStep(s, d, settings);
    var t, limit := Cycle(s, d, settings), Max1(settings.stuckLimit);
    var calls, calls' := CallsLeft(s, settings), CallsLeft(t, settings);
    var rank, rank' := Rank(s, settings), Rank(t, settings);
    assert (limit - 1) * calls >= 0 && limit * rank >= limit;
    ProductFalls(limit - 1, calls', calls);
    ProductFalls(limit, rank', rank);
  }

  lemma ProductFalls(k: nat, x': nat, x: nat)
    requires x' <= x
    ensures k * x' <= k * x && (x' < x ==> k * x' <= k * x - k)
  {
    if x' < x {
      assert k * x' <= k * (x - 1) == k * x - k;
    }
  }
}
