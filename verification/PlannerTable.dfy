/** The planner's tables, edge by edge: who may run, what is merged, where each call and each wait leads. */
module PlannerTable {
  import opened Ordering
  import opened TripValidator
  import opened TravelEngine
  import opened PlannerMachine
  import opened PlannerTermination
  import opened PlannerSafety

  // ----- Who may run

  /** The tools offered to the model in each phase. */
  function PhaseTools(phase: Phase): seq<ToolName> {
    match phase
    case Discover => [CheckReadiness, SearchPlaces, RankPlaces, AskClarification]
    case Plan => [BuildRouteTool, BuildScheduleTool]
    case Validate => [ValidateTool]
    case Replan => [ReoptimizeRoutes, DropWeakestStop, ExpandPoiSearch, AcceptPartial]
    case WrapUp => [FinishPlan]
  }

  /** The offer and the gate agree: a tool is offered in a phase exactly when the registry allows it there. */
  lemma OfferedIffAllowed(name: ToolName, phase: Phase)
    ensures name in PhaseTools(phase) <==> Registered(name) && PhaseOf(name) == phase
  {
  }

  /**
   * Exactly when a tool's function runs: when it is offered in the current phase and, for finish_plan, after an
   * abort or a validation. Anything else is refused without data.
   */
  lemma RunsIffOffered(s: TravelState, call: Call)
    ensures
      var result := ExecuteTool(s, call);
      if call.name.UnregisteredTool? then result == ToolResult(false, Some(UnknownToolCode), [])
      else if call.name in PhaseTools(s.phase)
              && (call.name == FinishPlan ==>
                    s.abortTriggered || s.lastValidateOk || (s.validation.Some? && s.validation.value.passed))
      then result == if call.outcome.Returns? then call.outcome.result else ToolResult(false, Some(ToolError), [])
      else result == ToolResult(false, Some(PreconditionFailed), [])
  {
    OfferedIffAllowed(call.name, s.phase);
  }

  // ----- What is merged

  /** The value a state holds for a key that tools may set. */
  function Held(s: TravelState, key: Key): Entry {
    match key
    case CandidatesKey => CandidatesEntry(s.candidates)
    case RankedKey => RankedEntry(s.ranked)
    case RouteKey => RouteEntry(s.route)
    case ScheduleKey => ScheduleEntry(s.schedule)
    case ValidationKey => ValidationEntry(s.validation)
    case LastValidateOkKey => LastValidateOkEntry(s.lastValidateOk)
    case ReadinessKey => ReadinessEntry(s.readinessScore)
    case AbortKey => AbortEntry(s.abortTriggered)
    case PlanCompleteKey => PlanCompleteEntry(s.planComplete)
    case NeedsClarificationKey => NeedsClarificationEntry(s.needsClarification)
    case _ => UnreadEntry("")
  }

  /** The last entry for a key, if there is any. */
  function LastOf(data: seq<Entry>, key: Key, otherwise: Entry): Entry {
    if data == [] then otherwise
    else
      var last := data[|data| - 1];
      if KeyOf(last) == key then last else LastOf(data[..|data| - 1], key, otherwise)
  }

  function AllWarnings(data: seq<Entry>): seq<Warning> {
    if data == [] then []
    else
      var last := data[|data| - 1];
      AllWarnings(data[..|data| - 1]) + if last.WarningsEntry? then last.warnings else []
  }

  function AllErrors(data: seq<Entry>): seq<ValidationError> {
    if data == [] then []
    else
      var last := data[|data| - 1];
      AllErrors(data[..|data| - 1]) + if last.ErrorsEntry? then last.errors else []
  }

  /** The keys above, which tools set and the state holds. */
  predicate Settable(key: Key) {
    key in {CandidatesKey, RankedKey, RouteKey, ScheduleKey, ValidationKey, LastValidateOkKey, ReadinessKey,
            AbortKey, PlanCompleteKey, NeedsClarificationKey}
  }

  lemma SetHolds(s: TravelState, e: Entry, key: Key)
    requires Settable(key) && KeyOf(e) in MERGE_KEYS
    ensures Held(SetKey(s, e), key) == if KeyOf(e) == key then e else Held(s, key)
  {
    match e
    case CandidatesEntry(_) =>
    case RankedEntry(_) =>
    case RouteEntry(_) =>
    case ScheduleEntry(_) =>
    case ValidationEntry(_) =>
    case LastValidateOkEntry(_) =>
    case ReadinessEntry(_) =>
    case AbortEntry(_) =>
    case PlanCompleteEntry(_) =>
    case NeedsClarificationEntry(_) =>
    case UnreadEntry(_) =>
    case _ => assert false;
  }

  lemma ExtendHolds(s: TravelState, e: Entry, key: Key)
    requires Settable(key) && KeyOf(e) in LIST_APPEND_KEYS
    ensures Held(Extend(s, e), key) == Held(s, key)
  {
  }

  lemma MergeHolds(s: TravelState, e: Entry, key: Key)
    requires Settable(key)
    ensures Held(Merge(s, e), key) == if KeyOf(e) == key then e else Held(s, key)
  {
    hide SetKey, Extend, Held, KeyOf;
    if KeyOf(e) in LIST_APPEND_KEYS {
      ExtendHolds(s, e, key);
    } else if KeyOf(e) in MERGE_KEYS {
      SetHolds(s, e, key);
    }
  }

  /** After a merge each key tools may set holds the last value offered for it, or what it held before. */
  lemma {:induction false} LastWriteWins(s: TravelState, data: seq<Entry>, key: Key)
    requires Settable(key)
    ensures Held(MergeAll(s, data), key) == LastOf(data, key, Held(s, key))
  {
    hide Merge, Held, KeyOf, Settable;
    if data != [] {
      LastWriteWins(s, data[..|data| - 1], key);
      MergeHolds(MergeAll(s, data[..|data| - 1]), data[|data| - 1], key);
    }
  }

  lemma MergeLists(s: TravelState, e: Entry)
    ensures Merge(s, e).warnings == s.warnings + if e.WarningsEntry? then e.warnings else []
    ensures Merge(s, e).errors == s.errors + if e.ErrorsEntry? then e.errors else []
  {
    assert s.warnings + [] == s.warnings && s.errors + [] == s.errors;
  }

  /** Warnings and errors are appended in order, none lost. */
  lemma {:induction false} ListsAppend(s: TravelState, data: seq<Entry>)
    ensures MergeAll(s, data).warnings == s.warnings + AllWarnings(data)
    ensures MergeAll(s, data).errors == s.errors + AllErrors(data)
  {
    hide Merge;
    if data == [] {
      assert s.warnings + [] == s.warnings && s.errors + [] == s.errors;
    } else {
      ListsAppend(s, data[..|data| - 1]);
      MergeLists(MergeAll(s, data[..|data| - 1]), data[|data| - 1]);
    }
  }

  // ----- Where a call leads

  /** The call's own entry in the trace it leaves. */
  function OwnEntry(t: TravelState): TraceEntry
    requires t.toolTrace != []
  {
    t.toolTrace[|t.toolTrace| - 1]
  }

  predicate Exhausted(s: TravelState) {
    s.replanLoopCount >= s.maxReplanAttempts
  }

  /**
   * Below the cap: the phase after a call, by the phase before it, whether the replan budget is used up, and the
   * call's name and verdict.
   */
  predicate Edge(before: Phase, after: Phase, exhausted: bool, name: ToolName, ok: bool) {
    match before
    case Discover =>
      && (after == Plan <==> name == RankPlaces && ok)
      && (after != Plan ==> after == Discover)
    case Plan =>
      && (after == Validate <==> name == BuildScheduleTool && ok)
      && (after != Validate ==> after == Plan)
    case Validate =>
      && (after == WrapUp <==> name == ValidateTool && (ok || exhausted))
      && (after == Replan <==> name == ValidateTool && !ok && !exhausted)
      && (after != WrapUp && after != Replan ==> after == Validate)
    case Replan =>
      && (after == WrapUp <==> (name == AcceptPartial && ok) || exhausted)
      && (after == Plan <==> name in {ReoptimizeRoutes, DropWeakestStop, ExpandPoiSearch} && ok && !exhausted)
      && (after != WrapUp && after != Plan ==> after == Replan)
    case WrapUp => after == WrapUp
  }

  /** Whether the transition gives up: a failed validation, or a replan, with no budget left. */
  predicate GivesUp(phase: Phase, exhausted: bool, name: ToolName, ok: bool) {
    || (phase == Validate && name == ValidateTool && !ok && exhausted)
    || (phase == Replan && !(name == AcceptPartial && ok) && exhausted)
  }

  predicate AsksClarification(phase: Phase, name: ToolName, ok: bool) {
    phase == Discover && name == AskClarification && ok
  }

  lemma MoveEdge(s: TravelState, name: ToolName, result: ToolResult, settings: Settings)
    requires s.toolLoopCount < settings.maxToolCalls
    ensures
      var move := MoveFor(s, name, result, settings);
      && Edge(s.phase, Landing(s.phase, move), Exhausted(s), name, result.ok)
      && (move == GiveUp <==> GivesUp(s.phase, Exhausted(s), name, result.ok))
      && (move == Clarify <==> AsksClarification(s.phase, name, result.ok))
      && (move == EnterReplan <==> s.phase == Validate && Landing(s.phase, move) == Replan)
  {
    match s.phase
    case Discover =>
    case Plan =>
    case Validate =>
    case Replan =>
    case WrapUp =>
  }

  lemma MoveFlags(s: TravelState, move: Move)
    ensures Moved(s, move).abortTriggered == (s.abortTriggered || move == GiveUp)
    ensures Moved(s, move).needsClarification == (s.needsClarification || move == Clarify)
  {
    match move
    case Stay =>
    case Clarify =>
    case Advance(_) =>
    case EnterReplan =>
    case GiveUp =>
  }

  lemma TransitionEdge(s: TravelState, name: ToolName, result: ToolResult, settings: Settings)
    requires s.toolLoopCount < settings.maxToolCalls
    ensures
      var t := Transitioned(s, name, result, settings);
      && Edge(s.phase, t.phase, Exhausted(s), name, result.ok)
      && t.abortTriggered == (s.abortTriggered || GivesUp(s.phase, Exhausted(s), name, result.ok))
      && t.needsClarification == (s.needsClarification || AsksClarification(s.phase, name, result.ok))
      && t.replanLoopCount == s.replanLoopCount + (if s.phase == Validate && t.phase == Replan then 1 else 0)
  {
    hide MoveFor, Moved, Edge, GivesUp, AsksClarification, Landing;
    TransitionFrame(s, name, result, settings);
    MoveEdge(s, name, result, settings);
    MoveFlags(s, MoveFor(s, name, result, settings));
  }

  /**
   * The transition table about whole calls, in both directions. Below the cap, the phase after a call follows
   * from the phase before it and the name and verdict in the call's own trace entry; a call aborts exactly when
   * it gives up, unless its data says so; it asks for clarification exactly when ask_clarification succeeds in
   * DISCOVER, unless its data says so; and the replan count goes up exactly on the way from VALIDATE to REPLAN.
   */
  lemma CallEdges(s: TravelState, call: Call, settings: Settings)
    requires CallStep(s, call, settings).toolLoopCount < settings.maxToolCalls
    ensures
      var t, data := CallStep(s, call, settings), ExecuteTool(s, call).data;
      && t.toolTrace != [] && OwnEntry(t).name == call.name && OwnEntry(t).ok == ExecuteTool(s, call).ok
      && Edge(s.phase, t.phase, Exhausted(s), OwnEntry(t).name, OwnEntry(t).ok)
      && ((forall i | 0 <= i < |data| :: !data[i].AbortEntry?) ==>
            t.abortTriggered
            == (s.abortTriggered || GivesUp(s.phase, Exhausted(s), OwnEntry(t).name, OwnEntry(t).ok)))
      && ((forall i | 0 <= i < |data| :: !data[i].NeedsClarificationEntry?) ==>
            t.needsClarification
            == (s.needsClarification || AsksClarification(s.phase, OwnEntry(t).name, OwnEntry(t).ok)))
      && t.replanLoopCount == s.replanLoopCount + (if s.phase == Validate && t.phase == Replan then 1 else 0)
  {
    hide ExecuteTool, Applied, Transitioned, LastOf, Edge, GivesUp, AsksClarification;
    var result := ExecuteTool(s, call);
    var applied := Applied(s, call.name, result);
    CallTrace(s, call, settings);
    AppliedControl(s, call.name, result);
    TransitionFrame(applied, call.name, result, settings);
    TransitionEdge(applied, call.name, result, settings);
    FlagsKept(s, call.name, result);
  }

  /** Without an entry for a key, applying a result leaves what is held for it alone. */
  lemma KeyKept(s: TravelState, name: ToolName, result: ToolResult, key: Key)
    requires Settable(key) && forall i | 0 <= i < |result.data| :: KeyOf(result.data[i]) != key
    ensures Held(Applied(s, name, result), key) == Held(s, key)
  {
    hide MergeAll, LastOf, KeyOf;
    var counted := if Counts(name, result) then s.(toolLoopCount := s.toolLoopCount + 1) else s;
    LastWriteWins(counted, result.data, key);
    NoEntry(result.data, key, Held(counted, key));
  }

  lemma FlagsKept(s: TravelState, name: ToolName, result: ToolResult)
    ensures (forall i | 0 <= i < |result.data| :: !result.data[i].AbortEntry?) ==>
              Applied(s, name, result).abortTriggered == s.abortTriggered
    ensures (forall i | 0 <= i < |result.data| :: !result.data[i].NeedsClarificationEntry?) ==>
              Applied(s, name, result).needsClarification == s.needsClarification
  {
    hide Applied;
    if forall i | 0 <= i < |result.data| :: !result.data[i].AbortEntry? {
      KeyKept(s, name, result, AbortKey);
    }
    if forall i | 0 <= i < |result.data| :: !result.data[i].NeedsClarificationEntry? {
      KeyKept(s, name, result, NeedsClarificationKey);
    }
  }

  lemma {:induction false} NoEntry(data: seq<Entry>, key: Key, otherwise: Entry)
    requires forall i | 0 <= i < |data| :: KeyOf(data[i]) != key
    ensures LastOf(data, key, otherwise) == otherwise
  {
    hide KeyOf;
    if data != [] {
      NoEntry(data[..|data| - 1], key, otherwise);
    }
  }

  // ----- Where waiting leads

  function FirstFive(s: TravelState): seq<ValidationError> {
    if s.validation.None? then []
    else
      var errors := s.validation.value.errors;
      if |errors| <= 5 then errors else errors[..5]
  }

  /** The same phase, as many candidates, ranked places, route and schedule days, and the same first errors. */
  predicate SameProgress(s: TravelState, t: TravelState, settings: Settings) {
    && s.phase == t.phase
    && |s.candidates| == |t.candidates| && |s.ranked| == |t.ranked|
    && |s.route| == |t.route| && |s.schedule| == |t.schedule|
    && settings.render(FirstFive(s)) == settings.render(FirstFive(t))
  }

  lemma FingerprintIff(s: TravelState, t: TravelState, settings: Settings)
    ensures FingerprintOf(s, settings) == FingerprintOf(t, settings) <==> SameProgress(s, t, settings)
  {
  }

  /** The detector counts on exactly when nothing it looks at has changed since the state it last saw. */
  lemma CountsRepeats(last: TravelState, s: TravelState, settings: Settings)
    requires s.stuckFingerprint == Some(FingerprintOf(last, settings))
    requires s.stuckCycles + 1 < settings.stuckLimit
    ensures
      var t := Detected(s, settings);
      && t.stuckCycles == (if SameProgress(last, s, settings) then s.stuckCycles + 1 else 1)
      && t.phase == s.phase && t.warnings == s.warnings && t.planComplete == s.planComplete
  {
    hide FingerprintOf, SameProgress;
    FingerprintIff(last, s, settings);
  }

  /** Where a phase that is stuck goes, whether it aborts, and the warning it leaves. */
  predicate StuckEdge(before: Phase, noPois: bool, noStops: bool, after: Phase, aborts: bool, warning: Warning) {
    match before
    case Discover =>
      if noPois then after == WrapUp && aborts && warning == PhaseStuckDiscoverNoPois
      else after == Plan && !aborts && warning == PhaseStuckAutoAdvance
    case Plan =>
      if noStops then after == WrapUp && aborts && warning == PhaseStuckPlanNoSchedule
      else after == Validate && !aborts && warning == PhaseStuckAutoAdvance
    case Validate => after == WrapUp && !aborts && warning == PhaseStuckAutoAdvance
    case Replan => after == WrapUp && aborts && warning == PhaseStuckReplanAbort
    case WrapUp => after == WrapUp && !aborts && warning == PhaseStuckWrapUpForceComplete
  }

  predicate NoStops(schedule: seq<ScheduleDay>) {
    forall i | 0 <= i < |schedule| :: schedule[i].stops == []
  }

  lemma UnstuckEdge(s: TravelState)
    ensures
      var move := UnstuckMove(s);
      && StuckEdge(s.phase, s.candidates == [], NoStops(s.schedule), Landing(s.phase, move), move == GiveUp,
                   UnstuckWarning(s))
      && move != Clarify && move != EnterReplan
  {
    match s.phase
    case Discover =>
    case Plan =>
    case Validate =>
    case Replan =>
    case WrapUp =>
  }

  lemma UnstickEdge(s: TravelState)
    ensures
      var t, aborts := Unstick(s), UnstuckMove(s) == GiveUp;
      && StuckEdge(s.phase, s.candidates == [], NoStops(s.schedule), t.phase, aborts, UnstuckWarning(s))
      && t.abortTriggered == (s.abortTriggered || aborts)
      && t.warnings == s.warnings + [UnstuckWarning(s)] && t.stuckCycles == 0
      && t.planComplete == (s.planComplete || s.phase == WrapUp)
      && t.needsClarification == s.needsClarification
  {
    hide Moved, UnstuckMove, UnstuckWarning, StuckEdge, NoStops, Landing;
    UnstuckEdge(s);
    MoveFrame(s, UnstuckMove(s));
    MoveFlags(s, UnstuckMove(s));
  }

  /** At the limit each phase is pushed on, ended or completed, with one warning that says which. */
  lemma StuckEdges(s: TravelState, settings: Settings)
    requires (if s.stuckFingerprint == Some(FingerprintOf(s, settings)) then s.stuckCycles + 1 else 1)
          >= settings.stuckLimit
    ensures
      var t := Detected(s, settings);
      && |t.warnings| == |s.warnings| + 1 && s.warnings <= t.warnings
      && StuckEdge(s.phase, s.candidates == [], NoStops(s.schedule), t.phase,
                   s.phase == Replan || (s.phase == Discover && s.candidates == [])
                   || (s.phase == Plan && NoStops(s.schedule)), t.warnings[|s.warnings|])
      && t.abortTriggered == (s.abortTriggered || s.phase == Replan || (s.phase == Discover && s.candidates == [])
                              || (s.phase == Plan && NoStops(s.schedule)))
      && t.planComplete == (s.planComplete || s.phase == WrapUp)
      && t.needsClarification == s.needsClarification && t.stuckCycles == 0
  {
    hide FingerprintOf, Unstick, UnstuckMove, UnstuckWarning, NoStops;
    var recorded := s.(stuckFingerprint := Some(FingerprintOf(s, settings)),
                       stuckCycles := if s.stuckFingerprint == Some(FingerprintOf(s, settings)) then s.stuckCycles + 1
                                      else 1);
    UnstickEdge(recorded);
  }

  // ----- What the agent leads to

  /**
   * The agent only decides. Below the cap it leaves the state as it is but for one warning when the model had to
   * be nudged or did not answer, and there is always a call pending; at the cap it wraps up and nothing is.
   */
  lemma AgentEdges(s: TravelState, d: Decision, settings: Settings)
    requires DecisionOk(d)
    ensures
      var t, pending := Agreed(s, d, settings), Pending(s, d, settings);
      if s.toolLoopCount >= settings.maxToolCalls then
        && t.phase == WrapUp && t.abortTriggered && t == s.(phase := t.phase, abortTriggered := t.abortTriggered)
        && pending == []
      else
        && t == s.(warnings := t.warnings) && pending != []
        && (d.Picks? || d.PicksAfterNudge? ==> pending == d.calls)
        && (d.Picks? ==> t.warnings == s.warnings)
        && (d.PicksAfterNudge? ==> t.warnings == s.warnings + [AgentNudged])
        && (d.PicksNothing? || d.Fails? ==> t.warnings == s.warnings + [AgentNoToolCallDefaultUsed])
  {
    match d
    case Picks(_) =>
    case PicksAfterNudge(_) =>
    case PicksNothing(_) =>
    case Fails(_) =>
  }


  /** The call a model that says nothing is taken to have made. */
  lemma SilentCall(s: TravelState, outcome: Outcome, settings: Settings)
    requires s.toolLoopCount < settings.maxToolCalls
    ensures
      var pending := Pending(s, PicksNothing(outcome), settings);
      && pending == Pending(s, Fails(outcome), settings)
      && |pending| == 1 && pending[0].outcome == outcome
      && (pending[0].name == CheckReadiness <==> s.phase == Discover && s.readinessScore == None)
      && (pending[0].name == SearchPlaces <==> s.phase == Discover && s.readinessScore != None && s.candidates == [])
      && (pending[0].name == RankPlaces <==> s.phase == Discover && s.readinessScore != None && s.candidates != [])
      && (pending[0].name == BuildRouteTool <==> s.phase == Plan && s.route == [])
      && (pending[0].name == BuildScheduleTool <==> s.phase == Plan && s.route != [])
      && (pending[0].name == ValidateTool <==> s.phase == Validate)
      && (pending[0].name == ReoptimizeRoutes <==> s.phase == Replan)
      && (pending[0].name == FinishPlan <==> s.phase == WrapUp)
  {
  }
}
