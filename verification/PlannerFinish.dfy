/** What a finished plan means: either it was aborted or forced, or the schedule in state is a validated one. */
module PlannerFinish {
  import opened Ordering
  import opened TripValidator
  import opened TravelEngine
  import opened PlannerMachine
  import opened PlannerTermination
  import opened PlannerSafety
  import opened PlannerRecursionLimit

  // ----- What each registered tool really writes

  /** The state keys a tool's own code puts in its data. */
  function OwnKeys(name: ToolName): set<Key> {
    match name
    case CheckReadiness => {ReadinessKey, UnreadKey}
    case SearchPlaces => {CandidatesKey, UnreadKey}
    case RankPlaces => {RankedKey, UnreadKey}
    case AskClarification => {NeedsClarificationKey, UnreadKey}
    case BuildRouteTool => {RouteKey, RankedKey, UnreadKey}
    case BuildScheduleTool => {ScheduleKey, RouteKey, RankedKey, UnreadKey}
    case ValidateTool => {ValidationKey, LastValidateOkKey, ErrorsKey, WarningsKey}
    case ReoptimizeRoutes => {CandidatesKey, RankedKey, RouteKey, ScheduleKey, UnreadKey}
    case DropWeakestStop => {CandidatesKey, RankedKey, RouteKey, ScheduleKey, UnreadKey}
    case ExpandPoiSearch => {CandidatesKey, RankedKey, RouteKey, ScheduleKey, UnreadKey}
    case AcceptPartial => {AbortKey}
    case FinishPlan => {PlanCompleteKey, UnreadKey}
    case UnregisteredTool(_) => {}
  }

  predicate WritesOnly(data: seq<Entry>, keys: set<Key>) {
    forall i | 0 <= i < |data| :: KeyOf(data[i]) in keys
  }

  /** validate_itinerary reports the validation of the schedule and route it was given. */
  ghost predicate HonestValidation(s: TravelState, result: ToolResult, spread: GeoSpread) {
    var validation := Validation(Itinerary(s.schedule, s.route), spread);
    && validation.Some?
    && result.ok == validation.value.passed
    && |result.data| == 4
    && result.data[0] == ValidationEntry(validation)
    && result.data[1] == LastValidateOkEntry(validation.value.passed)
    && result.data[2].ErrorsEntry? && result.data[3].WarningsEntry?
  }

  /** A result as the repository's own tools produce them; agents, routing and searches stay arbitrary. */
  ghost predicate HonestResult(s: TravelState, name: ToolName, result: ToolResult, spread: GeoSpread) {
    && WritesOnly(result.data, OwnKeys(name))
    && (name == AcceptPartial ==> result.ok && result.data == [AbortEntry(true)])
    && (name == ValidateTool ==> HonestValidation(s, result, spread))
  }

  ghost predicate HonestMicro(s: TravelState, m: Micro, spread: GeoSpread) {
    m.Tool? && CheckPreconditions(m.call.name, s) && m.call.outcome.Returns?
    ==> HonestResult(s, m.call.name, m.call.outcome.result, spread)
  }

  /** Every tool run along the way was honest about the state it was run in. */
  ghost predicate HonestMicros(s: TravelState, micros: seq<Micro>, settings: Settings, spread: GeoSpread) {
    forall n | 0 <= n < |micros| :: HonestMicro(AfterMicros(s, micros[..n], settings), micros[n], spread)
  }

  // ----- The invariant

  /** The schedule and route now in state pass validation. */
  ghost predicate ScheduleValid(s: TravelState, spread: GeoSpread) {
    Acceptable(Itinerary(s.schedule, s.route), spread)
  }

  predicate ValidationPassed(s: TravelState) {
    s.validation.Some? && s.validation.value.passed
  }

  predicate ClaimsValidated(s: TravelState) {
    s.lastValidateOk || ValidationPassed(s)
  }

  ghost predicate Trusted(s: TravelState, spread: GeoSpread) {
    && (s.lastValidateOk ==> ValidationPassed(s))
    && (ClaimsValidated(s) ==> s.phase == WrapUp && ScheduleValid(s, spread))
    && (s.planComplete ==>
          s.abortTriggered || PhaseStuckWrapUpForceComplete in s.warnings || ClaimsValidated(s))
    && (s.planComplete ==> s.phase == WrapUp)
  }

  // ----- Merging only touches the keys it names

  ghost predicate AgreeOutside(s: TravelState, t: TravelState, keys: set<Key>) {
    && (ValidationKey !in keys ==> t.validation == s.validation)
    && (LastValidateOkKey !in keys ==> t.lastValidateOk == s.lastValidateOk)
    && (ScheduleKey !in keys ==> t.schedule == s.schedule)
    && (RouteKey !in keys ==> t.route == s.route)
    && (PlanCompleteKey !in keys ==> t.planComplete == s.planComplete)
    && (AbortKey !in keys ==> t.abortTriggered == s.abortTriggered)
    && t.phase == s.phase
    && s.warnings <= t.warnings
  }

  lemma MergeAgrees(s: TravelState, e: Entry, keys: set<Key>)
    requires KeyOf(e) in keys
    ensures AgreeOutside(s, Merge(s, e), keys)
  {
    hide SetKey, AgreeOutside;
    if KeyOf(e) in LIST_APPEND_KEYS {
      ExtendAgrees(s, e, keys);
    } else if KeyOf(e) in MERGE_KEYS {
      SetAgrees(s, e, keys);
    } else {
      SameAgrees(s, keys);
    }
  }

  lemma SameAgrees(s: TravelState, keys: set<Key>)
    ensures AgreeOutside(s, s, keys)
  {
  }

  lemma ExtendAgrees(s: TravelState, e: Entry, keys: set<Key>)
    ensures AgreeOutside(s, Extend(s, e), keys)
  {
  }

  lemma SetAgrees(s: TravelState, e: Entry, keys: set<Key>)
    requires KeyOf(e) in keys && KeyOf(e) in MERGE_KEYS
    ensures AgreeOutside(s, SetKey(s, e), keys)
  {
    match e
    case CandidatesEntry(_) =>
    case RankedEntry(_) =>
    case RouteEntry(_) =>
    case ScheduleEntry(_) =>
    case ValidationEntry(_) =>
    case LastValidateOkEntry(_) =>
    case ReadinessEntry(_) =>
    case AbortEntry(_) =>
    case PlanCompleteEntry(_) =>
    case NeedsClarificationEntry(_) =>
    case UnreadEntry(_) =>
    case _ => assert false;
  }

  lemma {:induction false} MergeAllAgrees(s: TravelState, data: seq<Entry>, keys: set<Key>)
    requires WritesOnly(data, keys)
    ensures AgreeOutside(s, MergeAll(s, data), keys)
  {
    hide Merge, KeyOf;
    if data != [] {
      var front, last := data[..|data| - 1], data[|data| - 1];
      assert WritesOnly(front, keys) by {
        forall i | 0 <= i < |front| ensures KeyOf(front[i]) in keys {
          assert front[i] == data[i];
        }
      }
      MergeAllAgrees(s, front, keys);
      assert KeyOf(data[|data| - 1]) in keys;
      MergeAgrees(MergeAll(s, front), last, keys);
    }
  }

  lemma AppliedAgrees(s: TravelState, name: ToolName, result: ToolResult, keys: set<Key>)
    requires WritesOnly(result.data, keys)
    ensures AgreeOutside(s, Applied(s, name, result), keys)
  {
    hide MergeAll, WritesOnly;
    MergeAllAgrees(if Counts(name, result) then s.(toolLoopCount := s.toolLoopCount + 1) else s, result.data, keys);
  }

  /** After an honest validation the state holds its verdict, about the schedule and route still in state. */
  lemma ValidationMerged(s: TravelState, result: ToolResult, spread: GeoSpread)
    requires HonestValidation(s, result, spread)
    ensures
      var t := Applied(s, ValidateTool, result);
      && t.validation == Validation(Itinerary(s.schedule, s.route), spread)
      && t.lastValidateOk == result.ok
      && t.schedule == s.schedule && t.route == s.route
  {
    hide Validation, Itinerary, Merge, MergeAll;
    var counted := if Counts(ValidateTool, result) then s.(toolLoopCount := s.toolLoopCount + 1) else s;
    MergeFour(counted, result.data);
    FourMerges(counted, result.data[0].validation, result.ok, result.data[2].errors, result.data[3].warnings);
  }

  lemma MergeFour(s: TravelState, data: seq<Entry>)
    requires |data| == 4
    ensures MergeAll(s, data) == Merge(Merge(Merge(Merge(s, data[0]), data[1]), data[2]), data[3])
  {
    hide Merge;
    MergeSnoc(s, data, 3);
    MergeSnoc(s, data, 2);
    MergeSnoc(s, data, 1);
    MergeSnoc(s, data, 0);
    assert data[..4] == data && data[..0] == [];
    assert MergeAll(s, data[..0]) == s;
  }

  lemma FourMerges(s: TravelState, v: Option<ValidationResult>, ok: bool, errors: seq<ValidationError>,
                   warnings: seq<Warning>)
    ensures Merge(Merge(Merge(Merge(s, ValidationEntry(v)), LastValidateOkEntry(ok)), ErrorsEntry(errors)),
                  WarningsEntry(warnings))
         == s.(validation := v, lastValidateOk := ok, errors := s.errors + errors, warnings := s.warnings + warnings)
  {
  }

  lemma MergeSnoc(s: TravelState, data: seq<Entry>, k: nat)
    requires k < |data|
    ensures MergeAll(s, data[..k + 1]) == Merge(MergeAll(s, data[..k]), data[k])
  {
    hide Merge;
    assert data[..k + 1][..k] == data[..k];
  }

  // ----- One step keeps the invariant

  /** The result a call is applied with: the tool's own, or a refusal that carries no data. */
  lemma ExecutedResult(s: TravelState, call: Call)
    ensures
      var result := ExecuteTool(s, call);
      (CheckPreconditions(call.name, s) && call.outcome == Returns(result)) || (result.data == [] && !result.ok)
  {
  }

  /** A transition never leaves WRAP_UP, never takes back an abort, and touches nothing a validation speaks about. */
  lemma TransitionAgrees(s: TravelState, name: ToolName, result: ToolResult, settings: Settings)
    ensures
      var t := Transitioned(s, name, result, settings);
      && t.validation == s.validation && t.lastValidateOk == s.lastValidateOk
      && t.schedule == s.schedule && t.route == s.route
      && t.planComplete == s.planComplete && t.warnings == s.warnings
      && (s.abortTriggered ==> t.abortTriggered)
      && (s.phase == WrapUp ==> t.phase == WrapUp)
      && (s.phase == Validate && name == ValidateTool && result.ok ==> t.phase == WrapUp)
  {
    hide Transitioned;
    TransitionFrame(s, name, result, settings);
    TransitionOnward(s, name, result, settings);
  }

  lemma TransitionOnward(s: TravelState, name: ToolName, result: ToolResult, settings: Settings)
    ensures
      var t := Transitioned(s, name, result, settings);
      && (s.abortTriggered ==> t.abortTriggered)
      && (s.phase == WrapUp ==> t.phase == WrapUp)
      && (s.phase == Validate && name == ValidateTool && result.ok ==> t.phase == WrapUp)
  {
    hide IsReplanTool;
  }

  /** A step that changes nothing a validation speaks about keeps the invariant. */
  lemma QuietStep(s: TravelState, t: TravelState, spread: GeoSpread)
    requires Trusted(s, spread)
    requires t.validation == s.validation && t.lastValidateOk == s.lastValidateOk
    requires t.schedule == s.schedule && t.route == s.route && t.planComplete == s.planComplete
    requires s.warnings <= t.warnings && (s.abortTriggered ==> t.abortTriggered)
    requires s.phase == WrapUp ==> t.phase == WrapUp
    ensures Trusted(t, spread)
  {
    hide ScheduleValid;
    assert ScheduleValid(s, spread) ==> ScheduleValid(t, spread) by { SameSchedule(s, t, spread); }
    assert forall w | w in s.warnings :: w in t.warnings;
  }

  lemma SameSchedule(s: TravelState, t: TravelState, spread: GeoSpread)
    requires t.schedule == s.schedule && t.route == s.route
    ensures ScheduleValid(t, spread) == ScheduleValid(s, spread)
  {
  }

  /** A call that was refused, or raised, merges nothing. */
  lemma RefusedCall(s: TravelState, call: Call, settings: Settings, spread: GeoSpread)
    requires Trusted(s, spread) && ExecuteTool(s, call).data == []
    ensures Trusted(CallStep(s, call, settings), spread)
  {
    hide Trusted, Transitioned, Applied, ExecuteTool;
    var result := ExecuteTool(s, call);
    AppliedAgrees(s, call.name, result, {});
    var applied := Applied(s, call.name, result);
    TransitionAgrees(applied, call.name, result, settings);
    QuietStep(s, Transitioned(applied, call.name, result, settings), spread);
  }

  /** Validation itself: the verdict in state is about the schedule in state, and only a pass leads to WRAP_UP. */
  lemma ValidationCall(s: TravelState, result: ToolResult, settings: Settings, spread: GeoSpread)
    requires Trusted(s, spread) && s.phase == Validate && HonestValidation(s, result, spread)
    ensures Trusted(Transitioned(Applied(s, ValidateTool, result), ValidateTool, result, settings), spread)
  {
    hide Transitioned, Applied, Validation, Itinerary, Acceptable;
    var applied := Applied(s, ValidateTool, result);
    ValidationMerged(s, result, spread);
    AppliedControl(s, ValidateTool, result);
    TransitionAgrees(applied, ValidateTool, result, settings);
    PassesIffAcceptable(Itinerary(s.schedule, s.route), spread);
    var keys := {ValidationKey, LastValidateOkKey, ErrorsKey, WarningsKey};
    assert WritesOnly(result.data, keys);
    AppliedAgrees(s, ValidateTool, result, keys);
  }

  /** Finishing: allowed only after an abort or a validation, and it writes nothing but the flag. */
  lemma FinishCall(s: TravelState, result: ToolResult, settings: Settings, spread: GeoSpread)
    requires Trusted(s, spread) && s.phase == WrapUp && FinishPlanOk(s)
    requires WritesOnly(result.data, {PlanCompleteKey, UnreadKey})
    ensures Trusted(Transitioned(Applied(s, FinishPlan, result), FinishPlan, result, settings), spread)
  {
    hide Transitioned, Applied, Acceptable, Itinerary;
    AppliedAgrees(s, FinishPlan, result, {PlanCompleteKey, UnreadKey});
    TransitionAgrees(Applied(s, FinishPlan, result), FinishPlan, result, settings);
  }

  /** Any other tool runs before WRAP_UP, where nothing claims to be validated or complete yet. */
  lemma OtherCall(s: TravelState, name: ToolName, result: ToolResult, settings: Settings, spread: GeoSpread)
    requires Trusted(s, spread) && s.phase != WrapUp
    requires WritesOnly(result.data, OwnKeys(name)) && name != ValidateTool && name != FinishPlan
    ensures Trusted(Transitioned(Applied(s, name, result), name, result, settings), spread)
  {
    hide Transitioned, Applied, Acceptable, Itinerary;
    AppliedAgrees(s, name, result, OwnKeys(name));
    TransitionAgrees(Applied(s, name, result), name, result, settings);
  }

  lemma CallKeepsTrust(s: TravelState, call: Call, settings: Settings, spread: GeoSpread)
    requires Trusted(s, spread) && HonestMicro(s, Tool(call), spread)
    ensures Trusted(CallStep(s, call, settings), spread)
  {
    hide Trusted, Transitioned, Applied, HonestValidation, WritesOnly, OwnKeys;
    var result := ExecuteTool(s, call);
    if result.data == [] && !result.ok {
      RefusedCall(s, call, settings, spread);
    } else {
      ExecutedResult(s, call);
      assert HonestResult(s, call.name, result, spread);
      if call.name == ValidateTool {
        ValidationCall(s, result, settings, spread);
      } else if call.name == FinishPlan {
        assert OwnKeys(FinishPlan) == {PlanCompleteKey, UnreadKey} by { FinishKeys(); }
        FinishCall(s, result, settings, spread);
      } else {
        OtherCall(s, call.name, result, settings, spread);
      }
    }
  }

  lemma FinishKeys()
    ensures OwnKeys(FinishPlan) == {PlanCompleteKey, UnreadKey}
  {
  }

  lemma DecideKeepsTrust(s: TravelState, d: Decision, settings: Settings, spread: GeoSpread)
    requires Trusted(s, spread)
    ensures Trusted(Agreed(s, d, settings), spread)
  {
    hide Trusted;
    QuietStep(s, Agreed(s, d, settings), spread);
  }

  lemma DetectKeepsTrust(s: TravelState, settings: Settings, spread: GeoSpread)
    requires Trusted(s, spread)
    ensures Trusted(Detected(s, settings), spread)
  {
    hide FingerprintOf, Trusted, Unstick;
    var fp := FingerprintOf(s, settings);
    var cycles := if s.stuckFingerprint == Some(fp) then s.stuckCycles + 1 else 1;
    var recorded := s.(stuckFingerprint := Some(fp), stuckCycles := cycles);
    QuietStep(s, recorded, spread);
    UnstickKeepsTrust(recorded, spread);
  }

  /** Unsticking completes a plan only in WRAP_UP, and says so in the warnings. */
  lemma UnstickKeepsTrust(s: TravelState, spread: GeoSpread)
    requires Trusted(s, spread)
    ensures Trusted(Unstick(s), spread)
  {
    hide ScheduleValid, Unstick;
    var t := Unstick(s);
    UnstickFrame(s);
    SameSchedule(s, t, spread);
    if s.phase != WrapUp {
      hide Trusted;
      QuietStep(s, t, spread);
    }
  }

  lemma MicroKeepsTrust(s: TravelState, m: Micro, settings: Settings, spread: GeoSpread)
    requires Trusted(s, spread) && HonestMicro(s, m, spread)
    ensures Trusted(MicroStep(s, m, settings), spread)
  {
    hide Trusted, HonestMicro, CallStep, Detected, Agreed;
    match m
    case Decide(d) => DecideKeepsTrust(s, d, settings, spread);
    case Tool(call) => CallKeepsTrust(s, call, settings, spread);
    case Detect => DetectKeepsTrust(s, settings, spread);
  }

  lemma {:induction false} MicrosKeepTrust(s: TravelState, micros: seq<Micro>, settings: Settings, spread: GeoSpread)
    requires Trusted(s, spread) && HonestMicros(s, micros, settings, spread)
    ensures Trusted(AfterMicros(s, micros, settings), spread)
  {
    hide Trusted, HonestMicro, MicroStep;
    if micros != [] {
      var front, last := micros[..|micros| - 1], micros[|micros| - 1];
      forall n | 0 <= n < |front| ensures HonestMicro(AfterMicros(s, front[..n], settings), front[n], spread) {
        assert front[..n] == micros[..n];
      }
      MicrosKeepTrust(s, front, settings, spread);
      assert HonestMicro(AfterMicros(s, micros[..|front|], settings), micros[|front|], spread);
      MicroKeepsTrust(AfterMicros(s, front, settings), last, settings, spread);
    }
  }

  // ----- What the trace tells about validation

  /** The trace shows a validation that passed. */
  predicate PassedInTrace(trace: seq<TraceEntry>) {
    exists i | 0 <= i < |trace| :: trace[i].name == ValidateTool && trace[i].ok
  }

  ghost predicate Traced(s: TravelState) {
    ClaimsValidated(s) <==> PassedInTrace(s.toolTrace)
  }

  lemma PassedSnoc(trace: seq<TraceEntry>, entry: TraceEntry)
    ensures PassedInTrace(trace + [entry]) <==> PassedInTrace(trace) || (entry.name == ValidateTool && entry.ok)
  {
    var whole := trace + [entry];
    if PassedInTrace(trace) {
      var i :| 0 <= i < |trace| && trace[i].name == ValidateTool && trace[i].ok;
      assert whole[i] == trace[i];
    }
    assert whole[|trace|] == entry;
  }

  /** A call that leaves the verdict alone, and is not a passing validation, leaves the trace telling the same. */
  lemma QuietTrace(s: TravelState, call: Call, settings: Settings)
    requires Traced(s) && !(call.name == ValidateTool && ExecuteTool(s, call).ok)
    requires CallStep(s, call, settings).validation == s.validation
    requires CallStep(s, call, settings).lastValidateOk == s.lastValidateOk
    ensures Traced(CallStep(s, call, settings))
  {
    hide CallStep, ExecuteTool, PassedInTrace;
    var result := ExecuteTool(s, call);
    CallTrace(s, call, settings);
    PassedSnoc(s.toolTrace, TraceEntry(call.name, result.ok, s.phase, result.code));
  }

  lemma OtherTrace(s: TravelState, call: Call, keys: set<Key>, settings: Settings)
    requires Traced(s) && !(call.name == ValidateTool && ExecuteTool(s, call).ok)
    requires WritesOnly(ExecuteTool(s, call).data, keys) && ValidationKey !in keys && LastValidateOkKey !in keys
    ensures Traced(CallStep(s, call, settings))
  {
    hide Applied, Transitioned, ExecuteTool, Traced, WritesOnly;
    var result := ExecuteTool(s, call);
    AppliedAgrees(s, call.name, result, keys);
    TransitionAgrees(Applied(s, call.name, result), call.name, result, settings);
    QuietTrace(s, call, settings);
  }

  /** A validation is run only where nothing has passed yet, and what it reports is what the state then claims. */
  lemma ValidationTrace(s: TravelState, call: Call, settings: Settings, spread: GeoSpread)
    requires Traced(s) && !ClaimsValidated(s) && call.name == ValidateTool
    requires HonestValidation(s, ExecuteTool(s, call), spread)
    ensures Traced(CallStep(s, call, settings))
  {
    hide Applied, Transitioned, ExecuteTool, PassedInTrace, Validation, Itinerary;
    var result := ExecuteTool(s, call);
    ValidationMerged(s, result, spread);
    TransitionAgrees(Applied(s, ValidateTool, result), ValidateTool, result, settings);
    CallTrace(s, call, settings);
    PassedSnoc(s.toolTrace, TraceEntry(call.name, result.ok, s.phase, result.code));
  }

  lemma CallKeepsTraced(s: TravelState, call: Call, settings: Settings, spread: GeoSpread)
    requires Trusted(s, spread) && Traced(s) && HonestMicro(s, Tool(call), spread)
    ensures Traced(CallStep(s, call, settings))
  {
    hide ExecuteTool, CallStep, Traced, HonestValidation, ScheduleValid;
    var result := ExecuteTool(s, call);
    ExecutedResult(s, call);
    if result.data == [] && !result.ok {
      OtherTrace(s, call, {}, settings);
    } else if call.name == ValidateTool {
      assert HonestResult(s, call.name, result, spread);
      ValidationTrace(s, call, settings, spread);
    } else {
      assert HonestResult(s, call.name, result, spread);
      OtherTrace(s, call, OwnKeys(call.name), settings);
    }
  }

  lemma MicroKeepsTraced(s: TravelState, m: Micro, settings: Settings, spread: GeoSpread)
    requires Trusted(s, spread) && Traced(s) && HonestMicro(s, m, spread)
    ensures Traced(MicroStep(s, m, settings))
  {
    hide Trusted, HonestMicro, CallStep, Unstick, FingerprintOf, PassedInTrace;
    match m
    case Decide(d) =>
    case Tool(call) => CallKeepsTraced(s, call, settings, spread);
    case Detect =>
      var fp := FingerprintOf(s, settings);
      var cycles := if s.stuckFingerprint == Some(fp) then s.stuckCycles + 1 else 1;
      UnstickFrame(s.(stuckFingerprint := Some(fp), stuckCycles := cycles));
  }

  lemma {:induction false} MicrosKeepTraced(s: TravelState, micros: seq<Micro>, settings: Settings, spread: GeoSpread)
    requires Trusted(s, spread) && Traced(s) && HonestMicros(s, micros, settings, spread)
    ensures Traced(AfterMicros(s, micros, settings))
  {
    hide Trusted, Traced, HonestMicro, MicroStep;
    if micros != [] {
      var front, last := micros[..|micros| - 1], micros[|micros| - 1];
      forall n | 0 <= n < |front| ensures HonestMicro(AfterMicros(s, front[..n], settings), front[n], spread) {
        assert front[..n] == micros[..n];
      }
      MicrosKeepTrust(s, front, settings, spread);
      MicrosKeepTraced(s, front, settings, spread);
      assert HonestMicro(AfterMicros(s, micros[..|front|], settings), micros[|front|], spread);
      MicroKeepsTraced(AfterMicros(s, front, settings), last, settings, spread);
    }
  }

  /**
   * Exactly when a complete plan that was not aborted is a validated one: if and only if the trace shows a
   * validation that passed. Then the schedule and route in state are an acceptable itinerary; otherwise the
   * detector forced completion and the warnings say so.
   */
  lemma CompletePlanValidatedIff(s: TravelState, decisions: seq<Decision>, settings: Settings, spread: GeoSpread)
    requires Initial(s) && HonestMicros(s, RunMicros(s, decisions, settings), settings, spread)
    ensures
      var last := AfterCycles(s, decisions, settings);
      && (ValidationPassed(last) <==> PassedInTrace(last.toolTrace))
      && (ValidationPassed(last) ==> Acceptable(Itinerary(last.schedule, last.route), spread))
      && (last.planComplete && !last.abortTriggered && !PassedInTrace(last.toolTrace) ==>
            PhaseStuckWrapUpForceComplete in last.warnings)
  {
    hide HonestMicros, Acceptable, Itinerary;
    InitialTrusted(s, spread);
    var micros := RunMicros(s, decisions, settings);
    MicrosKeepTrust(s, micros, settings, spread);
    MicrosKeepTraced(s, micros, settings, spread);
    RunIsMicros(s, decisions, settings);
  }

  /** In particular without the forced-completion warning a complete plan that was not aborted is validated. */
  lemma FinishedIsValidated(s: TravelState, decisions: seq<Decision>, settings: Settings, spread: GeoSpread)
    requires Initial(s) && HonestMicros(s, RunMicros(s, decisions, settings), settings, spread)
    ensures
      var last := AfterCycles(s, decisions, settings);
      last.planComplete && !last.abortTriggered && PhaseStuckWrapUpForceComplete !in last.warnings
      ==> ValidationPassed(last) && Acceptable(Itinerary(last.schedule, last.route), spread)
  {
    hide HonestMicros, Acceptable, Itinerary, PassedInTrace, AfterCycles;
    CompletePlanValidatedIff(s, decisions, settings, spread);
  }

  lemma InitialTrusted(s: TravelState, spread: GeoSpread)
    requires Initial(s)
    ensures Trusted(s, spread) && Traced(s)
  {
  }

  // ----- A complete plan that nobody validated

  /** The default limits: twelve tool calls, three cycles until a phase counts as stuck. */
  function DefaultSettings(render: seq<ValidationError> -> string): Settings {
    Settings(12, 3, render)
  }

  /** Rank, then schedule: the phase moves to VALIDATE within one batch. */
  function RankAndSchedule(): Decision {
    Picks([Call(RankPlaces, Returns(ToolResult(true, None, []))),
           Call(BuildScheduleTool, Returns(ToolResult(true, None, [ScheduleEntry(OneStopSchedule())])))])
  }

  /** One useful batch, then five cycles of calling a name that is not registered. */
  function Abandoned(n: nat): seq<Decision> {
    if n == 0 then [] else Abandoned(n - 1) + [if n == 1 then RankAndSchedule() else Babble()]
  }

  /** In `phase`, stuck for k cycles, never validated and not aborted. */
  ghost predicate Unvalidated(t: TravelState, phase: Phase, k: nat, settings: Settings) {
    && !t.needsClarification && !t.planComplete && !t.abortTriggered && t.phase == phase
    && t.validation == None && !t.lastValidateOk && t.toolLoopCount == 2 && t.stuckCycles == k
    && (k > 0 ==> t.stuckFingerprint == Some(FingerprintOf(t, settings)))
  }

  lemma TwoCalls(s: TravelState, a: Call, b: Call, settings: Settings)
    requires !AtCap(s, settings)
    ensures Cycle(s, Picks([a, b]), settings) == Detected(CallStep(CallStep(s, a, settings), b, settings), settings)
  {
    hide CallStep, Detected;
    assert [a, b][..1] == [a] && [a][..0] == [];
    assert Batch(s, [a][..0], settings) == s;
    assert Batch(s, [a], settings) == CallStep(s, a, settings);
  }

  lemma FirstBatch(s: TravelState, settings: Settings)
    requires Initial(s) && settings.maxToolCalls == 12 && settings.stuckLimit == 3
    ensures Unvalidated(Cycle(s, RankAndSchedule(), settings), Validate, 1, settings)
  {
    hide FingerprintOf, CallStep, Cycle, Detected;
    var a, b := RankAndSchedule().calls[0], RankAndSchedule().calls[1];
    TwoCalls(s, a, b, settings);
    RankCall(s, settings);
    ScheduleCall(CallStep(s, a, settings), settings);
    DetectedFresh(CallStep(CallStep(s, a, settings), b, settings), settings);
  }

  lemma RankCall(s: TravelState, settings: Settings)
    requires Initial(s) && settings.maxToolCalls == 12
    ensures
      var t := CallStep(s, RankAndSchedule().calls[0], settings);
      t == s.(toolLoopCount := 1, phase := Plan, toolTrace := t.toolTrace)
  {
  }

  lemma ScheduleCall(t: TravelState, settings: Settings)
    requires t.phase == Plan && t.toolLoopCount == 1 && settings.maxToolCalls == 12
    ensures
      var u := CallStep(t, RankAndSchedule().calls[1], settings);
      u == t.(toolLoopCount := 2, phase := Validate, schedule := OneStopSchedule(), toolTrace := u.toolTrace)
  {
    hide OneStopSchedule;
    OneEntry(t.(toolLoopCount := t.toolLoopCount + 1), ScheduleEntry(OneStopSchedule()));
  }

  lemma DetectedFresh(u: TravelState, settings: Settings)
    requires settings.stuckLimit == 3 && u.stuckFingerprint == None
    ensures Detected(u, settings) == u.(stuckFingerprint := Some(FingerprintOf(u, settings)), stuckCycles := 1)
    ensures FingerprintOf(Detected(u, settings), settings) == FingerprintOf(u, settings)
  {
  }

  lemma BabbleOn(t: TravelState, phase: Phase, k: nat, settings: Settings)
    requires settings.maxToolCalls == 12 && settings.stuckLimit == 3
    requires Unvalidated(t, phase, k, settings) && phase in {Validate, WrapUp}
    requires k == 0 ==> t.stuckFingerprint.Some? && t.stuckFingerprint.value.phase != phase
    ensures
      var u := Cycle(t, Babble(), settings);
      if k < 2 then Unvalidated(u, phase, k + 1, settings)
      else if k > 2 then true
      else if phase == Validate then
        Unvalidated(u, WrapUp, 0, settings) && u.stuckFingerprint.Some? && u.stuckFingerprint.value.phase == Validate
      else
        && u.planComplete && !u.abortTriggered && u.validation == None && !u.lastValidateOk && !u.needsClarification
        && PhaseStuckWrapUpForceComplete in u.warnings
  {
    OneCall(t, Babble().calls[0], settings);
    assert MergeAll(t, []) == t;
  }

  /**
   * Not every complete plan that was not aborted was validated: the detector can push VALIDATE to WRAP_UP and
   * then force completion. This run makes no validation at all and ends complete after six cycles.
   */
  lemma ForcedPlanNotValidated(s: TravelState, render: seq<ValidationError> -> string)
    requires Initial(s)
    ensures
      var last := AfterCycles(s, Abandoned(6), DefaultSettings(render));
      && last.planComplete && !last.abortTriggered && !ClaimsValidated(last)
      && PhaseStuckWrapUpForceComplete in last.warnings
  {
    hide AfterCycles, Cycle, Unvalidated, Babble, RankAndSchedule, Abandoned;
    var settings := DefaultSettings(render);
    AbandonedNext(s, 1, settings);
    AbandonedNext(s, 2, settings);
    AbandonedNext(s, 3, settings);
    AbandonedNext(s, 4, settings);
    AbandonedNext(s, 5, settings);
    AbandonedNext(s, 6, settings);
    FirstBatch(s, settings);
    BabbleOn(AfterCycles(s, Abandoned(1), settings), Validate, 1, settings);
    BabbleOn(AfterCycles(s, Abandoned(2), settings), Validate, 2, settings);
    BabbleOn(AfterCycles(s, Abandoned(3), settings), WrapUp, 0, settings);
    BabbleOn(AfterCycles(s, Abandoned(4), settings), WrapUp, 1, settings);
    BabbleOn(AfterCycles(s, Abandoned(5), settings), WrapUp, 2, settings);
  }

  lemma AbandonedNext(s: TravelState, n: nat, settings: Settings)
    requires n > 0
    ensures AfterCycles(s, Abandoned(0), settings) == s
    ensures AfterCycles(s, Abandoned(n), settings)
         == Cycle(AfterCycles(s, Abandoned(n - 1), settings), if n == 1 then RankAndSchedule() else Babble(), settings)
  {
    hide Cycle, RankAndSchedule, Babble;
    var decisions := Abandoned(n);
    assert decisions[..|decisions| - 1] == Abandoned(n - 1);
  }
}
