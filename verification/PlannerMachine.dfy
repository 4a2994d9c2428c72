/** The planner's phase machine: gating, merging, transitions and the stuck detector, on state values. */
module PlannerMachine {
  import opened Ordering
  import opened TravelRules
  import opened RouteOptimizer
  import opened TripValidator
  import opened TravelEngine

  datatype Phase = Discover | Plan | Validate | Replan | WrapUp

  datatype ToolName =
    | CheckReadiness | SearchPlaces | RankPlaces | AskClarification
    | BuildRouteTool | BuildScheduleTool
    | ValidateTool
    | ReoptimizeRoutes | DropWeakestStop | ExpandPoiSearch | AcceptPartial
    | FinishPlan
    | UnregisteredTool(name: string)

  datatype Code = UnknownToolCode | PreconditionFailed | ToolError | OtherCode(text: string)

  datatype Warning =
    | PhaseStuckDiscoverNoPois | PhaseStuckAutoAdvance | PhaseStuckPlanNoSchedule
    | PhaseStuckReplanAbort | PhaseStuckWrapUpForceComplete
    | AgentNudged | AgentNoToolCallDefaultUsed
    | ToolWarning(text: string)

  /** The parts of progress the detector compares; error codes are compared in their rendered form. */
  datatype Fingerprint = Fingerprint(phase: Phase, candidates: nat, ranked: nat, route: nat, schedule: nat,
                                         codes: string)

  datatype TraceEntry = TraceEntry(name: ToolName, ok: bool, phase: Phase, code: Option<Code>)

  /** The limits read from settings, and how the first errors of a validation are rendered into a fingerprint. */
  datatype Settings = Settings(maxToolCalls: int, stuckLimit: int, render: seq<ValidationError> -> string)

  datatype TravelState = TravelState(
    phase: Phase,
    toolLoopCount: nat,
    toolTrace: seq<TraceEntry>,
    planComplete: bool,
    needsClarification: bool,
    replanLoopCount: nat,
    maxReplanAttempts: int,
    abortTriggered: bool,
    readinessScore: Option<real>,
    candidates: seq<PlaceCandidate>,
    ranked: seq<ScoredPlace>,
    route: seq<OptimizeResult>,
    schedule: seq<ScheduleDay>,
    validation: Option<ValidationResult>,
    lastValidateOk: bool,
    warnings: seq<Warning>,
    errors: seq<ValidationError>,
    stuckFingerprint: Option<Fingerprint>,
    stuckCycles: nat)

  // ----- Tool results

  /** One entry of a result's data: a state key and the value offered for it. */
  datatype Entry =
    | CandidatesEntry(candidates: seq<PlaceCandidate>)
    | RankedEntry(ranked: seq<ScoredPlace>)
    | RouteEntry(route: seq<OptimizeResult>)
    | ScheduleEntry(schedule: seq<ScheduleDay>)
    | ValidationEntry(validation: Option<ValidationResult>)
    | LastValidateOkEntry(ok: bool)
    | ReadinessEntry(score: Option<real>)
    | AbortEntry(abort: bool)
    | PlanCompleteEntry(complete: bool)
    | NeedsClarificationEntry(needed: bool)
    | WarningsEntry(warnings: seq<Warning>)
    | ErrorsEntry(errors: seq<ValidationError>)
    | PhaseEntry(phase: Phase)
    | ToolLoopCountEntry(count: nat)
    | ToolTraceEntry(trace: seq<TraceEntry>)
    | ReplanLoopCountEntry(count: nat)
    | MaxReplanEntry(attempts: int)
    | StuckFingerprintEntry(fingerprint: Option<Fingerprint>)
    | StuckCyclesEntry(cycles: nat)
    | UnreadEntry(name: string)

  datatype Key =
    | CandidatesKey | RankedKey | RouteKey | ScheduleKey | ValidationKey | LastValidateOkKey | ReadinessKey
    | AbortKey | PlanCompleteKey | NeedsClarificationKey | WarningsKey | ErrorsKey
    | PhaseKey | ToolLoopCountKey | ToolTraceKey | ReplanLoopCountKey | MaxReplanKey
    | StuckFingerprintKey | StuckCyclesKey | UnreadKey

  function KeyOf(e: Entry): Key {
    match e
    case CandidatesEntry(_) => CandidatesKey
    case RankedEntry(_) => RankedKey
    case RouteEntry(_) => RouteKey
    case ScheduleEntry(_) => ScheduleKey
    case ValidationEntry(_) => ValidationKey
    case LastValidateOkEntry(_) => LastValidateOkKey
    case ReadinessEntry(_) => ReadinessKey
    case AbortEntry(_) => AbortKey
    case PlanCompleteEntry(_) => PlanCompleteKey
    case NeedsClarificationEntry(_) => NeedsClarificationKey
    case WarningsEntry(_) => WarningsKey
    case ErrorsEntry(_) => ErrorsKey
    case PhaseEntry(_) => PhaseKey
    case ToolLoopCountEntry(_) => ToolLoopCountKey
    case ToolTraceEntry(_) => ToolTraceKey
    case ReplanLoopCountEntry(_) => ReplanLoopCountKey
    case MaxReplanEntry(_) => MaxReplanKey
    case StuckFingerprintEntry(_) => StuckFingerprintKey
    case StuckCyclesEntry(_) => StuckCyclesKey
    case UnreadEntry(_) => UnreadKey
  }

  /** The keys a tool's data may set. */
  const MERGE_KEYS: set<Key> := {
    CandidatesKey, RankedKey, RouteKey, ScheduleKey, ValidationKey, LastValidateOkKey, ReadinessKey,
    AbortKey, PlanCompleteKey, NeedsClarificationKey, UnreadKey
  }

  /** The keys a tool's data may only extend. */
  const LIST_APPEND_KEYS: set<Key> := {WarningsKey, ErrorsKey}

  datatype ToolResult = ToolResult(ok: bool, code: Option<Code>, data: seq<Entry>)

  /** What running a tool's function would give: a result, or an exception. */
  datatype Outcome = Returns(result: ToolResult) | Raises

  /** A call the agent proposes, with the outcome its function would have if it were run. */
  datatype Call = Call(name: ToolName, outcome: Outcome)

  // ----- Gating

  predicate Registered(name: ToolName) {
    !name.UnregisteredTool?
  }

  /** The phase a registered tool is allowed in. */
  function PhaseOf(name: ToolName): Phase
    requires Registered(name)
  {
    match name
    case CheckReadiness => Discover
    case SearchPlaces => Discover
    case RankPlaces => Discover
    case AskClarification => Discover
    case BuildRouteTool => Plan
    case BuildScheduleTool => Plan
    case ValidateTool => Validate
    case ReoptimizeRoutes => Replan
    case DropWeakestStop => Replan
    case ExpandPoiSearch => Replan
    case AcceptPartial => Replan
    case FinishPlan => WrapUp
  }

  predicate FinishPlanOk(s: TravelState) {
    s.abortTriggered || s.lastValidateOk || (s.validation.Some? && s.validation.value.passed)
  }

  predicate CheckPreconditions(name: ToolName, s: TravelState) {
    Registered(name) && PhaseOf(name) == s.phase && (name == FinishPlan ==> FinishPlanOk(s))
  }

  function ExecuteTool(s: TravelState, call: Call): ToolResult {
    if !Registered(call.name) then ToolResult(false, Some(UnknownToolCode), [])
    else if !CheckPreconditions(call.name, s) then ToolResult(false, Some(PreconditionFailed), [])
    else match call.outcome
      case Returns(result) => result
      case Raises => ToolResult(false, Some(ToolError), [])
  }

  // ----- Merging

  /** Set one key, whatever it is. */
  function SetKey(s: TravelState, e: Entry): TravelState {
    match e
    case CandidatesEntry(v) => s.(candidates := v)
    case RankedEntry(v) => s.(ranked := v)
    case RouteEntry(v) => s.(route := v)
    case ScheduleEntry(v) => s.(schedule := v)
    case ValidationEntry(v) => s.(validation := v)
    case LastValidateOkEntry(v) => s.(lastValidateOk := v)
    case ReadinessEntry(v) => s.(readinessScore := v)
    case AbortEntry(v) => s.(abortTriggered := v)
    case PlanCompleteEntry(v) => s.(planComplete := v)
    case NeedsClarificationEntry(v) => s.(needsClarification := v)
    case WarningsEntry(v) => s.(warnings := v)
    case ErrorsEntry(v) => s.(errors := v)
    case PhaseEntry(v) => s.(phase := v)
    case ToolLoopCountEntry(v) => s.(toolLoopCount := v)
    case ToolTraceEntry(v) => s.(toolTrace := v)
    case ReplanLoopCountEntry(v) => s.(replanLoopCount := v)
    case MaxReplanEntry(v) => s.(maxReplanAttempts := v)
    case StuckFingerprintEntry(v) => s.(stuckFingerprint := v)
    case StuckCyclesEntry(v) => s.(stuckCycles := v)
    case UnreadEntry(_) => s
  }

  function Extend(s: TravelState, e: Entry): TravelState {
    match e
    case WarningsEntry(v) => s.(warnings := s.warnings + v)
    case ErrorsEntry(v) => s.(errors := s.errors + v)
    case _ => s
  }

  /** Merge one entry: extend a list key, set a whitelisted key, ignore any other. */
  function Merge(s: TravelState, e: Entry): TravelState {
    if KeyOf(e) in LIST_APPEND_KEYS then Extend(s, e)
    else if KeyOf(e) in MERGE_KEYS then SetKey(s, e)
    else s
  }

  function MergeAll(s: TravelState, data: seq<Entry>): TravelState {
    if data == [] then s else Merge(MergeAll(s, data[..|data| - 1]), data[|data| - 1])
  }

  predicate Counts(name: ToolName, result: ToolResult) {
    Registered(name) && result.code != Some(UnknownToolCode)
  }

  /** The only writer of planning state from tool outcomes. */
  function Applied(s: TravelState, name: ToolName, result: ToolResult): TravelState {
    var counted := if Counts(name, result) then s.(toolLoopCount := s.toolLoopCount + 1) else s;
    var merged := MergeAll(counted, result.data);
    merged.(toolTrace := merged.toolTrace + [TraceEntry(name, result.ok, merged.phase, result.code)])
  }

  // ----- Transitions

  predicate IsReplanTool(name: ToolName) {
    name in {ReoptimizeRoutes, DropWeakestStop, ExpandPoiSearch, AcceptPartial}
  }

  datatype Move = Stay | Advance(phase: Phase) | Clarify | EnterReplan | GiveUp

  /** The transition table. */
  function MoveFor(s: TravelState, name: ToolName, result: ToolResult, settings: Settings): Move {
    if s.toolLoopCount >= settings.maxToolCalls then GiveUp
    else match s.phase
      case Discover =>
        if name == RankPlaces && result.ok then Advance(Plan)
        else if name == AskClarification && result.ok then Clarify
        else Stay
      case Plan => if name == BuildScheduleTool && result.ok then Advance(Validate) else Stay
      case Validate =>
        if name != ValidateTool then Stay
        else if result.ok then Advance(WrapUp)
        else if s.replanLoopCount < s.maxReplanAttempts then EnterReplan
        else GiveUp
      case Replan =>
        if name == AcceptPartial && result.ok then Advance(WrapUp)
        else if s.replanLoopCount >= s.maxReplanAttempts then GiveUp
        else if IsReplanTool(name) && name != AcceptPartial && result.ok then Advance(Plan)
        else Stay
      case WrapUp => Stay
  }

  function Moved(s: TravelState, move: Move): TravelState {
    match move
    case Stay => s
    case Advance(phase) => s.(phase := phase)
    case Clarify => s.(needsClarification := true)
    case EnterReplan => s.(phase := Replan, replanLoopCount := s.replanLoopCount + 1)
    case GiveUp => s.(phase := WrapUp, abortTriggered := true)
  }

  function Transitioned(s: TravelState, name: ToolName, result: ToolResult, settings: Settings): TravelState {
    Moved(s, MoveFor(s, name, result, settings))
  }

  /** One call of a batch: execute, apply, transition. */
  function CallStep(s: TravelState, call: Call, settings: Settings): TravelState {
    var result := ExecuteTool(s, call);
    Transitioned(Applied(s, call.name, result), call.name, result, settings)
  }

  // ----- The stuck detector

  function FingerprintOf(s: TravelState, settings: Settings): Fingerprint {
    var errors := if s.validation.Some? then s.validation.value.errors else [];
    Fingerprint(s.phase, |s.candidates|, |s.ranked|, |s.route|, |s.schedule|,
                settings.render(if |errors| <= 5 then errors else errors[..5]))
  }

  predicate ScheduleHasStops(schedule: seq<ScheduleDay>) {
    exists i | 0 <= i < |schedule| :: schedule[i].stops != []
  }

  /** Where a stuck phase is pushed; WRAP_UP has nowhere to go. */
  function UnstuckMove(s: TravelState): Move {
    match s.phase
    case Discover => if s.candidates == [] then GiveUp else Advance(Plan)
    case Plan => if ScheduleHasStops(s.schedule) then Advance(Validate) else GiveUp
    case Validate => Advance(WrapUp)
    case Replan => GiveUp
    case WrapUp => Stay
  }

  function UnstuckWarning(s: TravelState): Warning {
    match s.phase
    case Discover => if s.candidates == [] then PhaseStuckDiscoverNoPois else PhaseStuckAutoAdvance
    case Plan => if ScheduleHasStops(s.schedule) then PhaseStuckAutoAdvance else PhaseStuckPlanNoSchedule
    case Validate => PhaseStuckAutoAdvance
    case Replan => PhaseStuckReplanAbort
    case WrapUp => PhaseStuckWrapUpForceComplete
  }

  /** What happens when a phase has been stuck for the limit: a push, or in WRAP_UP the end, and a warning. */
  function Unstick(s: TravelState): TravelState {
    var t := Moved(s, UnstuckMove(s));
    t.(planComplete := s.planComplete || s.phase == WrapUp, warnings := s.warnings + [UnstuckWarning(s)],
       stuckCycles := 0)
  }

  function Detected(s: TravelState, settings: Settings): TravelState {
    var fp := FingerprintOf(s, settings);
    var cycles := if s.stuckFingerprint == Some(fp) then s.stuckCycles + 1 else 1;
    var recorded := s.(stuckFingerprint := Some(fp), stuckCycles := cycles);
    if cycles < settings.stuckLimit then recorded else Unstick(recorded)
  }

  // ----- The agent

  /** What the language model does in one agent step; calls proposed are never an empty list. */
  datatype Decision =
    | Picks(calls: seq<Call>)
    | PicksAfterNudge(calls: seq<Call>)
    | PicksNothing(outcome: Outcome)
    | Fails(outcome: Outcome)

  ghost predicate DecisionOk(d: Decision) {
    (d.Picks? || d.PicksAfterNudge?) ==> d.calls != []
  }

  function DefaultTool(s: TravelState): ToolName {
    match s.phase
    case Discover =>
      if s.readinessScore.None? then CheckReadiness
      else if s.candidates == [] then SearchPlaces
      else RankPlaces
    case Plan => if s.route != [] then BuildScheduleTool else BuildRouteTool
    case Validate => ValidateTool
    case Replan => ReoptimizeRoutes
    case WrapUp => FinishPlan
  }

  predicate AtCap(s: TravelState, settings: Settings) {
    s.toolLoopCount >= settings.maxToolCalls
  }

  /** The state after the agent node. */
  function Agreed(s: TravelState, d: Decision, settings: Settings): TravelState {
    if AtCap(s, settings) then s.(abortTriggered := true, phase := WrapUp)
    else match d
      case Picks(_) => s
      case PicksAfterNudge(_) => s.(warnings := s.warnings + [AgentNudged])
      case PicksNothing(_) => s.(warnings := s.warnings + [AgentNoToolCallDefaultUsed])
      case Fails(_) => s.(warnings := s.warnings + [AgentNoToolCallDefaultUsed])
  }

  /** The calls the agent node leaves pending. */
  function Pending(s: TravelState, d: Decision, settings: Settings): seq<Call> {
    if AtCap(s, settings) then []
    else match d
      case Picks(calls) => calls
      case PicksAfterNudge(calls) => calls
      case PicksNothing(outcome) => [Call(DefaultTool(s), outcome)]
      case Fails(outcome) => [Call(DefaultTool(s), outcome)]
  }

  // ----- One cycle and whole runs

  function Batch(s: TravelState, calls: seq<Call>, settings: Settings): TravelState {
    if calls == [] then s else CallStep(Batch(s, calls[..|calls| - 1], settings), calls[|calls| - 1], settings)
  }

  /** agent node, then tool executor: the batch, then the detector. */
  function Cycle(s: TravelState, d: Decision, settings: Settings): TravelState {
    Detected(Batch(Agreed(s, d, settings), Pending(s, d, settings), settings), settings)
  }

  /** Where the graph goes after the executor: it loops back to the agent unless one of the flags is set. */
  predicate Final(s: TravelState) {
    s.needsClarification || s.planComplete
  }

  function AfterCycles(s: TravelState, decisions: seq<Decision>, settings: Settings): TravelState {
    if decisions == [] then s
    else Cycle(AfterCycles(s, decisions[..|decisions| - 1], settings), decisions[|decisions| - 1], settings)
  }

  /** The graph really runs all these cycles: no earlier one ended the run. */
  ghost predicate Runs(s: TravelState, decisions: seq<Decision>, settings: Settings) {
    && (forall i | 0 <= i < |decisions| :: DecisionOk(decisions[i]))
    && (forall k | 1 <= k < |decisions| :: !Final(AfterCycles(s, decisions[..k], settings)))
  }

  /** A state as the graph starts it. */
  predicate Initial(s: TravelState) {
    && s.phase == Discover && s.toolLoopCount == 0 && s.toolTrace == []
    && !s.planComplete && !s.needsClarification && s.replanLoopCount == 0 && !s.abortTriggered
    && s.route == [] && s.schedule == [] && s.validation == None && !s.lastValidateOk
    && s.stuckFingerprint == None && s.stuckCycles == 0
  }
}
