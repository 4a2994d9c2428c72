/** The planner as the graph runs it: one mutable state, changed in place by the agent and the tool executor. */
module PlannerGraph {
  import opened Ordering
  import opened PlannerMachine
  import opened PlannerTermination
  import opened PlannerRunLength

  class Planner {
    var state: TravelState
    const settings: Settings

    constructor (initial: TravelState, settings: Settings)
      ensures state == initial && this.settings == settings
    {
      state := initial;
      this.settings := settings;
    }

    /** Merge a tool's result into the state: count it, walk over its data, append to the trace. */
    method ApplyToolResult(name: ToolName, result: ToolResult)
      modifies this
      ensures state == Applied(old(state), name, result)
    {
      hide Extend, SetKey, KeyOf;
      if Registered(name) && result.code != Some(UnknownToolCode) {
        state := state.(toolLoopCount := state.toolLoopCount + 1);
      }
      ghost var counted := state;
      assert result.data[..0] == [];
      for i := 0 to |result.data|
        invariant state == MergeAll(counted, result.data[..i])
      {
        var entry := result.data[i];
        if KeyOf(entry) in LIST_APPEND_KEYS {
          state := Extend(state, entry);
        } else if KeyOf(entry) in MERGE_KEYS {
          state := SetKey(state, entry);
        }
        assert result.data[..i + 1][..i] == result.data[..i];
      }
      assert result.data[..|result.data|] == result.data;
      state := state.(toolTrace := state.toolTrace + [TraceEntry(name, result.ok, state.phase, result.code)]);
    }

    /** The locked transition table; every branch that fires returns. */
    method MaybeTransitionPhase(name: ToolName, result: ToolResult)
      modifies this
      ensures state == Transitioned(old(state), name, result, settings)
    {
      if state.toolLoopCount >= settings.maxToolCalls {
        state := state.(phase := WrapUp, abortTriggered := true);
        return;
      }
      if state.phase == Discover {
        if name == RankPlaces && result.ok {
          state := state.(phase := Plan);
          return;
        }
        if name == AskClarification && result.ok {
          state := state.(needsClarification := true);
          return;
        }
      }
      if state.phase == Plan {
        if name == BuildScheduleTool && result.ok {
          state := state.(phase := Validate);
          return;
        }
      }
      if state.phase == Validate {
        if name == ValidateTool {
          if result.ok {
            state := state.(phase := WrapUp);
            return;
          }
          if state.replanLoopCount < state.maxReplanAttempts {
            state := state.(phase := Replan, replanLoopCount := state.replanLoopCount + 1);
            return;
          }
          state := state.(phase := WrapUp, abortTriggered := true);
          return;
        }
      }
      if state.phase == Replan {
        if name == AcceptPartial && result.ok {
          state := state.(phase := WrapUp);
          return;
        }
        if state.replanLoopCount >= state.maxReplanAttempts {
          state := state.(phase := WrapUp, abortTriggered := true);
          return;
        }
        if IsReplanTool(name) && name != AcceptPartial && result.ok {
          state := state.(phase := Plan);
          return;
        }
      }
    }

    /** Whether any scheduled day has a stop. */
    method AnyStops() returns (found: bool)
      ensures found == ScheduleHasStops(state.schedule)
    {
      for i := 0 to |state.schedule|
        invariant forall k | 0 <= k < i :: state.schedule[k].stops == []
      {
        if state.schedule[i].stops != [] {
          return true;
        }
      }
      return false;
    }

    /** The end-of-cycle check: record the fingerprint, and at the limit push the phase on. */
    method RunStuckDetector()
      modifies this
      ensures state == Detected(old(state), settings)
    {
      hide FingerprintOf, Unstick;
      var fp := FingerprintOf(state, settings);
      var cycles := if state.stuckFingerprint == Some(fp) then state.stuckCycles + 1 else 1;
      state := state.(stuckFingerprint := Some(fp), stuckCycles := cycles);
      if cycles < settings.stuckLimit {
        return;
      }
      AdvanceStuckPhase();
    }

    /** What happens at the limit, phase by phase. */
    method AdvanceStuckPhase()
      modifies this
      ensures state == Unstick(old(state))
    {
      hide ScheduleHasStops;
      match state.phase
      case Discover =>
        if state.candidates == [] {
          state := state.(abortTriggered := true, phase := WrapUp);
          state := state.(warnings := state.warnings + [PhaseStuckDiscoverNoPois], stuckCycles := 0);
        } else {
          state := state.(phase := Plan);
          state := state.(warnings := state.warnings + [PhaseStuckAutoAdvance], stuckCycles := 0);
        }
      case Plan =>
        var scheduled := AnyStops();
        if !scheduled {
          state := state.(abortTriggered := true, phase := WrapUp);
          state := state.(warnings := state.warnings + [PhaseStuckPlanNoSchedule], stuckCycles := 0);
        } else {
          state := state.(phase := Validate);
          state := state.(warnings := state.warnings + [PhaseStuckAutoAdvance], stuckCycles := 0);
        }
      case Validate =>
        state := state.(phase := WrapUp);
        state := state.(warnings := state.warnings + [PhaseStuckAutoAdvance], stuckCycles := 0);
      case Replan =>
        state := state.(abortTriggered := true, phase := WrapUp);
        state := state.(warnings := state.warnings + [PhaseStuckReplanAbort], stuckCycles := 0);
      case WrapUp =>
        state := state.(planComplete := true);
        state := state.(warnings := state.warnings + [PhaseStuckWrapUpForceComplete], stuckCycles := 0);
    }

    /** The agent node: it only decides which calls are pending, and at the cap it decides to wrap up. */
    method AgentNode(d: Decision) returns (pending: seq<Call>)
      modifies this
      ensures state == Agreed(old(state), d, settings)
      ensures pending == Pending(old(state), d, settings)
    {
      if state.toolLoopCount >= settings.maxToolCalls {
        state := state.(abortTriggered := true, phase := WrapUp);
        return [];
      }
      match d
      case Picks(calls) =>
        pending := calls;
      case PicksAfterNudge(calls) =>
        pending := calls;
        state := state.(warnings := state.warnings + [AgentNudged]);
      case PicksNothing(outcome) =>
        pending := [Call(DefaultTool(state), outcome)];
        state := state.(warnings := state.warnings + [AgentNoToolCallDefaultUsed]);
      case Fails(outcome) =>
        pending := [Call(DefaultTool(state), outcome)];
        state := state.(warnings := state.warnings + [AgentNoToolCallDefaultUsed]);
    }

    /** The tool executor node: every pending call in turn, then the stuck detector, whatever happened. */
    method ToolExecutorNode(pending: seq<Call>)
      modifies this
      ensures state == Detected(Batch(old(state), pending, settings), settings)
    {
      hide Applied, Transitioned, ExecuteTool, Detected;
      assert pending[..0] == [];
      for i := 0 to |pending|
        invariant state == Batch(old(state), pending[..i], settings)
      {
        var result := ExecuteTool(state, pending[i]);
        ApplyToolResult(pending[i].name, result);
        MaybeTransitionPhase(pending[i].name, result);
        assert pending[..i + 1][..i] == pending[..i];
      }
      assert pending[..|pending|] == pending;
      RunStuckDetector();
    }

    /**
     * The loop of the graph, for an agent that decides as given: agent, executor, and back until the plan is
     * complete or a clarification is needed. Given enough decisions it always gets there.
     */
    method RunGraph(decisions: seq<Decision>) returns (cycles: nat)
      requires Initial(state) && PlainRun(decisions) && |decisions| >= CycleBound(state, settings)
      modifies this
      ensures 1 <= cycles <= CycleBound(old(state), settings)
      ensures state == AfterCycles(old(state), decisions[..cycles], settings) && Final(state)
      ensures Runs(old(state), decisions[..cycles], settings)
    {
      hide AfterCycles, Final, CycleBound, Initial, PlainRun, Agreed, Pending, Batch, Detected, NotYet, Runs;
      EveryRunEnds(state, decisions, settings);
      ghost var last :|
        1 <= last <= CycleBound(state, settings) && Final(AfterCycles(state, decisions[..last], settings));
      NothingRun(state, decisions, settings);
      cycles := 0;
      while cycles == 0 || !Final(state)
        invariant 0 <= cycles <= last
        invariant state == AfterCycles(old(state), decisions[..cycles], settings)
        invariant NotYet(old(state), decisions, cycles, settings)
        decreases last - cycles
      {
        assert cycles != last;
        NotYetFinal(old(state), decisions, cycles, settings);
        NextCycle(old(state), decisions, cycles, settings);
        var pending := AgentNode(decisions[cycles]);
        ToolExecutorNode(pending);
        cycles := cycles + 1;
      }
      SameRun(old(state), decisions, cycles, settings);
    }
  }

  lemma NothingRun(s: TravelState, decisions: seq<Decision>, settings: Settings)
    ensures AfterCycles(s, decisions[..0], settings) == s
    ensures NotYet(s, decisions, 0, settings)
  {
  }

  /** None of the cycles before the n-th ended the run. */
  ghost predicate NotYet(s: TravelState, decisions: seq<Decision>, n: nat, settings: Settings)
    requires n <= |decisions|
  {
    forall k | 1 <= k < n :: !Final(AfterCycles(s, decisions[..k], settings))
  }

  lemma NotYetFinal(s: TravelState, decisions: seq<Decision>, n: nat, settings: Settings)
    requires n < |decisions| && NotYet(s, decisions, n, settings)
    requires n == 0 || !Final(AfterCycles(s, decisions[..n], settings))
    ensures NotYet(s, decisions, n + 1, settings)
  {
    hide AfterCycles, Final;
  }

  lemma NextCycle(s: TravelState, decisions: seq<Decision>, n: nat, settings: Settings)
    requires n < |decisions|
    ensures AfterCycles(s, decisions[..n + 1], settings)
         == var before := AfterCycles(s, decisions[..n], settings);
            var calls := Pending(before, decisions[n], settings);
            Detected(Batch(Agreed(before, decisions[n], settings), calls, settings), settings)
  {
    hide Detected, Batch, Agreed, Pending;
    assert decisions[..n + 1][..n] == decisions[..n];
  }

  lemma SameRun(s: TravelState, decisions: seq<Decision>, n: nat, settings: Settings)
    requires n <= |decisions| && PlainRun(decisions) && NotYet(s, decisions, n, settings)
    ensures Runs(s, decisions[..n], settings)
  {
    hide AfterCycles, Final;
    forall k | 1 <= k < n ensures !Final(AfterCycles(s, decisions[..n][..k], settings)) {
      assert decisions[..n][..k] == decisions[..k];
    }
    forall i | 0 <= i < n ensures DecisionOk(decisions[..n][i]) {
      assert PlainDecision(decisions[i]);
    }
  }
}
