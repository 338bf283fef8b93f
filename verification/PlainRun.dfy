/**
 The in-memory ReAct loop (`_drive` without a runtime, pkg/agents/react.py): what a run
 means when nothing pauses or crashes it.
 */
module PlainRun {
  import opened Prelude
  import opened AgentState
  import opened AgentActions

  datatype RunStatus = RunRunning | RunCompleted | RunMaxStepsReached | RunInterrupted

  datatype RunResult = RunResult(status: RunStatus, finalAnswer: Option<string>, steps: seq<StepRecord>)

  /** A finished run, or an exception that reached the caller. */
  datatype Outcome = Finished(result: RunResult) | Aborted

  /** A deterministic action maker, which does not look at elapsed times, and deterministic tools. */
  datatype World = World(
    next: seq<StepRecord> -> Action,
    handle: (string, Fields) -> HandlerOutcome)

  // ---------- ignoring elapsed time ----------

  function Erase(step: StepRecord): StepRecord {
    step.(elapsedMs := 0.0)
  }

  function EraseAll(steps: seq<StepRecord>): (r: seq<StepRecord>)
    ensures |r| == |steps|
  {
    seq(|steps|, i requires 0 <= i < |steps| => Erase(steps[i]))
  }

  function EraseOutcome(o: Outcome): Outcome {
    match o
    case Finished(result) => Finished(result.(steps := EraseAll(result.steps)))
    case Aborted => Aborted
  }

  lemma EraseAllAppend(steps: seq<StepRecord>, step: StepRecord)
    ensures EraseAll(steps + [step]) == EraseAll(steps) + [Erase(step)]
  {
  }

  // ---------- meaning ----------

  function CallId(runId: string, index: nat): string
    requires runId != ""
  {
    StableToolCallId(runId, index).value
  }

  /** The outcome of one tool action in a world: the pair to record, or None when it raises. */
  function Observed(agent: Agent, runId: string, world: World, index: nat,
                    call: Action): Option<(Value, Option<string>)>
    requires call.ToolCall? && runId != ""
  {
    match RequestTool(agent, call, CallId(runId, index))
    case Refuse(reason) => Captured(agent, reason)
    case Invoke(tool, args) => Observe(agent, world.handle(tool, args))
  }

  /** The run that continues from a history of committed steps. */
  function PlainFrom(agent: Agent, runId: string, world: World, history: seq<StepRecord>): Outcome
    requires runId != ""
    decreases agent.maxSteps - |history|
  {
    if |history| >= agent.maxSteps then
      Finished(RunResult(RunMaxStepsReached, None, history))
    else
      match world.next(history)
      case Final(answer) =>
        Finished(RunResult(RunCompleted, Some(answer), history + [FinalStep(|history|, answer, 0.0)]))
      case ToolCall(tool, args, callId) =>
        var call := ToolCall(tool, args, callId);
        match Observed(agent, runId, world, |history|, call)
        case None => Aborted
        case Some(observed) => PlainFrom(agent, runId, world, history + [ToolStep(|history|, call, observed, 0.0)])
  }

  // ---------- the loop ----------

  datatype Event =
    | RunStarted
    | StepDone(step: StepRecord)
    | RunDone(result: RunResult)

  function StepEvents(steps: seq<StepRecord>): seq<Event> {
    seq(|steps|, i requires 0 <= i < |steps| => StepDone(steps[i]))
  }

  /** The mutable state of one run. */
  class AgentRunState {
    var status: RunStatus
    var steps: seq<StepRecord>
    var finalAnswer: Option<string>

    constructor ()
      ensures status == RunRunning && steps == [] && finalAnswer == None
    {
      status, steps, finalAnswer := RunRunning, [], None;
    }

    function Result(): RunResult
      reads this
    {
      RunResult(status, finalAnswer, steps)
    }
  }

  /** The loop computes the meaning of the run, emits one event a step, and never takes more than `maxSteps` steps. */
  method RunInMemory(agent: Agent, runId: string, world: World, elapsed: nat -> real)
    returns (outcome: Outcome, events: seq<Event>)
    requires agent.maxSteps >= 1 && runId != ""
    ensures EraseOutcome(outcome) == PlainFrom(agent, runId, world, [])
    ensures outcome.Finished? ==> events == [RunStarted] + StepEvents(outcome.result.steps) + [RunDone(outcome.result)]
    ensures outcome.Finished? ==> |outcome.result.steps| <= agent.maxSteps
  {
    var state := new AgentRunState();
    events := [RunStarted];
    var index := 0;
    assert EraseAll(state.steps) == [];
    while index < agent.maxSteps
      invariant 0 <= index == |state.steps| <= agent.maxSteps
      invariant state.finalAnswer == None
      invariant PlainFrom(agent, runId, world, EraseAll(state.steps)) == PlainFrom(agent, runId, world, [])
      invariant events == [RunStarted] + StepEvents(state.steps)
    {
      var action := world.next(EraseAll(state.steps));
      if action.Final? {
        var finalStep := FinalStep(index, action.answer, elapsed(index));
        EraseAllAppend(state.steps, finalStep);
        state.steps := state.steps + [finalStep];
        state.finalAnswer := Some(action.answer);
        state.status := RunCompleted;
        events := events + [StepDone(finalStep)];
        assert events == [RunStarted] + StepEvents(state.steps);
        events := events + [RunDone(state.Result())];
        return Finished(state.Result()), events;
      }
      var request := RequestTool(agent, action, CallId(runId, index));
      var observed :=
        match request
        case Refuse(reason) => Captured(agent, reason)
        case Invoke(tool, args) => Observe(agent, world.handle(tool, args));
      if observed.None? {
        return Aborted, events;
      }
      var step := ToolStep(index, action, observed.value, elapsed(index));
      EraseAllAppend(state.steps, step);
      state.steps := state.steps + [step];
      events := events + [StepDone(step)];
      assert events == [RunStarted] + StepEvents(state.steps);
      index := index + 1;
    }
    state.status := RunMaxStepsReached;
    events := events + [RunDone(state.Result())];
    return Finished(state.Result()), events;
  }
}
