/**
 Actions, step records and tool calls of the ReAct executor, and their conversion to and
 from the stored form (pkg/agents/react.py).
 */
module AgentActions {
  import opened Prelude
  import opened AgentState

  /** `args` is whatever the action maker supplied; only an `Obj` is a mapping. */
  datatype Action =
    | ToolCall(tool: string, args: Value, callId: Option<string>)
    | Final(answer: string)

  datatype StepStatus = StepCompleted | StepFailed

  datatype StepRecord = StepRecord(
    index: int,
    action: Action,
    status: StepStatus,
    actionResult: Value,
    error: Option<string>,
    elapsedMs: real)

  datatype ActionError = InvalidAction | ArgsNotMapping | UnknownStatus

  // ---------- actions ----------

  /** `serialize_agent_action`; `dict(args)` raises when the arguments are not a mapping. */
  function SerializeAction(action: Action, toolCallId: Option<string>): Result<Fields, ActionError> {
    match action
    case Final(answer) => Ok(map[KType := Str("final"), KAnswer := Str(answer)])
    case ToolCall(tool, args, callId) =>
      if !args.Obj? then Err(ArgsNotMapping) else
      var payload := map[KType := Str("tool_call"), KTool := Str(tool), KArgs := args, KCallId := StrOrNull(callId)];
      Ok(if toolCallId.Some? then payload[KToolCallId := Str(toolCallId.value)] else payload)
  }

  /** `parse_agent_action`. */
  function ParseAction(payload: Fields): Result<Action, ActionError> {
    var actionType := Get(payload, KType);
    if actionType == Str("final") then
      var answer := Get(payload, KAnswer);
      if answer.Str? then Ok(Final(answer.s)) else Err(InvalidAction)
    else if actionType == Str("tool_call") then
      var tool := Get(payload, KTool);
      var args := if KArgs in payload then payload[KArgs] else Obj(map[]);
      var callId := Get(payload, KCallId);
      if !NonEmptyStr(tool) then Err(InvalidAction)
      else if !args.Obj? then Err(InvalidAction)
      else if !NullOrStr(callId) then Err(InvalidAction)
      else Ok(ToolCall(tool.s, args, if callId.Str? then Some(callId.s) else None))
    else
      Err(InvalidAction)
  }

  /** `action_tool_call_id`: the stored identifier when there is one, else the stable one. */
  function ActionToolCallId(payload: Fields, runId: string, stepIndex: int): Result<string, CheckpointError> {
    var stored := Get(payload, KToolCallId);
    if NonEmptyStr(stored) then Ok(stored.s) else StableToolCallId(runId, stepIndex)
  }

  predicate NamesTool(action: Action) {
    action.ToolCall? ==> action.tool != ""
  }

  /** An action survives storage exactly when it names its tool. */
  lemma ActionSurvivesStorage(action: Action, toolCallId: Option<string>)
    requires SerializeAction(action, toolCallId).Ok?
    ensures ParseAction(SerializeAction(action, toolCallId).value) == Ok(action) <==> NamesTool(action)
    ensures ParseAction(SerializeAction(action, toolCallId).value).Err? <==> !NamesTool(action)
  {
  }

  /** The stored form the serializer produces: its keys, and an identifier that is either absent or a string. */
  predicate Canonical(payload: Fields) {
    if Get(payload, KType) == Str("final") then
      payload.Keys == {KType, KAnswer}
    else
      && {KType, KTool, KArgs, KCallId} <= payload.Keys <= {KType, KTool, KArgs, KCallId, KToolCallId}
      && (KToolCallId in payload ==> payload[KToolCallId].Str?)
  }

  function StoredCallId(payload: Fields): Option<string> {
    var stored := Get(payload, KToolCallId);
    if stored.Str? then Some(stored.s) else None
  }

  /** A stored action survives being read and written again exactly when it is in the serializer's form. */
  lemma StoredActionSurvivesReading(payload: Fields)
    requires ParseAction(payload).Ok?
    ensures SerializeAction(ParseAction(payload).value, StoredCallId(payload)) == Ok(payload) <==> Canonical(payload)
  {
    var again := SerializeAction(ParseAction(payload).value, StoredCallId(payload)).value;
    if Get(payload, KType) == Str("final") {
      assert again.Keys == {KType, KAnswer};
      if payload.Keys == {KType, KAnswer} {
        assert again == payload;
      }
    } else if KToolCallId in payload && payload[KToolCallId].Str? {
      assert again.Keys == {KType, KTool, KArgs, KCallId, KToolCallId};
      if payload.Keys == again.Keys {
        assert again == payload;
      }
    } else {
      assert again.Keys == {KType, KTool, KArgs, KCallId};
      if payload.Keys == again.Keys {
        assert again == payload;
      }
    }
  }

  /** What the serializer writes can be decoded, given a tool name and no empty identifier. */
  lemma SerializedActionDecodable(action: Action, toolCallId: Option<string>)
    requires SerializeAction(action, toolCallId).Ok?
    ensures DecodablePending(SerializeAction(action, toolCallId).value) <==>
      NamesTool(action) && (action.ToolCall? ==> toolCallId != Some(""))
  {
  }

  // ---------- step records ----------

  function StatusName(status: StepStatus): string {
    match status
    case StepCompleted => "completed"
    case StepFailed => "failed"
  }

  function StatusOf(name: string): Result<StepStatus, ActionError> {
    if name == "completed" then Ok(StepCompleted)
    else if name == "failed" then Ok(StepFailed)
    else Err(UnknownStatus)
  }

  /** `step_record_to_checkpoint_step`. */
  function ToCheckpointStep(step: StepRecord, toolCallId: Option<string>): Result<CheckpointStep, ActionError> {
    var action :- SerializeAction(step.action, toolCallId);
    Ok(CheckpointStep(step.index, StatusName(step.status), action, step.actionResult, step.error, step.elapsedMs))
  }

  /** `checkpoint_step_to_record`. */
  function ToRecord(step: CheckpointStep): Result<StepRecord, ActionError> {
    var status :- StatusOf(step.status);
    var action :- ParseAction(step.action);
    Ok(StepRecord(step.index, action, status, step.actionResult, step.error, step.elapsedMs))
  }

  lemma RecordSurvivesStorage(step: StepRecord, toolCallId: Option<string>)
    requires ToCheckpointStep(step, toolCallId).Ok?
    ensures ToRecord(ToCheckpointStep(step, toolCallId).value) == Ok(step) <==> NamesTool(step.action)
    ensures ToRecord(ToCheckpointStep(step, toolCallId).value).Err? <==> !NamesTool(step.action)
  {
    ActionSurvivesStorage(step.action, toolCallId);
  }

  lemma StoredStepSurvivesReading(step: CheckpointStep)
    requires ToRecord(step).Ok?
    ensures ToCheckpointStep(ToRecord(step).value, StoredCallId(step.action)) == Ok(step) <==> Canonical(step.action)
  {
    StoredActionSurvivesReading(step.action);
  }

  /** The steps of `state_from_checkpoint`. */
  function ToRecords(steps: seq<CheckpointStep>): Result<seq<StepRecord>, ActionError> {
    if steps == [] then Ok([]) else
    var front :- ToRecords(steps[..|steps| - 1]);
    var last :- ToRecord(steps[|steps| - 1]);
    Ok(front + [last])
  }

  /** Every step and the pending action were written by the serializer. */
  predicate WrittenBySerializer(c: Checkpoint) {
    && (forall i :: 0 <= i < |c.steps| ==> WrittenStep(c.steps[i]))
    && (c.pendingAction.Some? ==> WrittenAction(c.pendingAction.value))
  }

  predicate WrittenStep(step: CheckpointStep) {
    && WrittenAction(step.action)
    && StatusOf(step.status).Ok?
  }

  predicate WrittenAction(payload: Fields) {
    && ParseAction(payload).Ok?
    && SerializeAction(ParseAction(payload).value, StoredCallId(payload)) == Ok(payload)
    && Get(payload, KToolCallId) != Str("")
  }

  /** A valid checkpoint whose parts the serializer wrote is read back unchanged. */
  lemma WrittenCheckpointRoundTrip(c: Checkpoint, maxBytes: int, size: Value -> nat)
    requires Encode(c, maxBytes, size).Ok?
    requires c.schemaVersion == SCHEMA_VERSION && WrittenBySerializer(c)
    ensures Decode(Parsed(Obj(Encode(c, maxBytes, size).value)), maxBytes) == Ok(c)
  {
    WrittenIsReadable(c);
    EncodeDecodeRoundTrip(c, maxBytes, size);
  }

  lemma WrittenIsReadable(c: Checkpoint)
    requires c.schemaVersion == SCHEMA_VERSION && WrittenBySerializer(c)
    ensures Decodable(c)
  {
    forall i | 0 <= i < |c.steps| ensures DecodableStep(c.steps[i]) {
      WrittenIsDecodable(c.steps[i].action);
    }
    if c.pendingAction.Some? {
      WrittenIsDecodable(c.pendingAction.value);
    }
  }

  lemma WrittenIsDecodable(payload: Fields)
    requires WrittenAction(payload)
    ensures DecodablePending(payload)
  {
    SerializedActionDecodable(ParseAction(payload).value, StoredCallId(payload));
  }

  // ---------- tool calls ----------

  datatype ReplayPolicy = ReplaySafe | Idempotent | NonReplayable

  datatype Agent = Agent(
    tools: map<string, ReplayPolicy>,
    captureErrors: bool,
    definitionVersion: string,
    maxSteps: int)

  /** What `_execute_tool_call` does before the handler runs: refuse, or call it with these arguments. */
  datatype ToolRequest =
    | Refuse(reason: string)
    | Invoke(tool: string, args: Fields)

  function RequestTool(agent: Agent, call: Action, toolCallId: string): ToolRequest
    requires call.ToolCall?
  {
    if !call.args.Obj? then Refuse("tool args must be a mapping")
    else if call.tool !in agent.tools then Refuse("unknown tool: " + call.tool)
    else if agent.tools[call.tool].Idempotent? then
      Invoke(call.tool, call.args.fields[KAgentToolCallId := Str(toolCallId)])
    else Invoke(call.tool, call.args.fields)
  }

  datatype HandlerOutcome = Returned(value: Value) | Raised(name: string, message: string)

  /** The pair (action result, error); None when the error is raised to the caller. */
  function Captured(agent: Agent, error: string): Option<(Value, Option<string>)> {
    if agent.captureErrors then Some((Obj(map[KError := Str(error)]), Some(error))) else None
  }

  function Observe(agent: Agent, outcome: HandlerOutcome): Option<(Value, Option<string>)> {
    match outcome
    case Returned(value) => Some((value, None))
    case Raised(name, message) => Captured(agent, name + ": " + message)
  }

  /** The record of an executed tool call; an empty error string is falsy and counts as success. */
  function ToolStep(index: int, call: Action, observed: (Value, Option<string>), elapsedMs: real): StepRecord {
    var failed := observed.1.Some? && observed.1.value != "";
    StepRecord(index, call, if failed then StepFailed else StepCompleted, observed.0, observed.1, elapsedMs)
  }

  function FinalStep(index: int, answer: string, elapsedMs: real): StepRecord {
    StepRecord(index, Final(answer), StepCompleted, Null, None, elapsedMs)
  }
}
