/**
 The persisted execution snapshot (checkpoint) of an agent run and its JSON codec
 (pkg/agents/state.py).  A payload is a tree of `Value`s; turning the tree into bytes is
 left to two parameters, the size of the encoding and the text parser.
 */
module AgentState {
  import opened Prelude

  /** A Python value as it appears in a payload; `Foreign` is one orjson cannot serialise. */
  datatype Value =
    | Null
    | Bool(b: bool)
    | Int(i: int)
    | Float(r: real)
    | Str(s: string)
    | Arr(items: seq<Value>)
    | Obj(fields: Fields)
    | Foreign(id: nat)

  /** The keys of an object: those the codec reads, and any other by its name. */
  datatype Key =
    | KSchemaVersion | KRevision | KRunId | KPhase | KNextStepIndex | KMaxSteps | KUserInput | KSessionContext | KRoute
    | KAgentName | KDefinitionVersion | KModelConfig | KSteps | KPendingAction | KFinalAnswer | KIndex | KStatus | KAction
    | KActionResult | KError | KElapsedMs | KType | KTool | KArgs | KCallId | KToolCallId | KAnswer
    | KAgentToolCallId
    | Named(name: string)

  type Fields = map<Key, Value>

  const SCHEMA_VERSION: int := 1

  datatype Phase = Routing | BeforeAction | BeforeTool | ToolInFlight | FinalReady

  datatype CheckpointError =
    | UnsupportedVersion
    | Serialization
    | Validation
    | UnhashableType  // Python's TypeError, not a CheckpointError: an action type that cannot be hashed

  datatype CheckpointStep = CheckpointStep(
    index: int,
    status: string,
    action: Fields,
    actionResult: Value,
    error: Option<string>,
    elapsedMs: real)

  datatype Checkpoint = Checkpoint(
    runId: string,
    phase: Phase,
    maxSteps: int,
    userInput: string,
    definitionVersion: string,
    nextStepIndex: int,
    sessionContext: Fields,
    route: Option<string>,
    agentName: Option<string>,
    modelConfig: Fields,
    steps: seq<CheckpointStep>,
    pendingAction: Option<Fields>,
    finalAnswer: Option<string>,
    revision: int,
    schemaVersion: int)

  // ---------- reading a mapping ----------

  /** Python's `mapping.get(key)`: a missing key reads as None. */
  function Get(m: Fields, key: Key): Value {
    if key in m then m[key] else Null
  }

  predicate NonEmptyStr(v: Value) {
    v.Str? && v.s != ""
  }

  predicate NullOrStr(v: Value) {
    v.Null? || v.Str?
  }

  function StrOrNull(o: Option<string>): Value {
    match o
    case None => Null
    case Some(s) => Str(s)
  }

  function RequireStr(m: Fields, key: Key): Result<string, CheckpointError> {
    var v := Get(m, key);
    if v.Str? then Ok(v.s) else Err(Validation)
  }

  function RequireNonEmptyStr(m: Fields, key: Key): Result<string, CheckpointError> {
    var s :- RequireStr(m, key);
    if s == "" then Err(Validation) else Ok(s)
  }

  function OptionalStr(m: Fields, key: Key): Result<Option<string>, CheckpointError> {
    match Get(m, key)
    case Null => Ok(None)
    case Str(s) => Ok(Some(s))
    case _ => Err(Validation)
  }

  function RequireInt(m: Fields, key: Key): Result<int, CheckpointError> {
    var v := Get(m, key);
    if v.Int? then Ok(v.i) else Err(Validation)
  }

  /** A missing field reads as 0, an explicit null does not. */
  function RequireNumber(m: Fields, key: Key): Result<real, CheckpointError> {
    if key !in m then Ok(0.0) else
    match m[key]
    case Int(i) => Ok(i as real)
    case Float(r) => Ok(r)
    case _ => Err(Validation)
  }

  function RequireMapping(m: Fields, key: Key): Result<Fields, CheckpointError> {
    match Get(m, key)
    case Null => Ok(map[])
    case Obj(fields) => Ok(fields)
    case _ => Err(Validation)
  }

  // ---------- payloads ----------

  function PhaseName(p: Phase): string {
    match p
    case Routing => "routing"
    case BeforeAction => "before_action"
    case BeforeTool => "before_tool"
    case ToolInFlight => "tool_in_flight"
    case FinalReady => "final_ready"
  }

  function DecodePhase(v: Value): Result<Phase, CheckpointError> {
    if !v.Str? then Err(Validation)
    else if v.s == "routing" then Ok(Routing)
    else if v.s == "before_action" then Ok(BeforeAction)
    else if v.s == "before_tool" then Ok(BeforeTool)
    else if v.s == "tool_in_flight" then Ok(ToolInFlight)
    else if v.s == "final_ready" then Ok(FinalReady)
    else Err(Validation)
  }

  function StepPayload(step: CheckpointStep): Value {
    Obj(map[
      KIndex := Int(step.index),
      KStatus := Str(step.status),
      KAction := Obj(step.action),
      KActionResult := step.actionResult,
      KError := StrOrNull(step.error),
      KElapsedMs := Float(step.elapsedMs)])
  }

  function StepPayloads(steps: seq<CheckpointStep>): seq<Value> {
    seq(|steps|, i requires 0 <= i < |steps| => StepPayload(steps[i]))
  }

  function PendingValue(c: Checkpoint): Value {
    match c.pendingAction case None => Null case Some(a) => Obj(a)
  }

  /** The entry of a checkpoint's payload under a key; None for keys the payload does not have. */
  function Entry(c: Checkpoint, key: Key): Option<Value> {
    match key
    case KSchemaVersion => Some(Int(c.schemaVersion))
    case KRevision => Some(Int(c.revision))
    case KRunId => Some(Str(c.runId))
    case KPhase => Some(Str(PhaseName(c.phase)))
    case KNextStepIndex => Some(Int(c.nextStepIndex))
    case KMaxSteps => Some(Int(c.maxSteps))
    case KUserInput => Some(Str(c.userInput))
    case KSessionContext => Some(Obj(c.sessionContext))
    case KRoute => Some(StrOrNull(c.route))
    case KAgentName => Some(StrOrNull(c.agentName))
    case KDefinitionVersion => Some(Str(c.definitionVersion))
    case KModelConfig => Some(Obj(c.modelConfig))
    case KSteps => Some(Arr(StepPayloads(c.steps)))
    case KPendingAction => Some(PendingValue(c))
    case KFinalAnswer => Some(StrOrNull(c.finalAnswer))
    case _ => None
  }

  const PAYLOAD_KEYS: set<Key> := {
    KSchemaVersion, KRevision, KRunId, KPhase, KNextStepIndex, KMaxSteps, KUserInput, KSessionContext,
    KRoute, KAgentName, KDefinitionVersion, KModelConfig, KSteps, KPendingAction, KFinalAnswer}

  function ToPayload(c: Checkpoint): Fields {
    map key | key in PAYLOAD_KEYS && Entry(c, key).Some? :: Entry(c, key).value
  }

  // ---------- validation ----------

  /** `AgentCheckpointStep.action_type`: the type string, or "" when there is none. */
  function ActionType(action: Fields): string {
    var t := Get(action, KType);
    if t.Str? then t.s else ""
  }

  predicate ValidStep(step: CheckpointStep, position: int) {
    && step.index == position
    && ActionType(step.action) in {"tool_call", "final"}
    && (ActionType(step.action) == "tool_call" ==> NonEmptyStr(Get(step.action, KTool)))
  }

  predicate ValidPhase(c: Checkpoint) {
    match c.phase
    case FinalReady => c.finalAnswer.Some? && c.pendingAction.None?
    case BeforeTool =>
      && c.pendingAction.Some?
      && Get(c.pendingAction.value, KType) == Str("tool_call")
      && NonEmptyStr(Get(c.pendingAction.value, KTool))
      && c.finalAnswer.None?
    case ToolInFlight =>
      && c.pendingAction.Some?
      && Get(c.pendingAction.value, KType) == Str("tool_call")
      && NonEmptyStr(Get(c.pendingAction.value, KTool))
      && c.finalAnswer.None?
    case _ => c.pendingAction.None? && c.finalAnswer.None?
  }

  /** What a checkpoint must satisfy: contiguous steps, a step bound, and a phase that fits its fields. */
  predicate Valid(c: Checkpoint) {
    && c.runId != ""
    && c.maxSteps >= 1
    && c.revision >= 0
    && c.definitionVersion != ""
    && (forall i :: 0 <= i < |c.steps| ==> ValidStep(c.steps[i], i))
    && c.nextStepIndex == |c.steps|
    && c.nextStepIndex <= c.maxSteps
    && ValidPhase(c)
  }

  /** `_validate_checkpoint`, check by check in the source's order; it accepts exactly the valid checkpoints. */
  method ValidateCheckpoint(c: Checkpoint) returns (r: Result<(), CheckpointError>)
    ensures r.Ok? <==> Valid(c)
    ensures r.Err? ==> r.error == Validation
  {
    if c.runId == "" || c.maxSteps < 1 || c.revision < 0 || c.definitionVersion == "" {
      return Err(Validation);
    }
    var position := 0;
    while position < |c.steps|
      invariant 0 <= position <= |c.steps|
      invariant forall i :: 0 <= i < position ==> ValidStep(c.steps[i], i)
    {
      var step := c.steps[position];
      var actionType := ActionType(step.action);
      if step.index != position {
        return Err(Validation);
      }
      if actionType !in {"tool_call", "final"} {
        return Err(Validation);
      }
      if actionType == "tool_call" && !NonEmptyStr(Get(step.action, KTool)) {
        return Err(Validation);
      }
      position := position + 1;
    }
    if c.nextStepIndex != |c.steps| || c.nextStepIndex > c.maxSteps {
      return Err(Validation);
    }
    if c.phase.FinalReady? {
      if c.finalAnswer.None? || c.pendingAction.Some? {
        return Err(Validation);
      }
      return Ok(());
    }
    if c.phase.BeforeTool? || c.phase.ToolInFlight? {
      if c.pendingAction.None? || Get(c.pendingAction.value, KType) != Str("tool_call") {
        return Err(Validation);
      }
      if !NonEmptyStr(Get(c.pendingAction.value, KTool)) || c.finalAnswer.Some? {
        return Err(Validation);
      }
      return Ok(());
    }
    if c.pendingAction.Some? || c.finalAnswer.Some? {
      return Err(Validation);
    }
    return Ok(());
  }

  // ---------- encoding ----------

  predicate Serialisable(v: Value) {
    match v
    case Foreign(_) => false
    case Arr(items) => forall x :: x in items ==> Serialisable(x)
    case Obj(fields) => forall k :: k in fields ==> Serialisable(fields[k])
    case _ => true
  }

  /** `encode_checkpoint`; `size` is the number of bytes orjson produces for a payload. */
  function Encode(c: Checkpoint, maxBytes: int, size: Value -> nat): Result<Fields, CheckpointError> {
    if !Valid(c) then Err(Validation)
    else if !Serialisable(Obj(ToPayload(c))) then Err(Serialization)
    else if size(Obj(ToPayload(c))) > maxBytes then Err(Serialization)
    else Ok(ToPayload(c))
  }

  // ---------- decoding ----------

  /** What `decode_checkpoint` is handed: text of some length that parses or not, or a parsed value. */
  datatype Payload = Text(length: nat, parsed: Option<Value>) | Parsed(value: Value)

  /** Membership of the action type in `_ACTION_TYPES`; hashing a list or an object raises. */
  function DecodeActionType(action: Fields): Result<string, CheckpointError> {
    match Get(action, KType)
    case Arr(_) => Err(UnhashableType)
    case Obj(_) => Err(UnhashableType)
    case Str(s) => if s in {"tool_call", "final"} then Ok(s) else Err(Validation)
    case _ => Err(Validation)
  }

  predicate IdentityFields(action: Fields) {
    && NullOrStr(Get(action, KCallId))
    && (Get(action, KToolCallId).Null? || NonEmptyStr(Get(action, KToolCallId)))
  }

  function DecodeStep(raw: Value): Result<CheckpointStep, CheckpointError> {
    if !raw.Obj? then Err(Validation) else
    var action := Get(raw.fields, KAction);
    if !action.Obj? then Err(Validation) else
    var actionType :- DecodeActionType(action.fields);
    if actionType == "tool_call" && !NonEmptyStr(Get(action.fields, KTool)) then Err(Validation)
    else if actionType == "final" && !Get(action.fields, KAnswer).Str? then Err(Validation)
    else if actionType == "tool_call" && !IdentityFields(action.fields) then Err(Validation)
    else if !NullOrStr(Get(raw.fields, KError)) then Err(Validation)
    else
      var index :- RequireInt(raw.fields, KIndex);
      var status :- RequireNonEmptyStr(raw.fields, KStatus);
      var elapsedMs :- RequireNumber(raw.fields, KElapsedMs);
      var error := Get(raw.fields, KError);
      Ok(CheckpointStep(index, status, action.fields, Get(raw.fields, KActionResult),
                        if error.Str? then Some(error.s) else None, elapsedMs))
  }

  /** The steps of a raw list, or the error of the first one that is malformed. */
  function DecodeStepList(raws: seq<Value>): Result<seq<CheckpointStep>, CheckpointError> {
    if raws == [] then Ok([]) else
    var first :- DecodeStep(raws[0]);
    var rest :- DecodeStepList(raws[1..]);
    Ok([first] + rest)
  }

  function DecodeSteps(raw: Value): Result<seq<CheckpointStep>, CheckpointError> {
    match raw
    case Null => Ok([])
    case Arr(items) => DecodeStepList(items)
    case _ => Err(Validation)
  }

  /** The list-building loop of `_decode_steps`. */
  method DecodeStepsLoop(raw: Value) returns (r: Result<seq<CheckpointStep>, CheckpointError>)
    ensures r == DecodeSteps(raw)
  {
    if raw.Null? {
      return Ok([]);
    }
    if !raw.Arr? {
      return Err(Validation);
    }
    var steps: seq<CheckpointStep> := [];
    var i := 0;
    assert raw.items[0..] == raw.items;
    assert forall rest: seq<CheckpointStep> :: [] + rest == rest;
    while i < |raw.items|
      invariant 0 <= i <= |raw.items|
      invariant DecodeStepList(raw.items) ==
        (match DecodeStepList(raw.items[i..])
         case Ok(rest) => Ok(steps + rest)
         case Err(e) => Err(e))
    {
      var step := DecodeStep(raw.items[i]);
      assert raw.items[i..][1..] == raw.items[i + 1..];
      if step.Err? {
        return Err(step.error);
      }
      ghost var before := steps;
      steps := steps + [step.value];
      assert forall rest: seq<CheckpointStep> :: before + ([step.value] + rest) == steps + rest;
      i := i + 1;
    }
    assert raw.items[i..] == [];
    assert steps + [] == steps;
    return Ok(steps);
  }

  function DecodeOptionalAction(raw: Value): Result<Option<Fields>, CheckpointError> {
    if raw.Null? then Ok(None)
    else if !raw.Obj? then Err(Validation)
    else
      var action := raw.fields;
      var actionType :- DecodeActionType(action);
      if actionType == "tool_call" then
        if !NonEmptyStr(Get(action, KTool)) then Err(Validation)
        else if KArgs in action && !action[KArgs].Obj? then Err(Validation)
        else if !IdentityFields(action) then Err(Validation)
        else Ok(Some(action))
      else if !Get(action, KAnswer).Str? then Err(Validation)
      else Ok(Some(action))
  }

  /** `decode_checkpoint`. */
  function Decode(payload: Payload, maxBytes: int): Result<Checkpoint, CheckpointError> {
    match payload
    case Text(length, parsed) =>
      if length > maxBytes then Err(Serialization)
      else if parsed.None? then Err(Validation)
      else DecodeValue(parsed.value)
    case Parsed(value) => DecodeValue(value)
  }

  function DecodeValue(value: Value): Result<Checkpoint, CheckpointError> {
    if !value.Obj? then Err(Validation) else
    var raw := value.fields;
    var version := Get(raw, KSchemaVersion);
    if !version.Int? then Err(Validation)
    else if version.i != SCHEMA_VERSION then Err(UnsupportedVersion)
    else
      var steps :- DecodeSteps(Get(raw, KSteps));
      var pendingAction :- DecodeOptionalAction(Get(raw, KPendingAction));
      var phase :- DecodePhase(Get(raw, KPhase));
      var c :- DecodeScalars(raw, steps, pendingAction, phase);
      if Valid(c) then Ok(c) else Err(Validation)
  }

  /** The remaining fields of a checkpoint; every reader fails with the same error class. */
  function DecodeScalars(
    raw: Fields, steps: seq<CheckpointStep>, pendingAction: Option<Fields>, phase: Phase)
    : Result<Checkpoint, CheckpointError>
  {
    var runId := RequireNonEmptyStr(raw, KRunId);
    var maxSteps := RequireInt(raw, KMaxSteps);
    var userInput := RequireStr(raw, KUserInput);
    var definitionVersion := RequireNonEmptyStr(raw, KDefinitionVersion);
    var nextStepIndex := RequireInt(raw, KNextStepIndex);
    var sessionContext := RequireMapping(raw, KSessionContext);
    var route := OptionalStr(raw, KRoute);
    var agentName := OptionalStr(raw, KAgentName);
    var modelConfig := RequireMapping(raw, KModelConfig);
    var finalAnswer := OptionalStr(raw, KFinalAnswer);
    var revision := RequireInt(raw, KRevision);
    if && runId.Ok? && maxSteps.Ok? && userInput.Ok? && definitionVersion.Ok? && nextStepIndex.Ok?
       && sessionContext.Ok? && route.Ok? && agentName.Ok? && modelConfig.Ok? && finalAnswer.Ok? && revision.Ok?
    then
      Ok(Checkpoint(runId.value, phase, maxSteps.value, userInput.value, definitionVersion.value,
                    nextStepIndex.value, sessionContext.value, route.value, agentName.value,
                    modelConfig.value, steps, pendingAction, finalAnswer.value, revision.value,
                    SCHEMA_VERSION))
    else
      Err(Validation)
  }

  // ---------- what the codec preserves ----------

  /** The checks decoding makes on an action beyond those validation makes. */
  predicate DecodableAction(action: Fields) {
    match Get(action, KType)
    case Str(t) =>
      if t == "tool_call" then NonEmptyStr(Get(action, KTool)) && IdentityFields(action)
      else t == "final" && Get(action, KAnswer).Str?
    case _ => false
  }

  predicate DecodableStep(step: CheckpointStep) {
    DecodableAction(step.action) && step.status != ""
  }

  predicate DecodablePending(action: Fields) {
    && DecodableAction(action)
    && (Get(action, KType) == Str("tool_call") && KArgs in action ==> action[KArgs].Obj?)
  }

  /** The condition under which a stored snapshot can be read back. */
  predicate Decodable(c: Checkpoint) {
    && c.schemaVersion == SCHEMA_VERSION
    && (forall i :: 0 <= i < |c.steps| ==> DecodableStep(c.steps[i]))
    && (c.pendingAction.Some? ==> DecodablePending(c.pendingAction.value))
  }

  lemma PayloadReads(c: Checkpoint, key: Key)
    requires Entry(c, key).Some?
    ensures Get(ToPayload(c), key) == Entry(c, key).value
  {
  }

  predicate HoldsScalars(raw: Fields, c: Checkpoint) {
    HoldsIdentity(raw, c) && HoldsContext(raw, c)
  }

  predicate HoldsIdentity(raw: Fields, c: Checkpoint) {
    && Get(raw, KRunId) == Str(c.runId)
    && Get(raw, KMaxSteps) == Int(c.maxSteps)
    && Get(raw, KUserInput) == Str(c.userInput)
    && Get(raw, KDefinitionVersion) == Str(c.definitionVersion)
    && Get(raw, KNextStepIndex) == Int(c.nextStepIndex)
    && Get(raw, KRevision) == Int(c.revision)
  }

  predicate HoldsContext(raw: Fields, c: Checkpoint) {
    && Get(raw, KSessionContext) == Obj(c.sessionContext)
    && Get(raw, KRoute) == StrOrNull(c.route)
    && Get(raw, KAgentName) == StrOrNull(c.agentName)
    && Get(raw, KModelConfig) == Obj(c.modelConfig)
    && Get(raw, KFinalAnswer) == StrOrNull(c.finalAnswer)
  }

  lemma PayloadHoldsIdentity(c: Checkpoint)
    ensures HoldsIdentity(ToPayload(c), c)
  {
    PayloadReads(c, KRunId);
    PayloadReads(c, KMaxSteps);
    PayloadReads(c, KUserInput);
    PayloadReads(c, KDefinitionVersion);
    PayloadReads(c, KNextStepIndex);
    PayloadReads(c, KRevision);
  }

  lemma PayloadHoldsContext(c: Checkpoint)
    ensures HoldsContext(ToPayload(c), c)
  {
    PayloadReads(c, KSessionContext);
    PayloadReads(c, KRoute);
    PayloadReads(c, KAgentName);
    PayloadReads(c, KModelConfig);
    PayloadReads(c, KFinalAnswer);
  }

  lemma PayloadHoldsScalars(c: Checkpoint)
    ensures HoldsScalars(ToPayload(c), c)
  {
    PayloadHoldsIdentity(c);
    PayloadHoldsContext(c);
  }

  lemma DecodeStepInverts(step: CheckpointStep)
    ensures DecodeStep(StepPayload(step)) == Ok(step) <==> DecodableStep(step)
    ensures DecodeStep(StepPayload(step)).Ok? <==> DecodableStep(step)
  {
  }

  lemma {:induction false} DecodeStepListInverts(steps: seq<CheckpointStep>)
    ensures DecodeStepList(StepPayloads(steps)).Ok? <==> (forall i :: 0 <= i < |steps| ==> DecodableStep(steps[i]))
    ensures DecodeStepList(StepPayloads(steps)).Ok? ==> DecodeStepList(StepPayloads(steps)) == Ok(steps)
  {
    if steps != [] {
      DecodeStepInverts(steps[0]);
      DecodeStepListInverts(steps[1..]);
      assert StepPayloads(steps)[1..] == StepPayloads(steps[1..]);
      assert steps == [steps[0]] + steps[1..];
      assert forall i :: 0 <= i < |steps[1..]| ==> steps[1..][i] == steps[i + 1];
    }
  }

  lemma ScalarsDecode(raw: Fields, c: Checkpoint)
    requires HoldsScalars(raw, c) && c.runId != "" && c.definitionVersion != "" && c.schemaVersion == SCHEMA_VERSION
    ensures DecodeScalars(raw, c.steps, c.pendingAction, c.phase) == Ok(c)
  {
  }

  lemma PhaseDecodes(p: Phase)
    ensures DecodePhase(Str(PhaseName(p))) == Ok(p)
  {
  }

  lemma PendingDecodes(pending: Option<Fields>)
    ensures pending.None? ==> DecodeOptionalAction(Null) == Ok(None)
    ensures pending.Some? ==>
      if DecodablePending(pending.value) then DecodeOptionalAction(Obj(pending.value)) == Ok(pending)
      else DecodeOptionalAction(Obj(pending.value)).Err?
  {
  }

  lemma HeldFieldsDecode(raw: Fields, c: Checkpoint)
    requires Valid(c) && HoldsScalars(raw, c)
    requires Get(raw, KSchemaVersion) == Int(c.schemaVersion)
    requires Get(raw, KSteps) == Arr(StepPayloads(c.steps))
    requires Get(raw, KPendingAction) == PendingValue(c)
    requires Get(raw, KPhase) == Str(PhaseName(c.phase))
    ensures var r := DecodeValue(Obj(raw)); if Decodable(c) then r == Ok(c) else r.Err?
  {
    DecodeStepListInverts(c.steps);
    assert DecodeSteps(Get(raw, KSteps)) == DecodeStepList(StepPayloads(c.steps));
    PendingDecodes(c.pendingAction);
    PhaseDecodes(c.phase);
    if c.schemaVersion == SCHEMA_VERSION {
      ScalarsDecode(raw, c);
    }
  }

  lemma PayloadDecodes(c: Checkpoint)
    requires Valid(c)
    ensures var r := DecodeValue(Obj(ToPayload(c))); if Decodable(c) then r == Ok(c) else r.Err?
  {
    var raw := ToPayload(c);
    PayloadHoldsScalars(c);
    PayloadReads(c, KSchemaVersion);
    PayloadReads(c, KSteps);
    PayloadReads(c, KPendingAction);
    PayloadReads(c, KPhase);
    HeldFieldsDecode(raw, c);
  }

  /** An encoded checkpoint is read back unchanged exactly when it is decodable, and is otherwise rejected. */
  lemma EncodeDecodeRoundTrip(c: Checkpoint, maxBytes: int, size: Value -> nat)
    requires Encode(c, maxBytes, size).Ok?
    ensures Decode(Parsed(Obj(Encode(c, maxBytes, size).value)), maxBytes) == Ok(c) <==> Decodable(c)
    ensures Decode(Parsed(Obj(Encode(c, maxBytes, size).value)), maxBytes).Err? <==> !Decodable(c)
  {
    assert Valid(c) && Encode(c, maxBytes, size).value == ToPayload(c);
    PayloadDecodes(c);
  }

  /** Whatever decoding accepts is valid, decodable, and encodes to a payload that decodes to it again. */
  lemma DecodedIsStable(payload: Payload, maxBytes: int)
    requires Decode(payload, maxBytes).Ok?
    ensures var c := Decode(payload, maxBytes).value;
      Valid(c) && Decodable(c) && DecodeValue(Obj(ToPayload(c))) == Ok(c)
  {
    var value := if payload.Text? then payload.parsed.value else payload.value;
    var c := Decode(payload, maxBytes).value;
    assert DecodeValue(value) == Ok(c);
    var raw := Get(value.fields, KSteps);
    if raw.Arr? {
      DecodedStepsDecodable(raw.items);
    }
    PayloadDecodes(c);
  }

  lemma {:induction false} DecodedStepsDecodable(raws: seq<Value>)
    requires DecodeStepList(raws).Ok?
    ensures forall i :: 0 <= i < |DecodeStepList(raws).value| ==> DecodableStep(DecodeStepList(raws).value[i])
  {
    if raws != [] {
      DecodedStepsDecodable(raws[1..]);
    }
  }

  function AnswerlessFinal(): Checkpoint {
    Checkpoint("run", BeforeAction, 1, "", "v1", 1, map[], None, None, map[],
               [CheckpointStep(0, "completed", map[KType := Str("final")], Null, None, 0.0)], None, None, 0, 1)
  }

  lemma AnswerlessFinalSerialises()
    ensures Serialisable(Obj(ToPayload(AnswerlessFinal())))
  {
    var c := AnswerlessFinal();
    assert Serialisable(Arr(StepPayloads(c.steps))) by {
      assert StepPayloads(c.steps) == [StepPayload(c.steps[0])];
    }
    forall key | key in ToPayload(c) ensures Serialisable(ToPayload(c)[key]) {
      assert ToPayload(c)[key] == Entry(c, key).value;
    }
  }

  /** Encoding checks less than decoding: a checkpoint can be stored that cannot be read back. */
  lemma EncodableButNotDecodable(size: Value -> nat)
    ensures exists c: Checkpoint, maxBytes ::
      Encode(c, maxBytes, size).Ok? && Decode(Parsed(Obj(Encode(c, maxBytes, size).value)), maxBytes).Err?
  {
    var c := AnswerlessFinal();
    var maxBytes := size(Obj(ToPayload(c)));
    AnswerlessFinalSerialises();
    assert !DecodableStep(c.steps[0]);
    EncodeDecodeRoundTrip(c, maxBytes, size);
  }

  // ---------- decoding outside the codec's own errors ----------

  /** An action whose type is a list or an object, which Python cannot look up in a set. */
  predicate UnhashableAction(v: Value) {
    v.Obj? && (Get(v.fields, KType).Arr? || Get(v.fields, KType).Obj?)
  }

  /** A raw step every check of the decoder accepts. */
  predicate StepShaped(raw: Value) {
    && raw.Obj?
    && Get(raw.fields, KAction).Obj?
    && DecodableAction(Get(raw.fields, KAction).fields)
    && NullOrStr(Get(raw.fields, KError))
    && Get(raw.fields, KIndex).Int?
    && NonEmptyStr(Get(raw.fields, KStatus))
    && (KElapsedMs in raw.fields ==> raw.fields[KElapsedMs].Int? || raw.fields[KElapsedMs].Float?)
  }

  /** All steps before `k` are well formed, and the action of step `k` has an unhashable type. */
  predicate EscapesAt(items: seq<Value>, k: nat) {
    && k < |items|
    && (forall i :: 0 <= i < k ==> StepShaped(items[i]))
    && items[k].Obj?
    && UnhashableAction(Get(items[k].fields, KAction))
  }

  lemma StepDecodes(raw: Value)
    ensures DecodeStep(raw).Ok? <==> StepShaped(raw)
    ensures DecodeStep(raw) == Err(UnhashableType) <==> raw.Obj? && UnhashableAction(Get(raw.fields, KAction))
  {
  }

  lemma {:induction false} StepListEscapes(items: seq<Value>)
    ensures DecodeStepList(items).Ok? <==> forall i :: 0 <= i < |items| ==> StepShaped(items[i])
    ensures DecodeStepList(items) == Err(UnhashableType) <==> exists k :: 0 <= k < |items| && EscapesAt(items, k)
  {
    if items != [] {
      var rest := items[1..];
      StepDecodes(items[0]);
      StepListEscapes(rest);
      if StepShaped(items[0]) {
        if k :| 0 <= k < |rest| && EscapesAt(rest, k) {
          assert forall i :: 0 < i < k + 1 ==> items[i] == rest[i - 1];
          assert EscapesAt(items, k + 1);
        }
        if k :| 0 <= k < |items| && EscapesAt(items, k) {
          assert k > 0;
          assert EscapesAt(rest, k - 1);
        }
      } else if DecodeStep(items[0]) == Err(UnhashableType) {
        assert EscapesAt(items, 0);
      }
    }
  }

  /** The object a payload holds, once its size, its syntax and its schema version have passed. */
  function Readable(payload: Payload, maxBytes: int): Option<Fields> {
    var value := if payload.Parsed? then Some(payload.value) else if payload.length > maxBytes then None else payload.parsed;
    if value.Some? && value.value.Obj? && Get(value.value.fields, KSchemaVersion) == Int(SCHEMA_VERSION)
    then Some(value.value.fields) else None
  }

  /** What makes decoding raise a TypeError: the first step that is not well formed, or else the pending action. */
  predicate Unhashable(raw: Fields) {
    var steps := Get(raw, KSteps);
    || (steps.Arr? && exists k :: 0 <= k < |steps.items| && EscapesAt(steps.items, k))
    || ((steps.Null? || (steps.Arr? && forall i :: 0 <= i < |steps.items| ==> StepShaped(steps.items[i])))
        && UnhashableAction(Get(raw, KPendingAction)))
  }

  /** Decoding fails outside the codec's own error classes exactly for readable payloads with such an action. */
  lemma UnhashableTypeEscapes(payload: Payload, maxBytes: int)
    ensures Decode(payload, maxBytes) == Err(UnhashableType) <==>
      Readable(payload, maxBytes).Some? && Unhashable(Readable(payload, maxBytes).value)
  {
    var readable := Readable(payload, maxBytes);
    if readable.Some? {
      var raw := readable.value;
      var steps := Get(raw, KSteps);
      if steps.Arr? {
        StepListEscapes(steps.items);
      }
      assert Decode(payload, maxBytes) == DecodeValue(Obj(raw));
    }
  }

  /** Both kinds of payload that do: one step with a list as its action type, or a pending action with an object. */
  lemma UnhashablePayloads(maxBytes: int)
    ensures var step := Obj(map[KAction := Obj(map[KType := Arr([])])]);
      Decode(Parsed(Obj(map[KSchemaVersion := Int(SCHEMA_VERSION), KSteps := Arr([step])])), maxBytes) == Err(UnhashableType)
    ensures var action := Obj(map[KType := Obj(map[])]);
      Decode(Parsed(Obj(map[KSchemaVersion := Int(SCHEMA_VERSION), KPendingAction := action])), maxBytes) == Err(UnhashableType)
  {
    assert EscapesAt([Obj(map[KAction := Obj(map[KType := Arr([])])])], 0);
    var step := Obj(map[KAction := Obj(map[KType := Arr([])])]);
    UnhashableTypeEscapes(Parsed(Obj(map[KSchemaVersion := Int(SCHEMA_VERSION), KSteps := Arr([step])])), maxBytes);
    var action := Obj(map[KType := Obj(map[])]);
    UnhashableTypeEscapes(Parsed(Obj(map[KSchemaVersion := Int(SCHEMA_VERSION), KPendingAction := action])), maxBytes);
  }

  // ---------- identity of a tool call ----------

  function Digit(n: nat): char
    requires n < 10
  {
    "0123456789"[n]
  }

  function Decimal(n: nat): (s: string)
    ensures |s| >= 1
  {
    if n < 10 then [Digit(n)] else Decimal(n / 10) + [Digit(n % 10)]
  }

  /** `stable_tool_call_id`. */
  function StableToolCallId(runId: string, stepIndex: int): Result<string, CheckpointError> {
    if runId == "" || stepIndex < 0 then Err(Validation)
    else Ok(runId + ":" + Decimal(stepIndex))
  }

  lemma {:induction false} DecimalInjective(m: nat, n: nat)
    requires Decimal(m) == Decimal(n)
    ensures m == n
  {
    assert Decimal(m)[|Decimal(m)| - 1] == Digit(m % 10);
    assert Decimal(n)[|Decimal(n)| - 1] == Digit(n % 10);
    assert m % 10 == n % 10;
    if m >= 10 && n >= 10 {
      assert Decimal(m)[..|Decimal(m)| - 1] == Decimal(m / 10);
      assert Decimal(n)[..|Decimal(n)| - 1] == Decimal(n / 10);
      DecimalInjective(m / 10, n / 10);
    }
  }

  /** Within one run, different step indices have different call identifiers. */
  lemma StableIdInjective(runId: string, i: nat, j: nat)
    requires runId != ""
    ensures StableToolCallId(runId, i) == StableToolCallId(runId, j) <==> i == j
  {
    if StableToolCallId(runId, i) == StableToolCallId(runId, j) {
      var prefix := runId + ":";
      assert (prefix + Decimal(i))[|prefix|..] == Decimal(i);
      assert (prefix + Decimal(j))[|prefix|..] == Decimal(j);
      DecimalInjective(i, j);
    }
  }
}
