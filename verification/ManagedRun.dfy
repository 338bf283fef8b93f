/**
 Managed agent runs as a state machine (pkg/agents/react.py, pkg/agents/runtime.py): one
 store, any number of executors, and a trace of every tool handler that was called.  An
 executor takes one step between two awaits; executors, interrupt requests, lease expiry
 and crashes interleave freely.
 */
module ManagedRun {
  import opened Prelude
  import opened AgentState
  import opened AgentActions
  import opened PlainRun

  // ---------- the store ----------

  datatype Control =
    | Ready | Running | InterruptRequested | Interrupted
    | RecoveryRequired | Completed | MaxStepsReached | Failed

  predicate IsTerminal(status: Control) {
    status in {Completed, MaxStepsReached, Failed, RecoveryRequired}
  }

  predicate IsResumable(status: Control) {
    status in {Ready, Interrupted}
  }

  /** The persisted side of one run; a lease names the attempt that holds it. */
  datatype Store = Store(checkpoint: Checkpoint, status: Control, lease: Option<nat>, result: Option<RunResult>)

  /** `fenced` says whether the store checks the lease besides the revision; the results hold either way. */
  datatype Config = Config(agent: Agent, runId: string, fenced: bool)

  /** The optimistic check every commit makes. */
  predicate Accepts(cfg: Config, store: Store, token: nat, expectedRevision: int) {
    && !IsTerminal(store.status)
    && store.checkpoint.revision == expectedRevision
    && (cfg.fenced ==> store.lease == Some(token))
  }

  function Pause(store: Store, kept: Checkpoint): Store {
    store.(checkpoint := kept, status := Interrupted, lease := None)
  }

  function NextRevision(c: Checkpoint): Checkpoint {
    c.(revision := c.revision + 1)
  }

  /** On a pause the contract does not fix which phase is kept: the new one, or the previous one. */
  function CommitCheckpoint(store: Store, candidate: Checkpoint, keepPrevious: bool): Store {
    if store.status == InterruptRequested then
      Pause(store, if keepPrevious then NextRevision(store.checkpoint) else candidate)
    else
      store.(checkpoint := candidate)
  }

  /** A finished step stays committed even when the commit pauses. */
  function CommitStep(store: Store, committed: Checkpoint): Store {
    if store.status == InterruptRequested then Pause(store, committed) else store.(checkpoint := committed)
  }

  /** A pause gives up the terminal commit and keeps the candidate. */
  function CommitTerminal(store: Store, candidate: Checkpoint, committed: Checkpoint, result: RunResult): Store {
    if store.status == InterruptRequested then Pause(store, candidate)
    else Store(committed, if result.status == RunCompleted then Completed else MaxStepsReached, None, Some(result))
  }

  // ---------- candidates handed over by an executor ----------

  function ToBeforeTool(c: Checkpoint, call: Fields): Checkpoint {
    NextRevision(c).(phase := BeforeTool, pendingAction := Some(call))
  }

  function ToInFlight(c: Checkpoint): Checkpoint {
    NextRevision(c).(phase := ToolInFlight)
  }

  function ToBeforeAction(c: Checkpoint, nextStepIndex: int): Checkpoint {
    NextRevision(c).(phase := BeforeAction, nextStepIndex := nextStepIndex, pendingAction := None)
  }

  function ToFinalReady(c: Checkpoint, answer: string): Checkpoint {
    NextRevision(c).(phase := FinalReady, finalAnswer := Some(answer))
  }

  /** The store appends a step that is not committed yet, under its stable call identifier. */
  function WithStep(runId: string, c: Checkpoint, step: StepRecord): Result<Checkpoint, ActionError> {
    if step.index < |c.steps| then Ok(c) else
    var stored :- ToCheckpointStep(step, OkOrNone(StableToolCallId(runId, step.index)));
    Ok(c.(steps := c.steps + [stored], nextStepIndex := |c.steps| + 1))
  }

  /** The loop over the steps of a terminal result: those not committed yet are appended in order. */
  function WithSteps(runId: string, c: Checkpoint, steps: seq<StepRecord>): Result<Checkpoint, ActionError> {
    if steps == [] then Ok(c) else
    var front :- WithSteps(runId, c, steps[..|steps| - 1]);
    WithStep(runId, front, steps[|steps| - 1])
  }

  function OkOrNone<E>(r: Result<string, E>): Option<string> {
    match r
    case Ok(s) => Some(s)
    case Err(_) => None
  }

  // ---------- executors ----------

  /** Where an executor stands: the await it is about to make, or `Stopped`. */
  datatype Pc =
    | ReadControl
    | LoadSnapshot
    | CommitStop
    | AskModel
    | CommitAction(action: Action)
    | CommitInFlight
    | CallTool
    | InHandler
    | CommitToolStep(step: StepRecord)
    | CommitFinal(answer: string, isNew: bool)
    | CommitMaxSteps
    | Stopped

  /**
   `checkpoint` is the last one committed or loaded; `start` is the number of steps the
   attempt began with, and `calls` and `commits` only count.
   */
  datatype Exec = Exec(
    pc: Pc,
    checkpoint: Checkpoint,
    steps: seq<StepRecord>,
    index: nat,
    pending: Option<Action>,
    start: nat,
    calls: nat,
    commits: nat)

  /** A call of a tool handler; `action` is the persisted action it serves. */
  datatype Invocation = Invocation(
    index: nat,
    attempt: nat,
    action: Fields,
    tool: string,
    args: Fields,
    callId: string)

  datatype RunState = RunState(store: Store, execs: seq<Exec>, trace: seq<Invocation>)

  // ---------- starting an attempt ----------

  datatype Assessment =
    | Resume(replayed: bool)
    | NeedsRecovery
    | IncompatibleVersion
    | UnknownTool
    | BadCheckpoint

  predicate StepToolKnown(agent: Agent, step: CheckpointStep) {
    ActionType(step.action) == "tool_call" ==>
      Get(step.action, KTool).Str? && Get(step.action, KTool).s in agent.tools
  }

  /** `assess_resume`. */
  function AssessResume(agent: Agent, c: Checkpoint): Assessment {
    if c.definitionVersion != agent.definitionVersion then IncompatibleVersion
    else if exists i :: 0 <= i < |c.steps| && !StepToolKnown(agent, c.steps[i]) then UnknownTool
    else if c.phase.Routing? || c.phase.BeforeAction? then Resume(false)
    else if c.phase.FinalReady? then
      if c.finalAnswer.None? then BadCheckpoint else Resume(false)
    else
      var tool := if c.pendingAction.Some? then Get(c.pendingAction.value, KTool) else Null;
      if !NonEmptyStr(tool) then BadCheckpoint
      else if tool.s !in agent.tools then UnknownTool
      else if c.phase.BeforeTool? then Resume(false)
      else if agent.tools[tool.s].NonReplayable? then NeedsRecovery
      else Resume(true)
  }

  /** The head of the loop: `while index < max_steps`, then a dispatch on the phase. */
  function LoopHead(index: nat, maxSteps: int, phase: Phase): Pc {
    if index >= maxSteps then CommitMaxSteps
    else match phase
      case BeforeTool => CommitInFlight
      case ToolInFlight => CallTool
      case _ => ReadControl
  }

  function StoppedExec(c: Checkpoint): Exec {
    Exec(Stopped, c, [], 0, None, |c.steps|, 0, 0)
  }

  /** `state_from_checkpoint` and the part of `_drive` before the loop. */
  function Begin(c: Checkpoint): Exec {
    var records := ToRecords(c.steps);
    if records.Err? then StoppedExec(c) else
    var n := |c.steps|;
    var e := Exec(LoopHead(n, c.maxSteps, c.phase), c, records.value, n, None, n, 0, 0);
    match c.phase
    case FinalReady =>
      var answer := if c.finalAnswer.Some? then c.finalAnswer.value else "";
      e.(pc := CommitFinal(answer, false), steps := records.value + [FinalStep(n, answer, 0.0)])
    case Routing => e
    case BeforeAction => e
    case _ =>
      var action := if c.pendingAction.Some? then ParseAction(c.pendingAction.value) else Err(InvalidAction);
      if action.Err? || !action.value.ToolCall? then StoppedExec(c) else e.(pending := Some(action.value))
  }

  // ---------- steps ----------

  datatype Label =
    | Claim                                        // an executor starts or resumes the run
    | RequestInterrupt
    | Release(status: Control)                     // a lease expires, or an attempt ends and reports a status
    | Read(i: nat, leaseFresh: bool)               // load the control state
    | Load(i: nat)                                 // load the checkpoint a requested interrupt is to pause at
    | Choose(i: nat, action: Action, elapsed: real) // the action maker answers
    | Commit(i: nat, keepPrevious: bool)
    | Call(i: nat, elapsed: real)                  // the handler starts, or the call is refused
    | Return(i: nat, outcome: HandlerOutcome, elapsed: real)
    | Crash(i: nat)

  function Put(s: RunState, i: nat, e: Exec): RunState
    requires i < |s.execs|
  {
    s.(execs := s.execs[i := e])
  }

  function Stop(e: Exec): Exec {
    e.(pc := Stopped)
  }

  /** The first attempt runs the initial checkpoint; later ones go through `assess_resume`. */
  function DoClaim(cfg: Config, s: RunState): RunState {
    if !IsResumable(s.store.status) then s else
    var c := s.store.checkpoint;
    var safe := if |s.execs| == 0 then c.runId == cfg.runId else AssessResume(cfg.agent, c).Resume?;
    s.(store := s.store.(status := Running, lease := Some(|s.execs|)),
       execs := s.execs + [if safe then Begin(c) else StoppedExec(c)])
  }

  function DoRelease(s: RunState, status: Control): RunState {
    if s.store.status in {Running, InterruptRequested} && status in {Interrupted, RecoveryRequired, Failed} then
      s.(store := s.store.(status := status, lease := None))
    else s
  }

  predicate ShouldStop(status: Control, leaseOwned: bool) {
    !leaseOwned || status in {InterruptRequested, Interrupted} || IsTerminal(status)
  }

  /** The first await of `_control_stop_reason`. */
  function DoRead(s: RunState, i: nat, leaseFresh: bool): RunState
    requires i < |s.execs|
  {
    var e := s.execs[i];
    if e.pc != ReadControl then s else
    var leaseOwned := leaseFresh && s.store.lease == Some(i);
    if !ShouldStop(s.store.status, leaseOwned) then Put(s, i, e.(pc := AskModel))
    else if leaseOwned && s.store.status == InterruptRequested then
      Put(s, i, e.(pc := LoadSnapshot))
    else Put(s, i, Stop(e))
  }

  /** Its second await: the stop commit starts from the checkpoint that is stored by then. */
  function DoLoad(s: RunState, i: nat): RunState
    requires i < |s.execs|
  {
    var e := s.execs[i];
    if e.pc != LoadSnapshot then s else Put(s, i, e.(pc := CommitStop, checkpoint := s.store.checkpoint))
  }

  /** Where the executor stands once the action maker has answered. */
  function Chosen(e: Exec, action: Action, elapsed: real): Exec {
    match action
    case Final(answer) => e.(pc := CommitFinal(answer, true), steps := e.steps + [FinalStep(e.index, answer, elapsed)])
    case ToolCall(_, _, _) => e.(pc := CommitAction(action))
  }

  function DoChoose(s: RunState, i: nat, action: Action, elapsed: real): RunState
    requires i < |s.execs|
  {
    if s.execs[i].pc != AskModel then s else Put(s, i, Chosen(s.execs[i], action, elapsed))
  }

  /** After a commit the executor goes on from what was committed, unless the commit paused the run. */
  function Committed(s: RunState, i: nat, store: Store, next: Exec): RunState
    requires i < |s.execs|
  {
    s.(store := store,
       execs := s.execs[i := if s.store.status == InterruptRequested then Stop(next) else next])
  }

  predicate AtCommit(pc: Pc) {
    match pc
    case ReadControl => false
    case LoadSnapshot => false
    case AskModel => false
    case CallTool => false
    case InHandler => false
    case Stopped => false
    case _ => true
  }

  /** A rejected commit raises in the executor and leaves the store alone. */
  function DoCommit(cfg: Config, s: RunState, i: nat, keepPrevious: bool): RunState
    requires i < |s.execs|
  {
    var e := s.execs[i].(commits := s.execs[i].commits + 1);
    if !AtCommit(e.pc) then s
    else if !Accepts(cfg, s.store, i, e.checkpoint.revision) then Put(s, i, Stop(e))
    else DoAccepted(s, i, e, keepPrevious)
  }

  function DoAccepted(s: RunState, i: nat, e: Exec, keepPrevious: bool): RunState
    requires i < |s.execs|
  {
    var c := e.checkpoint;
    match e.pc
      case CommitStop =>
        Committed(s, i, CommitCheckpoint(s.store, NextRevision(c), false), Stop(e))
      case CommitAction(action) =>
        var call := SerializeAction(action, OkOrNone(StableToolCallId(c.runId, e.index)));
        // Encoding rejects a call without a tool name; arguments that are not a mapping raise earlier.
        if call.Err? || !NamesTool(action) then Put(s, i, Stop(e)) else
        var candidate := ToBeforeTool(c, call.value);
        Committed(s, i, CommitCheckpoint(s.store, candidate, keepPrevious),
                  e.(pc := CommitInFlight, checkpoint := candidate, pending := Some(action)))
      case CommitInFlight =>
        var candidate := ToInFlight(c);
        Committed(s, i, CommitCheckpoint(s.store, candidate, keepPrevious),
                  e.(pc := CallTool, checkpoint := candidate))
      case CommitToolStep(step) =>
        var committed := WithStep(c.runId, ToBeforeAction(c, e.index + 1), step);
        if committed.Err? then Put(s, i, Stop(e)) else
        Committed(s, i, CommitStep(s.store, committed.value),
                  e.(pc := LoopHead(e.index + 1, c.maxSteps, BeforeAction), checkpoint := committed.value,
                     index := e.index + 1, pending := None))
      case CommitFinal(answer, isNew) =>
        var candidate := if isNew then ToFinalReady(c, answer) else c;
        DoTerminal(s, i, e, candidate, RunResult(RunCompleted, Some(answer), e.steps))
      case CommitMaxSteps =>
        DoTerminal(s, i, e, ToBeforeAction(c, e.index), RunResult(RunMaxStepsReached, None, e.steps))
      case _ => s
  }

  function DoTerminal(s: RunState, i: nat, e: Exec, candidate: Checkpoint, result: RunResult): RunState
    requires i < |s.execs|
  {
    var committed := WithSteps(candidate.runId, candidate, result.steps);
    if committed.Err? then Put(s, i, Stop(e))
    else Committed(s, i, CommitTerminal(s.store, candidate, committed.value, result), Stop(e))
  }

  function ToolCallId(e: Exec): string {
    var payload := if e.checkpoint.pendingAction.Some? then e.checkpoint.pendingAction.value else map[];
    var id := ActionToolCallId(payload, e.checkpoint.runId, e.index);
    if id.Ok? then id.value else ""
  }

  /** The step is recorded and handed to the commit, or the error leaves the executor. */
  function Record(e: Exec, observed: Option<(Value, Option<string>)>, elapsed: real): Exec
    requires e.pending.Some?
  {
    if observed.None? then Stop(e) else
    var step := ToolStep(e.index, e.pending.value, observed.value, elapsed);
    e.(pc := CommitToolStep(step), steps := e.steps + [step])
  }

  function DoCall(cfg: Config, s: RunState, i: nat, elapsed: real): RunState
    requires i < |s.execs|
  {
    var e := s.execs[i];
    if e.pc != CallTool || e.pending.None? || !e.pending.value.ToolCall? || e.checkpoint.pendingAction.None? then s else
    match RequestTool(cfg.agent, e.pending.value, ToolCallId(e))
    case Refuse(reason) => Put(s, i, Record(e, Captured(cfg.agent, reason), elapsed))
    case Invoke(tool, args) =>
      var call := Invocation(e.index, i, e.checkpoint.pendingAction.value, tool, args, ToolCallId(e));
      Put(s, i, e.(pc := InHandler, calls := e.calls + 1)).(trace := s.trace + [call])
  }

  function DoReturn(cfg: Config, s: RunState, i: nat, outcome: HandlerOutcome, elapsed: real): RunState
    requires i < |s.execs|
  {
    var e := s.execs[i];
    if e.pc != InHandler || e.pending.None? then s
    else Put(s, i, Record(e, Observe(cfg.agent, outcome), elapsed))
  }

  /** One step of the system; a label that is not enabled changes nothing. */
  function Step(cfg: Config, s: RunState, l: Label): RunState {
    match l
    case Claim => DoClaim(cfg, s)
    case RequestInterrupt =>
      if s.store.status == Running then s.(store := s.store.(status := InterruptRequested)) else s
    case Release(status) => DoRelease(s, status)
    case Read(i, leaseFresh) => if i < |s.execs| then DoRead(s, i, leaseFresh) else s
    case Load(i) => if i < |s.execs| then DoLoad(s, i) else s
    case Choose(i, action, elapsed) => if i < |s.execs| then DoChoose(s, i, action, elapsed) else s
    case Commit(i, keepPrevious) => if i < |s.execs| then DoCommit(cfg, s, i, keepPrevious) else s
    case Call(i, elapsed) => if i < |s.execs| then DoCall(cfg, s, i, elapsed) else s
    case Return(i, outcome, elapsed) => if i < |s.execs| then DoReturn(cfg, s, i, outcome, elapsed) else s
    case Crash(i) => if i < |s.execs| then Put(s, i, Stop(s.execs[i])) else s
  }

  /** The checkpoint a run is created with. */
  predicate Initial(cfg: Config, c: Checkpoint) {
    && Valid(c)
    && c.phase in {Routing, BeforeAction}
    && c.steps == []
    && c.runId == cfg.runId
    && c.maxSteps == cfg.agent.maxSteps
    && c.definitionVersion == cfg.agent.definitionVersion
    && c.schemaVersion == SCHEMA_VERSION
  }

  function Start(c: Checkpoint): RunState {
    RunState(Store(c, Ready, None, None), [], [])
  }

  /** The state after a sequence of steps. */
  function Execute(cfg: Config, s: RunState, labels: seq<Label>): RunState {
    if labels == [] then s
    else Step(cfg, Execute(cfg, s, labels[..|labels| - 1]), labels[|labels| - 1])
  }
}
