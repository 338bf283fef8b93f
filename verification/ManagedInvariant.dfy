/** What every reachable state of a managed run satisfies, and that every step keeps it. */
module ManagedInvariant {
  import opened Prelude
  import opened AgentState
  import opened AgentActions
  import opened PlainRun
  import opened ManagedRun

  // ---------- checkpoints ----------

  /** The stored form of the tool action of step `k`, under its stable call identifier. */
  predicate ActionAt(payload: Fields, runId: string, k: nat) {
    && runId != ""
    && ParseAction(payload).Ok?
    && ParseAction(payload).value.ToolCall?
    && SerializeAction(ParseAction(payload).value, Some(CallId(runId, k))) == Ok(payload)
  }

  predicate StepAt(step: CheckpointStep, runId: string, k: nat) {
    && runId != ""
    && step.index == k
    && ToRecord(step).Ok?
    && ToCheckpointStep(ToRecord(step).value, Some(CallId(runId, k))) == Ok(step)
  }

  /** Valid, of this run, and written by the serializer throughout. */
  predicate Good(cfg: Config, c: Checkpoint) {
    && Valid(c)
    && c.runId == cfg.runId
    && c.maxSteps == cfg.agent.maxSteps
    && c.definitionVersion == cfg.agent.definitionVersion
    && c.schemaVersion == SCHEMA_VERSION
    && (forall k :: 0 <= k < |c.steps| ==> StepAt(c.steps[k], cfg.runId, k))
    && (c.pendingAction.Some? ==> ActionAt(c.pendingAction.value, cfg.runId, |c.steps|))
  }

  predicate Idle(c: Checkpoint) {
    c.phase.Routing? || c.phase.BeforeAction?
  }

  /** Before the terminal commit, a step that is under way still has room below the bound. */
  predicate Open(c: Checkpoint) {
    Idle(c) || |c.steps| < c.maxSteps
  }

  /** Step `k` is committed with this action, or its tool is in flight with it. */
  predicate Settled(c: Checkpoint, k: nat, action: Fields) {
    || (k < |c.steps| && c.steps[k].action == action)
    || (k == |c.steps| && c.phase.ToolInFlight? && c.pendingAction == Some(action))
  }

  lemma SettledUnique(c: Checkpoint, k: nat, a: Fields, b: Fields)
    requires Settled(c, k, a) && Settled(c, k, b)
    ensures a == b
  {
  }

  lemma {:induction false} GoodHasRecords(cfg: Config, steps: seq<CheckpointStep>)
    requires forall k :: 0 <= k < |steps| ==> StepAt(steps[k], cfg.runId, k)
    ensures ToRecords(steps).Ok? && |ToRecords(steps).value| == |steps|
    ensures forall k :: 0 <= k < |steps| ==> Ok(ToRecords(steps).value[k]) == ToRecord(steps[k])
    ensures forall k :: 0 <= k < |steps| ==> ToRecords(steps).value[k].index == k
  {
    if steps != [] {
      GoodHasRecords(cfg, steps[..|steps| - 1]);
    }
  }

  /** The run-time records of the committed steps. */
  function Records(c: Checkpoint): seq<StepRecord> {
    if ToRecords(c.steps).Ok? then ToRecords(c.steps).value else []
  }

  lemma RecordsAppend(steps: seq<CheckpointStep>, step: CheckpointStep)
    requires ToRecords(steps).Ok? && ToRecord(step).Ok?
    ensures ToRecords(steps + [step]) == Ok(ToRecords(steps).value + [ToRecord(step).value])
  {
    assert (steps + [step])[..|steps|] == steps;
  }

  lemma SerializedActionAt(action: Action, runId: string, k: nat)
    requires runId != "" && action.ToolCall? && NamesTool(action)
    requires SerializeAction(action, Some(CallId(runId, k))).Ok?
    ensures ActionAt(SerializeAction(action, Some(CallId(runId, k))).value, runId, k)
    ensures ParseAction(SerializeAction(action, Some(CallId(runId, k))).value) == Ok(action)
  {
    ActionSurvivesStorage(action, Some(CallId(runId, k)));
  }

  lemma GoodBeforeTool(cfg: Config, c: Checkpoint, action: Action)
    requires Good(cfg, c) && Idle(c) && action.ToolCall? && NamesTool(action)
    requires SerializeAction(action, Some(CallId(cfg.runId, |c.steps|))).Ok?
    ensures Good(cfg, ToBeforeTool(c, SerializeAction(action, Some(CallId(cfg.runId, |c.steps|))).value))
  {
    SerializedActionAt(action, cfg.runId, |c.steps|);
  }

  lemma GoodInFlight(cfg: Config, c: Checkpoint)
    requires Good(cfg, c) && c.phase.BeforeTool?
    ensures Good(cfg, ToInFlight(c))
  {
  }

  lemma GoodFinalReady(cfg: Config, c: Checkpoint, answer: string)
    requires Good(cfg, c) && Idle(c)
    ensures Good(cfg, ToFinalReady(c, answer))
  {
  }

  lemma GoodNextRevision(cfg: Config, c: Checkpoint)
    requires Good(cfg, c)
    ensures Good(cfg, NextRevision(c))
  {
  }

  lemma GoodMaxSteps(cfg: Config, c: Checkpoint)
    requires Good(cfg, c) && Idle(c)
    ensures Good(cfg, ToBeforeAction(c, |c.steps|))
  {
  }

  /** A record whose action is storable becomes a stored step that reads back as it. */
  lemma StoredRecord(step: StepRecord, runId: string, k: nat)
    requires runId != "" && step.index == k && NamesTool(step.action)
    requires SerializeAction(step.action, Some(CallId(runId, k))).Ok?
    ensures ToCheckpointStep(step, Some(CallId(runId, k))).Ok?
    ensures var stored := ToCheckpointStep(step, Some(CallId(runId, k))).value;
      StepAt(stored, runId, k) && ToRecord(stored) == Ok(step) && ValidStep(stored, k)
      && Ok(stored.action) == SerializeAction(step.action, Some(CallId(runId, k)))
  {
    RecordSurvivesStorage(step, Some(CallId(runId, k)));
  }

  lemma GoodToolStep(cfg: Config, c: Checkpoint, step: StepRecord)
    requires Good(cfg, c) && c.phase.ToolInFlight? && |c.steps| < c.maxSteps
    requires step.index == |c.steps| && ParseAction(c.pendingAction.value) == Ok(step.action)
    ensures WithStep(c.runId, ToBeforeAction(c, |c.steps| + 1), step).Ok?
    ensures var committed := WithStep(c.runId, ToBeforeAction(c, |c.steps| + 1), step).value;
      && Good(cfg, committed)
      && Idle(committed)
      && committed.revision == c.revision + 1
      && |committed.steps| == |c.steps| + 1
      && committed.steps[..|c.steps|] == c.steps
      && committed.steps[|c.steps|].action == c.pendingAction.value
      && ToRecord(committed.steps[|c.steps|]) == Ok(step)
  {
    var n := |c.steps|;
    var payload := c.pendingAction.value;
    assert ActionAt(payload, cfg.runId, n);
    StoredRecord(step, cfg.runId, n);
    var committed := WithStep(c.runId, ToBeforeAction(c, n + 1), step).value;
    forall k | 0 <= k < |committed.steps| ensures StepAt(committed.steps[k], cfg.runId, k) && ValidStep(committed.steps[k], k) {
      if k < n {
        assert committed.steps[k] == c.steps[k];
      }
    }
  }

  lemma GoodFinalStep(cfg: Config, c: Checkpoint, step: StepRecord)
    requires Good(cfg, c) && c.phase.FinalReady? && |c.steps| < c.maxSteps
    requires step.index == |c.steps| && step.action.Final?
    ensures WithStep(c.runId, c, step).Ok?
    ensures var committed := WithStep(c.runId, c, step).value;
      && Good(cfg, committed)
      && committed.revision == c.revision
      && |committed.steps| == |c.steps| + 1
      && committed.steps[..|c.steps|] == c.steps
  {
    var n := |c.steps|;
    StoredRecord(step, cfg.runId, n);
    var committed := WithStep(c.runId, c, step).value;
    forall k | 0 <= k < |committed.steps| ensures StepAt(committed.steps[k], cfg.runId, k) && ValidStep(committed.steps[k], k) {
      if k < n {
        assert committed.steps[k] == c.steps[k];
      }
    }
  }

  /** Appending the steps of a result appends its final step, or nothing. */
  lemma GoodTerminal(cfg: Config, c: Checkpoint, steps: seq<StepRecord>)
    requires Good(cfg, c)
    requires steps == Records(c) ||
      (c.phase.FinalReady? && |c.steps| < c.maxSteps && |steps| == |c.steps| + 1
       && steps[..|c.steps|] == Records(c) && steps[|c.steps|].index == |c.steps| && steps[|c.steps|].action.Final?)
    ensures WithSteps(c.runId, c, steps).Ok?
    ensures var committed := WithSteps(c.runId, c, steps).value;
      && Good(cfg, committed)
      && committed.revision == c.revision
      && |c.steps| <= |committed.steps| == |steps|
      && committed.steps[..|c.steps|] == c.steps
  {
    GoodHasRecords(cfg, c.steps);
    CommittedStepsSkip(cfg, c, Records(c));
    if steps != Records(c) {
      assert steps[..|steps| - 1] == Records(c);
      GoodFinalStep(cfg, c, steps[|c.steps|]);
    }
  }

  lemma {:induction false} CommittedStepsSkip(cfg: Config, c: Checkpoint, steps: seq<StepRecord>)
    requires forall k :: 0 <= k < |steps| ==> steps[k].index < |c.steps|
    ensures WithSteps(c.runId, c, steps) == Ok(c)
  {
    if steps != [] {
      CommittedStepsSkip(cfg, c, steps[..|steps| - 1]);
    }
  }

  // ---------- stores ----------

  predicate StoreInv(cfg: Config, store: Store) {
    && Good(cfg, store.checkpoint)
    && (!IsTerminal(store.status) ==> Open(store.checkpoint))
  }

  /** Committed steps stay, and a tool in flight stays in flight until its step is committed. */
  predicate Preserves(old_: Checkpoint, new_: Checkpoint) {
    && |old_.steps| <= |new_.steps|
    && new_.steps[..|old_.steps|] == old_.steps
    && (old_.phase.ToolInFlight? && old_.pendingAction.Some? ==>
          Settled(new_, |old_.steps|, old_.pendingAction.value))
  }

  /** How a store may change: its revision names one snapshot until the run is terminal. */
  predicate Advances(before: Store, after: Store) {
    && before.checkpoint.revision <= after.checkpoint.revision
    && (after.checkpoint.revision == before.checkpoint.revision && !IsTerminal(after.status) ==>
          after.checkpoint == before.checkpoint && !IsTerminal(before.status))
    && Preserves(before.checkpoint, after.checkpoint)
  }

  lemma SettledPreserved(before: Checkpoint, after: Checkpoint, k: nat, action: Fields)
    requires Preserves(before, after) && Settled(before, k, action)
    ensures Settled(after, k, action)
  {
    if k < |before.steps| {
      assert after.steps[..|before.steps|][k] == after.steps[k];
    }
  }

  // ---------- executors ----------

  /** What an executor holds is old, or it is what is stored. */
  predicate Linked(store: Store, c: Checkpoint) {
    && c.revision <= store.checkpoint.revision
    && (c.revision == store.checkpoint.revision && !IsTerminal(store.status) ==> c == store.checkpoint)
  }

  predicate HoldsPending(e: Exec) {
    && e.pending.Some?
    && e.pending.value.ToolCall?
    && e.checkpoint.pendingAction.Some?
    && ParseAction(e.checkpoint.pendingAction.value) == Ok(e.pending.value)
  }

  predicate InFlightExec(store: Store, e: Exec) {
    && e.checkpoint.phase.ToolInFlight?
    && HoldsPending(e)
    && Settled(store.checkpoint, e.index, e.checkpoint.pendingAction.value)
  }

  predicate PcInv(store: Store, e: Exec, records: seq<StepRecord>) {
    match e.pc
    case ReadControl => Idle(e.checkpoint) && e.index < e.checkpoint.maxSteps && e.steps == records
    case AskModel => Idle(e.checkpoint) && e.index < e.checkpoint.maxSteps && e.steps == records
    case CommitAction(action) =>
      Idle(e.checkpoint) && e.index < e.checkpoint.maxSteps && e.steps == records && action.ToolCall?
    case CommitInFlight =>
      e.checkpoint.phase.BeforeTool? && HoldsPending(e) && e.index < e.checkpoint.maxSteps && e.steps == records
    case CallTool => InFlightExec(store, e) && e.index < e.checkpoint.maxSteps && e.steps == records
    case InHandler => InFlightExec(store, e) && e.index < e.checkpoint.maxSteps && e.steps == records
    case CommitToolStep(step) =>
      && InFlightExec(store, e) && e.index < e.checkpoint.maxSteps
      && e.steps == records + [step] && step.index == e.index && step.action == e.pending.value
    case CommitFinal(answer, isNew) =>
      && e.index < e.checkpoint.maxSteps
      && |e.steps| == |records| + 1 && e.steps[..|records|] == records
      && e.steps[|records|] == FinalStep(e.index, answer, e.steps[|records|].elapsedMs)
      && (if isNew then Idle(e.checkpoint) else e.checkpoint.phase.FinalReady? && e.checkpoint.finalAnswer == Some(answer))
    case CommitMaxSteps => Idle(e.checkpoint) && e.index == e.checkpoint.maxSteps && e.steps == records
    case LoadSnapshot => true
    case CommitStop => true
    case Stopped => true
  }

  predicate ExecInv(cfg: Config, store: Store, e: Exec) {
    e.pc.Stopped? ||
    (&& Good(cfg, e.checkpoint)
     && Linked(store, e.checkpoint)
     && (!e.pc.CommitStop? ==>
           e.index == |e.checkpoint.steps| && PcInv(store, e, Records(e.checkpoint))))
  }

  lemma ExecKept(cfg: Config, before: Store, after: Store, e: Exec)
    requires ExecInv(cfg, before, e) && Advances(before, after)
    ensures ExecInv(cfg, after, e)
  {
    if e.pc in {CallTool, InHandler} || e.pc.CommitToolStep? {
      SettledPreserved(before.checkpoint, after.checkpoint, e.index, e.checkpoint.pendingAction.value);
    }
  }

  // ---------- handler calls ----------

  /** A recorded call is the call its persisted action stands for. */
  predicate CallOf(cfg: Config, call: Invocation) {
    && ActionAt(call.action, cfg.runId, call.index)
    && call.callId == CallId(cfg.runId, call.index)
    && RequestTool(cfg.agent, ParseAction(call.action).value, call.callId) == Invoke(call.tool, call.args)
  }

  /** The action calls a tool that must not be called again. */
  predicate Guarded(cfg: Config, action: Fields) {
    && ParseAction(action).Ok?
    && ParseAction(action).value.ToolCall?
    && ParseAction(action).value.tool in cfg.agent.tools
    && cfg.agent.tools[ParseAction(action).value.tool].NonReplayable?
  }

  predicate AboutToCall(e: Exec) {
    e.pc.CallTool? && e.checkpoint.pendingAction.Some?
  }

  predicate TraceInv(cfg: Config, s: RunState) {
    forall k :: 0 <= k < |s.trace| ==>
      CallOf(cfg, s.trace[k]) && Settled(s.store.checkpoint, s.trace[k].index, s.trace[k].action)
  }

  /** No guarded call happened twice, is about to happen twice, or is about to happen again. */
  predicate ReplayInv(cfg: Config, s: RunState) {
    && (forall j, k :: 0 <= j < k < |s.trace| && s.trace[j].index == s.trace[k].index ==>
          !Guarded(cfg, s.trace[k].action))
    && (forall i, k | 0 <= i < |s.execs| && 0 <= k < |s.trace| && AboutToCall(s.execs[i]) ::
          s.trace[k].index == s.execs[i].index ==> !Guarded(cfg, s.execs[i].checkpoint.pendingAction.value))
    && (forall i, j | 0 <= i < |s.execs| && 0 <= j < |s.execs| && i != j && AboutToCall(s.execs[i]) && AboutToCall(s.execs[j]) ::
          s.execs[i].index == s.execs[j].index ==> !Guarded(cfg, s.execs[i].checkpoint.pendingAction.value))
  }

  predicate ExecsInv(cfg: Config, s: RunState) {
    forall i :: 0 <= i < |s.execs| ==> ExecInv(cfg, s.store, s.execs[i])
  }

  predicate Inv(cfg: Config, s: RunState) {
    && StoreInv(cfg, s.store)
    && ExecsInv(cfg, s)
    && TraceInv(cfg, s)
    && ReplayInv(cfg, s)
    && (s.execs == [] ==> Initial(cfg, s.store.checkpoint))
  }

  lemma InitInv(cfg: Config, c: Checkpoint)
    requires Initial(cfg, c)
    ensures Inv(cfg, Start(c))
  {
  }

  // ---------- a change of one executor and the store ----------

  /**
   An executor that becomes ready to call a tool either finds no earlier call of that step,
   because nothing about the step was settled before, or calls a tool that may be called again.
   */
  predicate MayCall(cfg: Config, before: Checkpoint, e: Exec) {
    AboutToCall(e) ==>
      || !Guarded(cfg, e.checkpoint.pendingAction.value)
      || (e.index == |before.steps| && !before.phase.ToolInFlight?)
  }

  lemma UpdateKeeps(cfg: Config, s: RunState, i: nat, store: Store, e: Exec)
    requires Inv(cfg, s) && i < |s.execs|
    requires StoreInv(cfg, store) && Advances(s.store, store) && ExecInv(cfg, store, e)
    requires MayCall(cfg, s.store.checkpoint, e)
    ensures Inv(cfg, s.(store := store, execs := s.execs[i := e]))
  {
    var s' := s.(store := store, execs := s.execs[i := e]);
    forall j | 0 <= j < |s'.execs| ensures ExecInv(cfg, store, s'.execs[j]) {
      if j != i {
        ExecKept(cfg, s.store, store, s.execs[j]);
      }
    }
    forall k | 0 <= k < |s.trace| ensures Settled(store.checkpoint, s.trace[k].index, s.trace[k].action) {
      SettledPreserved(s.store.checkpoint, store.checkpoint, s.trace[k].index, s.trace[k].action);
    }
    if AboutToCall(e) {
      OthersMayCall(cfg, s, i, store, e);
    }
  }

  lemma OthersMayCall(cfg: Config, s: RunState, i: nat, store: Store, e: Exec)
    requires Inv(cfg, s) && i <= |s.execs| && AboutToCall(e)
    requires Advances(s.store, store) && ExecInv(cfg, store, e)
    requires MayCall(cfg, s.store.checkpoint, e)
    ensures forall k :: 0 <= k < |s.trace| && s.trace[k].index == e.index ==> !Guarded(cfg, e.checkpoint.pendingAction.value)
    ensures forall j :: 0 <= j < |s.execs| && j != i && AboutToCall(s.execs[j]) && s.execs[j].index == e.index ==>
      !Guarded(cfg, e.checkpoint.pendingAction.value) && !Guarded(cfg, s.execs[j].checkpoint.pendingAction.value)
  {
    forall j | 0 <= j < |s.execs| && j != i && AboutToCall(s.execs[j]) && s.execs[j].index == e.index
      ensures !Guarded(cfg, e.checkpoint.pendingAction.value) && !Guarded(cfg, s.execs[j].checkpoint.pendingAction.value)
    {
      var other := s.execs[j].checkpoint.pendingAction.value;
      assert ExecInv(cfg, s.store, s.execs[j]);
      assert Settled(s.store.checkpoint, e.index, other);
      SettledPreserved(s.store.checkpoint, store.checkpoint, e.index, other);
      SettledUnique(store.checkpoint, e.index, other, e.checkpoint.pendingAction.value);
    }
  }
}
