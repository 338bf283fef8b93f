/** Safety of managed runs over every interleaving of executors, interrupts, lease changes and crashes. */
module ManagedSafety {
  import opened Prelude
  import opened AgentState
  import opened AgentActions
  import opened PlainRun
  import opened ManagedRun
  import opened ManagedInvariant

  // ---------- every step keeps the invariant ----------

  lemma AdvancesSame(store: Store, status: Control, lease: Option<nat>)
    requires StoreSane(store.checkpoint) && !IsTerminal(store.status)
    ensures Advances(store, store.(status := status, lease := lease))
  {
  }

  /** A tool in flight carries its action. */
  predicate StoreSane(c: Checkpoint) {
    c.phase.ToolInFlight? ==> c.pendingAction.Some?
  }

  lemma BeginIdle(cfg: Config, store: Store)
    requires StoreInv(cfg, store) && !IsTerminal(store.status) && Idle(store.checkpoint)
    ensures ExecInv(cfg, store, Begin(store.checkpoint))
  {
    GoodHasRecords(cfg, store.checkpoint.steps);
  }

  lemma BeginFinal(cfg: Config, store: Store)
    requires StoreInv(cfg, store) && !IsTerminal(store.status) && store.checkpoint.phase.FinalReady?
    ensures ExecInv(cfg, store, Begin(store.checkpoint))
  {
    GoodHasRecords(cfg, store.checkpoint.steps);
  }

  lemma BeginPending(cfg: Config, store: Store)
    requires StoreInv(cfg, store) && !IsTerminal(store.status)
    requires store.checkpoint.phase.BeforeTool? || store.checkpoint.phase.ToolInFlight?
    ensures ExecInv(cfg, store, Begin(store.checkpoint))
  {
    GoodHasRecords(cfg, store.checkpoint.steps);
    assert ActionAt(store.checkpoint.pendingAction.value, cfg.runId, |store.checkpoint.steps|);
  }

  lemma BeginKeeps(cfg: Config, store: Store)
    requires StoreInv(cfg, store) && !IsTerminal(store.status)
    ensures ExecInv(cfg, store, Begin(store.checkpoint))
  {
    match store.checkpoint.phase {
      case FinalReady => BeginFinal(cfg, store);
      case BeforeTool => BeginPending(cfg, store);
      case ToolInFlight => BeginPending(cfg, store);
      case _ => BeginIdle(cfg, store);
    }
  }

  /** A resumed executor that goes straight to its tool was assessed, so the tool may be called again. */
  lemma ResumedMayCall(cfg: Config, store: Store)
    requires StoreInv(cfg, store)
    requires AssessResume(cfg.agent, store.checkpoint).Resume? || Idle(store.checkpoint)
    ensures MayCall(cfg, store.checkpoint, Begin(store.checkpoint))
  {
  }

  lemma ClaimKeeps(cfg: Config, s: RunState)
    requires Inv(cfg, s)
    ensures Inv(cfg, DoClaim(cfg, s))
  {
    var s' := DoClaim(cfg, s);
    if IsResumable(s.store.status) {
      var store, e := s'.store, s'.execs[|s.execs|];
      AdvancesSame(s.store, store.status, store.lease);
      BeginKeeps(cfg, store);
      if e.pc != Stopped {
        ResumedMayCall(cfg, s.store);
      }
      AddKeeps(cfg, s, store, e);
    }
  }

  lemma AddStoppedKeeps(cfg: Config, s: RunState, e: Exec)
    requires Inv(cfg, s) && e.pc.Stopped?
    ensures Inv(cfg, s.(execs := s.execs + [e]))
  {
    var s1 := s.(execs := s.execs + [e]);
    assert forall j :: 0 <= j < |s1.execs| && AboutToCall(s1.execs[j]) ==> j < |s.execs| && s1.execs[j] == s.execs[j];
  }

  lemma AddKeeps(cfg: Config, s: RunState, store: Store, e: Exec)
    requires Inv(cfg, s) && StoreInv(cfg, store) && Advances(s.store, store) && ExecInv(cfg, store, e)
    requires MayCall(cfg, s.store.checkpoint, e)
    ensures Inv(cfg, s.(store := store, execs := s.execs + [e]))
  {
    var s1 := s.(execs := s.execs + [Stop(e)]);
    AddStoppedKeeps(cfg, s, Stop(e));
    UpdateKeeps(cfg, s1, |s.execs|, store, e);
    assert s1.execs[|s.execs| := e] == s.execs + [e];
  }

  lemma StatusKeeps(cfg: Config, s: RunState, status: Control, lease: Option<nat>)
    requires Inv(cfg, s) && !IsTerminal(s.store.status)
    ensures Inv(cfg, s.(store := s.store.(status := status, lease := lease)))
  {
    var store := s.store.(status := status, lease := lease);
    AdvancesSame(s.store, status, lease);
    forall j | 0 <= j < |s.execs| ensures ExecInv(cfg, store, s.execs[j]) {
      ExecKept(cfg, s.store, store, s.execs[j]);
    }
  }

  /** A step that only moves one executor on, to a place other than the tool call. */
  lemma MoveKeeps(cfg: Config, s: RunState, i: nat, e: Exec)
    requires Inv(cfg, s) && i < |s.execs| && ExecInv(cfg, s.store, e) && !e.pc.CallTool?
    ensures Inv(cfg, Put(s, i, e))
  {
    assert Advances(s.store, s.store);
    UpdateKeeps(cfg, s, i, s.store, e);
    assert Put(s, i, e) == s.(store := s.store, execs := s.execs[i := e]);
  }

  lemma ReadKeeps(cfg: Config, s: RunState, i: nat, leaseFresh: bool)
    requires Inv(cfg, s) && i < |s.execs|
    ensures Inv(cfg, DoRead(s, i, leaseFresh))
  {
    var e := s.execs[i];
    assert ExecInv(cfg, s.store, e);
    if e.pc == ReadControl {
      MoveKeeps(cfg, s, i, DoRead(s, i, leaseFresh).execs[i]);
      assert DoRead(s, i, leaseFresh) == Put(s, i, DoRead(s, i, leaseFresh).execs[i]);
    }
  }

  lemma LoadKeeps(cfg: Config, s: RunState, i: nat)
    requires Inv(cfg, s) && i < |s.execs|
    ensures Inv(cfg, DoLoad(s, i))
  {
    if s.execs[i].pc == LoadSnapshot {
      MoveKeeps(cfg, s, i, DoLoad(s, i).execs[i]);
    }
  }

  lemma ChosenKeeps(cfg: Config, store: Store, e: Exec, action: Action, elapsed: real)
    requires ExecInv(cfg, store, e) && e.pc == AskModel
    ensures ExecInv(cfg, store, Chosen(e, action, elapsed))
  {
    GoodHasRecords(cfg, e.checkpoint.steps);
  }

  lemma ChooseKeeps(cfg: Config, s: RunState, i: nat, action: Action, elapsed: real)
    requires Inv(cfg, s) && i < |s.execs|
    ensures Inv(cfg, DoChoose(s, i, action, elapsed))
  {
    if s.execs[i].pc == AskModel {
      assert ExecInv(cfg, s.store, s.execs[i]);
      ChosenKeeps(cfg, s.store, s.execs[i], action, elapsed);
      MoveKeeps(cfg, s, i, Chosen(s.execs[i], action, elapsed));
    }
  }

  /** What `DoCall` does, when the executor is about to call: it records a refusal, or the call. */
  lemma CallShape(cfg: Config, s: RunState, i: nat, elapsed: real)
    requires i < |s.execs| && s.execs[i].pc == CallTool && HoldsPending(s.execs[i])
    ensures var e := s.execs[i];
      var request := RequestTool(cfg.agent, e.pending.value, ToolCallId(e));
      DoCall(cfg, s, i, elapsed) ==
        if request.Refuse? then Put(s, i, Record(e, Captured(cfg.agent, request.reason), elapsed))
        else Put(s, i, e.(pc := InHandler, calls := e.calls + 1)).(
          trace := s.trace + [Invocation(e.index, i, e.checkpoint.pendingAction.value, request.tool, request.args, ToolCallId(e))])
  {
  }

  lemma CallKeeps(cfg: Config, s: RunState, i: nat, elapsed: real)
    requires Inv(cfg, s) && i < |s.execs|
    ensures Inv(cfg, DoCall(cfg, s, i, elapsed))
  {
    var e := s.execs[i];
    if e.pc == CallTool {
      CallerHolds(cfg, s, i);
      CallShape(cfg, s, i, elapsed);
      var request := RequestTool(cfg.agent, e.pending.value, ToolCallId(e));
      if request.Refuse? {
        RecordedKeeps(cfg, s, i, Captured(cfg.agent, request.reason), elapsed);
      } else {
        InvokedKeeps(cfg, s, i, request);
      }
    }
  }

  lemma CallerHolds(cfg: Config, s: RunState, i: nat)
    requires Inv(cfg, s) && i < |s.execs| && s.execs[i].pc == CallTool
    ensures HoldsPending(s.execs[i])
  {
    assert ExecInv(cfg, s.store, s.execs[i]);
  }

  lemma RecordedKeeps(cfg: Config, s: RunState, i: nat, observed: Option<(Value, Option<string>)>, elapsed: real)
    requires Inv(cfg, s) && i < |s.execs| && s.execs[i].pc in {CallTool, InHandler}
    requires s.execs[i].pending.Some?
    ensures Inv(cfg, Put(s, i, Record(s.execs[i], observed, elapsed)))
  {
    RecordKeeps(cfg, s.store, s.execs[i], observed, elapsed);
    MoveKeeps(cfg, s, i, Record(s.execs[i], observed, elapsed));
  }

  lemma InvokedKeeps(cfg: Config, s: RunState, i: nat, request: ToolRequest)
    requires Inv(cfg, s) && i < |s.execs| && s.execs[i].pc == CallTool && HoldsPending(s.execs[i])
    requires request == RequestTool(cfg.agent, s.execs[i].pending.value, ToolCallId(s.execs[i])) && request.Invoke?
    ensures var e := s.execs[i];
      var call := Invocation(e.index, i, e.checkpoint.pendingAction.value, request.tool, request.args, ToolCallId(e));
      Inv(cfg, Put(s, i, e.(pc := InHandler, calls := e.calls + 1)).(trace := s.trace + [call]))
  {
    var e := s.execs[i];
    assert ExecInv(cfg, s.store, e);
    StableCallId(cfg, e);
    CallRecorded(cfg, s, i, Invocation(e.index, i, e.checkpoint.pendingAction.value, request.tool, request.args, ToolCallId(e)));
  }

  lemma StableCallId(cfg: Config, e: Exec)
    requires Good(cfg, e.checkpoint) && e.index == |e.checkpoint.steps| && HoldsPending(e)
    ensures ToolCallId(e) == CallId(cfg.runId, e.index)
    ensures ActionAt(e.checkpoint.pendingAction.value, cfg.runId, e.index)
  {
    var payload := e.checkpoint.pendingAction.value;
    assert ActionAt(payload, cfg.runId, e.index);
    assert Get(payload, KToolCallId) == Str(CallId(cfg.runId, e.index));
  }

  /** Nobody has made, or is about to make, the guarded call an executor is about to make. */
  predicate FirstCall(cfg: Config, s: RunState, i: nat, call: Invocation) {
    Guarded(cfg, call.action) ==>
      && (forall k :: 0 <= k < |s.trace| ==> s.trace[k].index != call.index)
      && (forall j :: 0 <= j < |s.execs| && j != i && AboutToCall(s.execs[j]) ==> s.execs[j].index != call.index)
  }

  lemma CallRecorded(cfg: Config, s: RunState, i: nat, call: Invocation)
    requires Inv(cfg, s) && i < |s.execs| && AboutToCall(s.execs[i])
    requires ExecInv(cfg, s.store, s.execs[i])
    requires call.index == s.execs[i].index && call.action == s.execs[i].checkpoint.pendingAction.value
    requires CallOf(cfg, call)
    ensures Inv(cfg, Put(s, i, s.execs[i].(pc := InHandler, calls := s.execs[i].calls + 1)).(trace := s.trace + [call]))
  {
    var e := s.execs[i].(pc := InHandler, calls := s.execs[i].calls + 1);
    assert FirstCall(cfg, s, i, call);
    var s1 := Put(s, i, e);
    MoveKeeps(cfg, s, i, e);
    forall j | 0 <= j < |s1.execs| && AboutToCall(s1.execs[j]) && s1.execs[j].index == call.index
      ensures !Guarded(cfg, s1.execs[j].checkpoint.pendingAction.value)
    {
      assert s1.execs[j] == s.execs[j];
    }
    AppendKeeps(cfg, s1, i, call);
  }

  lemma AppendKeeps(cfg: Config, s: RunState, i: nat, call: Invocation)
    requires Inv(cfg, s) && i < |s.execs| && !AboutToCall(s.execs[i])
    requires CallOf(cfg, call) && Settled(s.store.checkpoint, call.index, call.action) && FirstCall(cfg, s, i, call)
    requires forall j :: 0 <= j < |s.execs| && AboutToCall(s.execs[j]) && s.execs[j].index == call.index ==>
      !Guarded(cfg, s.execs[j].checkpoint.pendingAction.value)
    ensures Inv(cfg, s.(trace := s.trace + [call]))
  {
  }

  lemma RecordKeeps(cfg: Config, store: Store, e: Exec, observed: Option<(Value, Option<string>)>, elapsed: real)
    requires ExecInv(cfg, store, e) && (e.pc.CallTool? || e.pc.InHandler?)
    ensures ExecInv(cfg, store, Record(e, observed, elapsed))
  {
  }

  lemma ReturnKeeps(cfg: Config, s: RunState, i: nat, outcome: HandlerOutcome, elapsed: real)
    requires Inv(cfg, s) && i < |s.execs|
    ensures Inv(cfg, DoReturn(cfg, s, i, outcome, elapsed))
  {
    var e := s.execs[i];
    assert ExecInv(cfg, s.store, e);
    if e.pc == InHandler {
      RecordedKeeps(cfg, s, i, Observe(cfg.agent, outcome), elapsed);
    }
  }

  // ---------- commits ----------

  /** An accepted commit starts from what is stored. */
  lemma AcceptedIsCurrent(cfg: Config, s: RunState, i: nat)
    requires Inv(cfg, s) && i < |s.execs| && !s.execs[i].pc.Stopped?
    requires Accepts(cfg, s.store, i, s.execs[i].checkpoint.revision)
    ensures s.execs[i].checkpoint == s.store.checkpoint && Open(s.store.checkpoint)
    ensures ExecInv(cfg, s.store, s.execs[i])
  {
    assert ExecInv(cfg, s.store, s.execs[i]);
  }

  lemma CommittedKeeps(cfg: Config, s: RunState, i: nat, store: Store, next: Exec)
    requires Inv(cfg, s) && i < |s.execs|
    requires StoreInv(cfg, store) && Advances(s.store, store)
    requires s.store.status != InterruptRequested ==>
      ExecInv(cfg, store, next) && MayCall(cfg, s.store.checkpoint, next)
    ensures Inv(cfg, Committed(s, i, store, next))
  {
    UpdateKeeps(cfg, s, i, store, if s.store.status == InterruptRequested then Stop(next) else next);
  }

  lemma CommitStopKeeps(cfg: Config, s: RunState, i: nat, next: Exec)
    requires Inv(cfg, s) && i < |s.execs| && next.pc.Stopped? && s.execs[i].pc == CommitStop
    requires Accepts(cfg, s.store, i, s.execs[i].checkpoint.revision)
    ensures Inv(cfg, Committed(s, i, CommitCheckpoint(s.store, NextRevision(s.execs[i].checkpoint), false), next))
  {
    AcceptedIsCurrent(cfg, s, i);
    GoodNextRevision(cfg, s.store.checkpoint);
    CommittedKeeps(cfg, s, i, CommitCheckpoint(s.store, NextRevision(s.store.checkpoint), false), next);
  }

  /** Committing a checkpoint that follows the stored one, or keeping the stored one on a pause. */
  lemma CheckpointCommitted(cfg: Config, store: Store, candidate: Checkpoint, keepPrevious: bool)
    requires StoreInv(cfg, store) && !IsTerminal(store.status)
    requires Good(cfg, candidate) && Open(candidate)
    requires candidate.revision == store.checkpoint.revision + 1 && Preserves(store.checkpoint, candidate)
    ensures var after := CommitCheckpoint(store, candidate, keepPrevious);
      StoreInv(cfg, after) && Advances(store, after) && (store.status != InterruptRequested ==> after.checkpoint == candidate)
  {
    GoodNextRevision(cfg, store.checkpoint);
  }

  lemma CommitActionKeeps(cfg: Config, s: RunState, i: nat, action: Action, call: Fields, keepPrevious: bool,
                          next: Exec)
    requires Inv(cfg, s) && i < |s.execs| && s.execs[i].pc == CommitAction(action) && NamesTool(action)
    requires Accepts(cfg, s.store, i, s.execs[i].checkpoint.revision)
    requires SerializeAction(action, OkOrNone(StableToolCallId(s.execs[i].checkpoint.runId, s.execs[i].index))) == Ok(call)
    requires next.pc == CommitInFlight && next.checkpoint == ToBeforeTool(s.execs[i].checkpoint, call)
    requires next.pending == Some(action) && next.index == s.execs[i].index && next.steps == s.execs[i].steps
    ensures Inv(cfg, Committed(s, i, CommitCheckpoint(s.store, next.checkpoint, keepPrevious), next))
  {
    AcceptedIsCurrent(cfg, s, i);
    GoodBeforeTool(cfg, s.store.checkpoint, action);
    SerializedActionAt(action, cfg.runId, next.index);
    CheckpointCommitted(cfg, s.store, next.checkpoint, keepPrevious);
    CommittedKeeps(cfg, s, i, CommitCheckpoint(s.store, next.checkpoint, keepPrevious), next);
  }

  lemma CommitInFlightKeeps(cfg: Config, s: RunState, i: nat, keepPrevious: bool, next: Exec)
    requires Inv(cfg, s) && i < |s.execs| && s.execs[i].pc == CommitInFlight
    requires Accepts(cfg, s.store, i, s.execs[i].checkpoint.revision)
    requires next.pc == CallTool && next.checkpoint == ToInFlight(s.execs[i].checkpoint)
    requires next.pending == s.execs[i].pending && next.index == s.execs[i].index && next.steps == s.execs[i].steps
    ensures Inv(cfg, Committed(s, i, CommitCheckpoint(s.store, next.checkpoint, keepPrevious), next))
  {
    AcceptedIsCurrent(cfg, s, i);
    GoodInFlight(cfg, s.store.checkpoint);
    CheckpointCommitted(cfg, s.store, next.checkpoint, keepPrevious);
    CommittedKeeps(cfg, s, i, CommitCheckpoint(s.store, next.checkpoint, keepPrevious), next);
  }

  /** The executor whose step was just stored stands at the head of the loop with one more record. */
  lemma StepStored(cfg: Config, store: Store, e: Exec, step: StepRecord, next: Exec)
    requires StoreInv(cfg, store) && ExecInv(cfg, store, e) && e.pc == CommitToolStep(step) && e.checkpoint == store.checkpoint
    requires WithStep(e.checkpoint.runId, ToBeforeAction(e.checkpoint, e.index + 1), step) == Ok(next.checkpoint)
    requires next.pc == LoopHead(e.index + 1, e.checkpoint.maxSteps, BeforeAction)
    requires next.index == e.index + 1 && next.steps == e.steps
    ensures Good(cfg, next.checkpoint) && Idle(next.checkpoint)
    ensures next.checkpoint.revision == e.checkpoint.revision + 1 && Preserves(e.checkpoint, next.checkpoint)
    ensures |next.checkpoint.steps| == next.index && PcInv(store.(checkpoint := next.checkpoint), next, Records(next.checkpoint))
  {
    var c := e.checkpoint;
    GoodToolStep(cfg, c, step);
    GoodHasRecords(cfg, c.steps);
    assert next.checkpoint.steps == c.steps + [next.checkpoint.steps[|c.steps|]];
    RecordsAppend(c.steps, next.checkpoint.steps[|c.steps|]);
  }

  lemma CommitToolStepKeeps(cfg: Config, s: RunState, i: nat, step: StepRecord, next: Exec)
    requires Inv(cfg, s) && i < |s.execs| && s.execs[i].pc == CommitToolStep(step)
    requires Accepts(cfg, s.store, i, s.execs[i].checkpoint.revision)
    requires WithStep(s.execs[i].checkpoint.runId, ToBeforeAction(s.execs[i].checkpoint, s.execs[i].index + 1), step) == Ok(next.checkpoint)
    requires next.pc == LoopHead(s.execs[i].index + 1, s.execs[i].checkpoint.maxSteps, BeforeAction)
    requires next.index == s.execs[i].index + 1 && next.steps == s.execs[i].steps
    ensures Inv(cfg, Committed(s, i, CommitStep(s.store, next.checkpoint), next))
  {
    AcceptedIsCurrent(cfg, s, i);
    StepStored(cfg, s.store, s.execs[i], step, next);
    CommittedKeeps(cfg, s, i, CommitStep(s.store, next.checkpoint), next);
  }

  lemma TerminalKeeps(cfg: Config, s: RunState, i: nat, candidate: Checkpoint, result: RunResult, next: Exec)
    requires Inv(cfg, s) && i < |s.execs| && !IsTerminal(s.store.status)
    requires Good(cfg, candidate) && Open(candidate) && Preserves(s.store.checkpoint, candidate)
    requires candidate.revision == s.store.checkpoint.revision + 1 || candidate == s.store.checkpoint
    requires WithSteps(candidate.runId, candidate, result.steps).Ok?
    requires var committed := WithSteps(candidate.runId, candidate, result.steps).value;
      && Good(cfg, committed) && committed.revision == candidate.revision
      && |candidate.steps| <= |committed.steps| && committed.steps[..|candidate.steps|] == candidate.steps
    requires !candidate.phase.ToolInFlight? && !s.store.checkpoint.phase.ToolInFlight?
    ensures Inv(cfg, DoTerminal(s, i, next, candidate, result))
  {
    var committed := WithSteps(candidate.runId, candidate, result.steps).value;
    var c := s.store.checkpoint;
    var store := CommitTerminal(s.store, candidate, committed, result);
    assert committed.steps[..|c.steps|] == committed.steps[..|candidate.steps|][..|c.steps|];
    CommittedKeeps(cfg, s, i, store, Stop(next));
  }

  lemma CommitNewFinalKeeps(cfg: Config, s: RunState, i: nat, answer: string, next: Exec)
    requires Inv(cfg, s) && i < |s.execs| && s.execs[i].pc == CommitFinal(answer, true)
    requires Accepts(cfg, s.store, i, s.execs[i].checkpoint.revision)
    requires next == s.execs[i].(commits := next.commits)
    ensures Inv(cfg, DoTerminal(s, i, next, ToFinalReady(s.execs[i].checkpoint, answer), RunResult(RunCompleted, Some(answer), next.steps)))
  {
    AcceptedIsCurrent(cfg, s, i);
    var c := s.store.checkpoint;
    GoodFinalReady(cfg, c, answer);
    GoodHasRecords(cfg, c.steps);
    GoodTerminal(cfg, ToFinalReady(c, answer), next.steps);
    TerminalKeeps(cfg, s, i, ToFinalReady(c, answer), RunResult(RunCompleted, Some(answer), next.steps), next);
  }

  lemma CommitReadyFinalKeeps(cfg: Config, s: RunState, i: nat, answer: string, next: Exec)
    requires Inv(cfg, s) && i < |s.execs| && s.execs[i].pc == CommitFinal(answer, false)
    requires Accepts(cfg, s.store, i, s.execs[i].checkpoint.revision)
    requires next == s.execs[i].(commits := next.commits)
    ensures Inv(cfg, DoTerminal(s, i, next, s.execs[i].checkpoint, RunResult(RunCompleted, Some(answer), next.steps)))
  {
    AcceptedIsCurrent(cfg, s, i);
    var c := s.store.checkpoint;
    GoodHasRecords(cfg, c.steps);
    GoodTerminal(cfg, c, next.steps);
    TerminalKeeps(cfg, s, i, c, RunResult(RunCompleted, Some(answer), next.steps), next);
  }

  lemma CommitMaxStepsKeeps(cfg: Config, s: RunState, i: nat, next: Exec)
    requires Inv(cfg, s) && i < |s.execs| && s.execs[i].pc == CommitMaxSteps
    requires Accepts(cfg, s.store, i, s.execs[i].checkpoint.revision)
    requires next == s.execs[i].(commits := next.commits)
    ensures Inv(cfg, DoTerminal(s, i, next, ToBeforeAction(s.execs[i].checkpoint, next.index), RunResult(RunMaxStepsReached, None, next.steps)))
  {
    AcceptedIsCurrent(cfg, s, i);
    var c := s.store.checkpoint;
    GoodMaxSteps(cfg, c);
    GoodTerminal(cfg, ToBeforeAction(c, |c.steps|), next.steps);
    TerminalKeeps(cfg, s, i, ToBeforeAction(c, |c.steps|), RunResult(RunMaxStepsReached, None, next.steps), next);
  }

  lemma StopKeeps(cfg: Config, s: RunState, i: nat, e: Exec)
    requires Inv(cfg, s) && i < |s.execs| && e.pc.Stopped?
    ensures Inv(cfg, Put(s, i, e))
  {
    MoveKeeps(cfg, s, i, e);
  }

  lemma AcceptedKeeps(cfg: Config, s: RunState, i: nat, e: Exec, keepPrevious: bool)
    requires Inv(cfg, s) && i < |s.execs| && AtCommit(e.pc) && e == s.execs[i].(commits := e.commits)
    requires Accepts(cfg, s.store, i, e.checkpoint.revision)
    ensures Inv(cfg, DoAccepted(s, i, e, keepPrevious))
  {
    var c := e.checkpoint;
    match e.pc {
      case CommitStop => CommitStopKeeps(cfg, s, i, Stop(e));
      case CommitAction(action) =>
        var call := SerializeAction(action, OkOrNone(StableToolCallId(c.runId, e.index)));
        if call.Err? || !NamesTool(action) {
          StopKeeps(cfg, s, i, Stop(e));
        } else {
          CommitActionKeeps(cfg, s, i, action, call.value, keepPrevious,
            e.(pc := CommitInFlight, checkpoint := ToBeforeTool(c, call.value), pending := Some(action)));
        }
      case CommitInFlight =>
        CommitInFlightKeeps(cfg, s, i, keepPrevious, e.(pc := CallTool, checkpoint := ToInFlight(c)));
      case CommitToolStep(step) =>
        var committed := WithStep(c.runId, ToBeforeAction(c, e.index + 1), step);
        if committed.Err? {
          StopKeeps(cfg, s, i, Stop(e));
        } else {
          CommitToolStepKeeps(cfg, s, i, step,
            e.(pc := LoopHead(e.index + 1, c.maxSteps, BeforeAction), checkpoint := committed.value,
               index := e.index + 1, pending := None));
        }
      case CommitFinal(answer, isNew) =>
        if isNew {
          CommitNewFinalKeeps(cfg, s, i, answer, e);
        } else {
          CommitReadyFinalKeeps(cfg, s, i, answer, e);
        }
      case CommitMaxSteps => CommitMaxStepsKeeps(cfg, s, i, e);
    }
  }

  lemma CommitShape(cfg: Config, s: RunState, i: nat, keepPrevious: bool)
    requires i < |s.execs|
    ensures var e := s.execs[i].(commits := s.execs[i].commits + 1);
      DoCommit(cfg, s, i, keepPrevious) ==
        if !AtCommit(e.pc) then s
        else if !Accepts(cfg, s.store, i, e.checkpoint.revision) then Put(s, i, Stop(e))
        else DoAccepted(s, i, e, keepPrevious)
  {
  }

  lemma CommitKeeps(cfg: Config, s: RunState, i: nat, keepPrevious: bool)
    requires Inv(cfg, s) && i < |s.execs|
    ensures Inv(cfg, DoCommit(cfg, s, i, keepPrevious))
  {
    var e := s.execs[i].(commits := s.execs[i].commits + 1);
    CommitShape(cfg, s, i, keepPrevious);
    if AtCommit(e.pc) {
      if Accepts(cfg, s.store, i, e.checkpoint.revision) {
        AcceptedKeeps(cfg, s, i, e, keepPrevious);
      } else {
        StopKeeps(cfg, s, i, Stop(e));
      }
    }
  }

  // ---------- every reachable state ----------

  lemma StepKeeps(cfg: Config, s: RunState, l: Label)
    requires Inv(cfg, s)
    ensures Inv(cfg, Step(cfg, s, l))
  {
    match l {
      case Claim => ClaimKeeps(cfg, s);
      case RequestInterrupt =>
        if s.store.status == Running {
          StatusKeeps(cfg, s, InterruptRequested, s.store.lease);
        }
      case Release(status) =>
        if !IsTerminal(s.store.status) {
          StatusKeeps(cfg, s, status, None);
        }
      case Read(i, leaseFresh) => if i < |s.execs| { ReadKeeps(cfg, s, i, leaseFresh); }
      case Load(i) => if i < |s.execs| { LoadKeeps(cfg, s, i); }
      case Choose(i, action, elapsed) => if i < |s.execs| { ChooseKeeps(cfg, s, i, action, elapsed); }
      case Commit(i, keepPrevious) => if i < |s.execs| { CommitKeeps(cfg, s, i, keepPrevious); }
      case Call(i, elapsed) => if i < |s.execs| { CallKeeps(cfg, s, i, elapsed); }
      case Return(i, outcome, elapsed) => if i < |s.execs| { ReturnKeeps(cfg, s, i, outcome, elapsed); }
      case Crash(i) => if i < |s.execs| { StopKeeps(cfg, s, i, Stop(s.execs[i])); }
    }
  }

  lemma {:induction false} ReachableInv(cfg: Config, c: Checkpoint, labels: seq<Label>)
    requires Initial(cfg, c)
    ensures Inv(cfg, Execute(cfg, Start(c), labels))
  {
    if labels == [] {
      InitInv(cfg, c);
    } else {
      ReachableInv(cfg, c, labels[..|labels| - 1]);
      StepKeeps(cfg, Execute(cfg, Start(c), labels[..|labels| - 1]), labels[|labels| - 1]);
    }
  }
}
