/**
 Pausing, crashing and resuming do not change what a run computes: with a deterministic
 action maker and deterministic tools, a managed run that ends has the result of the
 in-memory loop.
 */
module ResumeRefinement {
  import opened Prelude
  import opened AgentState
  import opened AgentActions
  import opened PlainRun
  import opened ManagedRun
  import opened ManagedInvariant
  import opened ManagedSafety
  import opened ManagedTheorems

  // ---------- runs played in a world ----------

  /** The action maker and the handlers answer as the world does. */
  predicate Plays(cfg: Config, w: World, s: RunState, l: Label) {
    match l
    case Choose(i, action, _) =>
      i < |s.execs| && s.execs[i].pc == AskModel ==> action == w.next(EraseAll(s.execs[i].steps))
    case Return(i, outcome, _) =>
      i < |s.execs| && s.execs[i].pc == InHandler && s.execs[i].pending.Some? && s.execs[i].pending.value.ToolCall? ==>
        var request := RequestTool(cfg.agent, s.execs[i].pending.value, ToolCallId(s.execs[i]));
        request.Invoke? ==> outcome == w.handle(request.tool, request.args)
    case _ => true
  }

  predicate PlaysAll(cfg: Config, w: World, s: RunState, labels: seq<Label>) {
    labels == [] ||
    (&& PlaysAll(cfg, w, s, labels[..|labels| - 1])
     && Plays(cfg, w, Execute(cfg, s, labels[..|labels| - 1]), labels[|labels| - 1]))
  }

  // ---------- staying on the plain run ----------

  function Plain(cfg: Config, w: World, history: seq<StepRecord>): Outcome {
    if cfg.runId == "" then Aborted else PlainFrom(cfg.agent, cfg.runId, w, history)
  }

  /** Continuing in memory from this history gives what the whole plain run gives. */
  predicate Tracks(cfg: Config, w: World, history: seq<StepRecord>) {
    Plain(cfg, w, history) == Plain(cfg, w, [])
  }

  /** What a snapshot still has to do is what the plain run would do next. */
  predicate OnTrack(cfg: Config, w: World, c: Checkpoint) {
    var history := EraseAll(Records(c));
    && Tracks(cfg, w, history)
    && (c.phase.BeforeTool? || c.phase.ToolInFlight? ==>
          c.pendingAction.Some? && ParseAction(c.pendingAction.value) == Ok(w.next(history)))
    && (c.phase.FinalReady? ==> c.finalAnswer.Some? && w.next(history) == Final(c.finalAnswer.value))
  }

  predicate ExecOnTrack(cfg: Config, w: World, e: Exec) {
    e.pc.Stopped? || e.pc.CommitStop? ||
    (&& OnTrack(cfg, w, e.checkpoint)
     && match e.pc
        case CommitAction(action) => w.next(EraseAll(Records(e.checkpoint))) == action
        case InHandler =>
          e.pending.Some? && e.pending.value.ToolCall? && RequestTool(cfg.agent, e.pending.value, ToolCallId(e)).Invoke?
        case CommitToolStep(step) => Tracks(cfg, w, EraseAll(Records(e.checkpoint)) + [Erase(step)])
        case CommitFinal(answer, _) => w.next(EraseAll(Records(e.checkpoint))) == Final(answer)
        case _ => true)
  }

  predicate ResultOnTrack(cfg: Config, w: World, store: Store) {
    && (store.status == Completed ==> store.result.Some? && store.result.value.status == RunCompleted)
    && (store.status == MaxStepsReached ==> store.result.Some? && store.result.value.status == RunMaxStepsReached)
    && (store.result.Some? ==> EraseOutcome(Finished(store.result.value)) == Plain(cfg, w, []))
  }

  predicate RunOnTrack(cfg: Config, w: World, s: RunState) {
    && (!IsTerminal(s.store.status) ==> OnTrack(cfg, w, s.store.checkpoint))
    && ResultOnTrack(cfg, w, s.store)
    && (forall i :: 0 <= i < |s.execs| ==> ExecOnTrack(cfg, w, s.execs[i]))
  }

  // ---------- one executor ----------

  lemma RecordsLength(cfg: Config, c: Checkpoint)
    requires Good(cfg, c)
    ensures |EraseAll(Records(c))| == |c.steps|
  {
    GoodHasRecords(cfg, c.steps);
  }

  /** A tool call observed as the world answers it continues the plain run. */
  lemma ObservedTracks(cfg: Config, w: World, e: Exec, observed: (Value, Option<string>), elapsed: real)
    requires Good(cfg, e.checkpoint) && e.index == |e.checkpoint.steps| < cfg.agent.maxSteps && HoldsPending(e)
    requires OnTrack(cfg, w, e.checkpoint) && e.checkpoint.phase.ToolInFlight?
    requires Observed(cfg.agent, cfg.runId, w, e.index, e.pending.value) == Some(observed)
    ensures Tracks(cfg, w, EraseAll(Records(e.checkpoint)) + [Erase(ToolStep(e.index, e.pending.value, observed, elapsed))])
  {
    RecordsLength(cfg, e.checkpoint);
    assert Erase(ToolStep(e.index, e.pending.value, observed, elapsed)) == ToolStep(e.index, e.pending.value, observed, 0.0);
  }

  lemma RecordOnTrack(cfg: Config, w: World, e: Exec, observed: Option<(Value, Option<string>)>, elapsed: real)
    requires Good(cfg, e.checkpoint) && e.index == |e.checkpoint.steps| < cfg.agent.maxSteps && HoldsPending(e)
    requires OnTrack(cfg, w, e.checkpoint) && e.checkpoint.phase.ToolInFlight?
    requires Observed(cfg.agent, cfg.runId, w, e.index, e.pending.value) == observed
    ensures ExecOnTrack(cfg, w, Record(e, observed, elapsed))
  {
    if observed.Some? {
      ObservedTracks(cfg, w, e, observed.value, elapsed);
    }
  }

  lemma CallOnTrack(cfg: Config, w: World, s: RunState, i: nat, elapsed: real)
    requires Inv(cfg, s) && i < |s.execs| && ExecOnTrack(cfg, w, s.execs[i])
    ensures ExecOnTrack(cfg, w, DoCall(cfg, s, i, elapsed).execs[i])
  {
    var e := s.execs[i];
    assert ExecInv(cfg, s.store, e);
    if e.pc == CallTool {
      StableCallId(cfg, e);
      var request := RequestTool(cfg.agent, e.pending.value, ToolCallId(e));
      if request.Refuse? {
        RecordOnTrack(cfg, w, e, Captured(cfg.agent, request.reason), elapsed);
      }
    }
  }

  lemma ReturnOnTrack(cfg: Config, w: World, s: RunState, i: nat, outcome: HandlerOutcome, elapsed: real)
    requires Inv(cfg, s) && i < |s.execs| && ExecOnTrack(cfg, w, s.execs[i])
    requires Plays(cfg, w, s, Return(i, outcome, elapsed))
    ensures ExecOnTrack(cfg, w, DoReturn(cfg, s, i, outcome, elapsed).execs[i])
  {
    var e := s.execs[i];
    assert ExecInv(cfg, s.store, e);
    if e.pc == InHandler {
      StableCallId(cfg, e);
      RecordOnTrack(cfg, w, e, Observe(cfg.agent, outcome), elapsed);
    }
  }

  // ---------- commits ----------

  lemma BeforeToolOnTrack(cfg: Config, w: World, c: Checkpoint, action: Action, call: Fields)
    requires OnTrack(cfg, w, c) && w.next(EraseAll(Records(c))) == action
    requires ParseAction(call) == Ok(action) && Idle(c)
    ensures OnTrack(cfg, w, ToBeforeTool(c, call)) && OnTrack(cfg, w, NextRevision(c))
  {
  }

  lemma InFlightOnTrack(cfg: Config, w: World, c: Checkpoint)
    requires OnTrack(cfg, w, c) && c.phase.BeforeTool?
    ensures OnTrack(cfg, w, ToInFlight(c)) && OnTrack(cfg, w, NextRevision(c))
  {
  }

  lemma ToolStepOnTrack(cfg: Config, w: World, c: Checkpoint, step: StepRecord, committed: Checkpoint)
    requires Good(cfg, c) && |c.steps| < |committed.steps| && committed.steps == c.steps + [committed.steps[|c.steps|]]
    requires ToRecord(committed.steps[|c.steps|]) == Ok(step) && Idle(committed)
    requires Tracks(cfg, w, EraseAll(Records(c)) + [Erase(step)])
    ensures OnTrack(cfg, w, committed)
  {
    GoodHasRecords(cfg, c.steps);
    RecordsAppend(c.steps, committed.steps[|c.steps|]);
    EraseAllAppend(Records(c), step);
  }

  lemma FinalReadyOnTrack(cfg: Config, w: World, c: Checkpoint, answer: string)
    requires OnTrack(cfg, w, c) && w.next(EraseAll(Records(c))) == Final(answer) && Idle(c)
    ensures OnTrack(cfg, w, ToFinalReady(c, answer))
  {
  }

  lemma FinalResult(cfg: Config, w: World, c: Checkpoint, answer: string, steps: seq<StepRecord>)
    requires Good(cfg, c) && OnTrack(cfg, w, c) && |c.steps| < cfg.agent.maxSteps
    requires w.next(EraseAll(Records(c))) == Final(answer)
    requires |steps| == |c.steps| + 1 && steps[..|c.steps|] == Records(c)
    requires steps[|c.steps|] == FinalStep(|c.steps|, answer, steps[|c.steps|].elapsedMs)
    ensures EraseOutcome(Finished(RunResult(RunCompleted, Some(answer), steps))) == Plain(cfg, w, [])
  {
    var n := |c.steps|;
    RecordsLength(cfg, c);
    assert steps == Records(c) + [steps[n]];
    EraseAllAppend(Records(c), steps[n]);
  }

  lemma MaxStepsResult(cfg: Config, w: World, c: Checkpoint)
    requires Good(cfg, c) && OnTrack(cfg, w, c) && |c.steps| == cfg.agent.maxSteps
    ensures EraseOutcome(Finished(RunResult(RunMaxStepsReached, None, Records(c)))) == Plain(cfg, w, [])
  {
    RecordsLength(cfg, c);
  }

  /** What a commit by an executor on track leaves behind is on track. */
  predicate CommitOnTrack(cfg: Config, w: World, before: RunState, i: nat, after: RunState)
    requires i < |before.execs| && |after.execs| == |before.execs|
  {
    && (!IsTerminal(after.store.status) ==> OnTrack(cfg, w, after.store.checkpoint))
    && ResultOnTrack(cfg, w, after.store)
    && ExecOnTrack(cfg, w, after.execs[i])
  }

  /** The premises every case of an accepted commit starts from. */
  predicate Committing(cfg: Config, w: World, s: RunState, i: nat, e: Exec) {
    && i < |s.execs|
    && e == s.execs[i].(commits := e.commits)
    && AtCommit(e.pc)
    && e.checkpoint == s.store.checkpoint
    && StoreInv(cfg, s.store)
    && ExecInv(cfg, s.store, s.execs[i])
    && !IsTerminal(s.store.status)
    && OnTrack(cfg, w, s.store.checkpoint)
    && ResultOnTrack(cfg, w, s.store)
    && ExecOnTrack(cfg, w, s.execs[i])
  }

  lemma ActionCommitOnTrack(cfg: Config, w: World, s: RunState, i: nat, e: Exec, keepPrevious: bool)
    requires Committing(cfg, w, s, i, e) && e.pc.CommitAction?
    ensures CommitOnTrack(cfg, w, s, i, DoAccepted(s, i, e, keepPrevious))
  {
    var action := e.pc.action;
    var call := SerializeAction(action, OkOrNone(StableToolCallId(e.checkpoint.runId, e.index)));
    if call.Ok? && NamesTool(action) {
      SerializedActionAt(action, cfg.runId, e.index);
      BeforeToolOnTrack(cfg, w, e.checkpoint, action, call.value);
    }
  }

  lemma InFlightCommitOnTrack(cfg: Config, w: World, s: RunState, i: nat, e: Exec, keepPrevious: bool)
    requires Committing(cfg, w, s, i, e) && (e.pc.CommitInFlight? || e.pc.CommitStop?)
    ensures CommitOnTrack(cfg, w, s, i, DoAccepted(s, i, e, keepPrevious))
  {
    if e.pc.CommitInFlight? {
      InFlightOnTrack(cfg, w, e.checkpoint);
    }
  }

  lemma ToolStepCommitOnTrack(cfg: Config, w: World, s: RunState, i: nat, e: Exec, keepPrevious: bool)
    requires Committing(cfg, w, s, i, e) && e.pc.CommitToolStep?
    ensures CommitOnTrack(cfg, w, s, i, DoAccepted(s, i, e, keepPrevious))
  {
    var c := e.checkpoint;
    GoodToolStep(cfg, c, e.pc.step);
    var committed := WithStep(c.runId, ToBeforeAction(c, e.index + 1), e.pc.step).value;
    assert committed.steps == c.steps + [committed.steps[|c.steps|]];
    ToolStepOnTrack(cfg, w, c, e.pc.step, committed);
  }

  lemma FinalCommitOnTrack(cfg: Config, w: World, s: RunState, i: nat, e: Exec, keepPrevious: bool)
    requires Committing(cfg, w, s, i, e) && e.pc.CommitFinal?
    ensures CommitOnTrack(cfg, w, s, i, DoAccepted(s, i, e, keepPrevious))
  {
    RecordsLength(cfg, e.checkpoint);
    FinalResult(cfg, w, e.checkpoint, e.pc.answer, e.steps);
    if e.pc.isNew {
      FinalReadyOnTrack(cfg, w, e.checkpoint, e.pc.answer);
    }
  }

  lemma MaxStepsCommitOnTrack(cfg: Config, w: World, s: RunState, i: nat, e: Exec, keepPrevious: bool)
    requires Committing(cfg, w, s, i, e) && e.pc.CommitMaxSteps?
    ensures CommitOnTrack(cfg, w, s, i, DoAccepted(s, i, e, keepPrevious))
  {
    MaxStepsResult(cfg, w, e.checkpoint);
  }

  lemma AcceptedOnTrack(cfg: Config, w: World, s: RunState, i: nat, e: Exec, keepPrevious: bool)
    requires Committing(cfg, w, s, i, e)
    ensures CommitOnTrack(cfg, w, s, i, DoAccepted(s, i, e, keepPrevious))
  {
    match e.pc {
      case CommitAction(_) => ActionCommitOnTrack(cfg, w, s, i, e, keepPrevious);
      case CommitToolStep(_) => ToolStepCommitOnTrack(cfg, w, s, i, e, keepPrevious);
      case CommitFinal(_, _) => FinalCommitOnTrack(cfg, w, s, i, e, keepPrevious);
      case CommitMaxSteps => MaxStepsCommitOnTrack(cfg, w, s, i, e, keepPrevious);
      case _ => InFlightCommitOnTrack(cfg, w, s, i, e, keepPrevious);
    }
  }

  lemma CommitKeepsTrack(cfg: Config, w: World, s: RunState, i: nat, keepPrevious: bool)
    requires Inv(cfg, s) && RunOnTrack(cfg, w, s) && i < |s.execs|
    ensures CommitOnTrack(cfg, w, s, i, DoCommit(cfg, s, i, keepPrevious))
  {
    var e := s.execs[i].(commits := s.execs[i].commits + 1);
    var s' := DoCommit(cfg, s, i, keepPrevious);
    assert ExecOnTrack(cfg, w, s.execs[i]);
    if AtCommit(e.pc) && Accepts(cfg, s.store, i, e.checkpoint.revision) {
      AcceptedIsCurrent(cfg, s, i);
      AcceptedOnTrack(cfg, w, s, i, e, keepPrevious);
      assert s' == DoAccepted(s, i, e, keepPrevious);
    }
  }

  // ---------- every step ----------

  lemma BeginOnTrack(cfg: Config, w: World, c: Checkpoint)
    requires OnTrack(cfg, w, c)
    ensures ExecOnTrack(cfg, w, Begin(c))
  {
  }

  lemma ChooseOnTrack(cfg: Config, w: World, s: RunState, i: nat, action: Action, elapsed: real)
    requires Inv(cfg, s) && i < |s.execs| && ExecOnTrack(cfg, w, s.execs[i])
    requires Plays(cfg, w, s, Choose(i, action, elapsed))
    ensures ExecOnTrack(cfg, w, DoChoose(s, i, action, elapsed).execs[i])
  {
    assert ExecInv(cfg, s.store, s.execs[i]);
  }

  lemma ReadOnTrack(cfg: Config, w: World, s: RunState, i: nat, leaseFresh: bool)
    requires i < |s.execs| && ExecOnTrack(cfg, w, s.execs[i])
    ensures ExecOnTrack(cfg, w, DoRead(s, i, leaseFresh).execs[i])
  {
  }

  lemma HandlerOnTrack(cfg: Config, w: World, s: RunState, l: Label, i: nat)
    requires Inv(cfg, s) && RunOnTrack(cfg, w, s) && Plays(cfg, w, s, l)
    requires Target(l) == Some(i) && i < |s.execs| && (l.Call? || l.Return?)
    ensures i < |Step(cfg, s, l).execs| && ExecOnTrack(cfg, w, Step(cfg, s, l).execs[i])
  {
    assert ExecOnTrack(cfg, w, s.execs[i]);
    if l.Call? {
      CallOnTrack(cfg, w, s, i, l.elapsed);
    } else {
      ReturnOnTrack(cfg, w, s, i, l.outcome, l.elapsed);
    }
  }

  lemma TargetOnTrack(cfg: Config, w: World, s: RunState, l: Label, i: nat)
    requires Inv(cfg, s) && RunOnTrack(cfg, w, s) && Plays(cfg, w, s, l)
    requires Target(l) == Some(i) && i < |s.execs|
    ensures i < |Step(cfg, s, l).execs| && ExecOnTrack(cfg, w, Step(cfg, s, l).execs[i])
  {
    assert ExecOnTrack(cfg, w, s.execs[i]);
    match l {
      case Read(_, leaseFresh) => ReadOnTrack(cfg, w, s, i, leaseFresh);
      case Choose(_, action, elapsed) => ChooseOnTrack(cfg, w, s, i, action, elapsed);
      case Commit(_, keepPrevious) => CommitKeepsTrack(cfg, w, s, i, keepPrevious);
      case Load(_) =>
      case Crash(_) =>
      case _ => HandlerOnTrack(cfg, w, s, l, i);
    }
  }

  lemma StoreStaysOnTrack(cfg: Config, w: World, s: RunState, l: Label)
    requires Inv(cfg, s) && RunOnTrack(cfg, w, s) && Plays(cfg, w, s, l)
    ensures var store := Step(cfg, s, l).store;
      (!IsTerminal(store.status) ==> OnTrack(cfg, w, store.checkpoint)) && ResultOnTrack(cfg, w, store)
  {
    if l.Commit? && l.i < |s.execs| {
      CommitKeepsTrack(cfg, w, s, l.i, l.keepPrevious);
    }
  }

  lemma ClaimedOnTrack(cfg: Config, w: World, s: RunState)
    requires Inv(cfg, s) && RunOnTrack(cfg, w, s)
    ensures |DoClaim(cfg, s).execs| <= |s.execs| + 1
    ensures |DoClaim(cfg, s).execs| == |s.execs| + 1 ==> ExecOnTrack(cfg, w, DoClaim(cfg, s).execs[|s.execs|])
  {
    if IsResumable(s.store.status) {
      BeginOnTrack(cfg, w, s.store.checkpoint);
    }
  }

  lemma ExecStaysOnTrack(cfg: Config, w: World, s: RunState, l: Label, i: nat)
    requires Inv(cfg, s) && RunOnTrack(cfg, w, s) && Plays(cfg, w, s, l)
    requires i < |Step(cfg, s, l).execs|
    ensures ExecOnTrack(cfg, w, Step(cfg, s, l).execs[i])
  {
    if i < |s.execs| {
      assert ExecOnTrack(cfg, w, s.execs[i]);
      if Target(l) != Some(i) {
        StepTouchesOne(cfg, s, l, i);
      } else {
        TargetOnTrack(cfg, w, s, l, i);
      }
    } else if l.Claim? {
      ClaimedOnTrack(cfg, w, s);
    } else {
      StepAddsNone(cfg, s, l);
    }
  }

  lemma StepOnTrack(cfg: Config, w: World, s: RunState, l: Label)
    requires Inv(cfg, s) && RunOnTrack(cfg, w, s) && Plays(cfg, w, s, l)
    ensures RunOnTrack(cfg, w, Step(cfg, s, l))
  {
    StoreStaysOnTrack(cfg, w, s, l);
    forall i | 0 <= i < |Step(cfg, s, l).execs| ensures ExecOnTrack(cfg, w, Step(cfg, s, l).execs[i]) {
      ExecStaysOnTrack(cfg, w, s, l, i);
    }
  }

  lemma {:induction false} ReachableOnTrack(cfg: Config, w: World, c: Checkpoint, labels: seq<Label>)
    requires Initial(cfg, c) && PlaysAll(cfg, w, Start(c), labels)
    ensures RunOnTrack(cfg, w, Execute(cfg, Start(c), labels))
  {
    if labels == [] {
      assert EraseAll(Records(c)) == [];
    } else {
      var front := labels[..|labels| - 1];
      ReachableOnTrack(cfg, w, c, front);
      ReachableInv(cfg, c, front);
      StepOnTrack(cfg, w, Execute(cfg, Start(c), front), labels[|labels| - 1]);
    }
  }

  /**
   A managed run that reaches its end, however often it was paused, crashed, taken over and
   resumed, has the steps, the answer and the status of the uninterrupted in-memory run.
   */
  lemma ResumedRunRefinesPlainRun(cfg: Config, w: World, c: Checkpoint, labels: seq<Label>)
    requires Initial(cfg, c) && PlaysAll(cfg, w, Start(c), labels)
    ensures var store := Execute(cfg, Start(c), labels).store;
      store.status == Completed || store.status == MaxStepsReached ==>
        && store.result.Some?
        && EraseOutcome(Finished(store.result.value)) == PlainFrom(cfg.agent, cfg.runId, w, [])
        && store.result.value.status == (if store.status == Completed then RunCompleted else RunMaxStepsReached)
  {
    ReachableOnTrack(cfg, w, c, labels);
  }
}
