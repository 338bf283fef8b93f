/** No tool step is committed without its handler having been called. */
module ManagedTrace {
  import opened Prelude
  import opened AgentState
  import opened AgentActions
  import opened PlainRun
  import opened ManagedRun
  import opened ManagedInvariant
  import opened ManagedSafety
  import opened ManagedTheorems

  /** The action of step `k` is a call the agent does not refuse. */
  predicate Invokes(cfg: Config, payload: Fields, k: nat) {
    && cfg.runId != ""
    && ParseAction(payload).Ok?
    && ParseAction(payload).value.ToolCall?
    && RequestTool(cfg.agent, ParseAction(payload).value, CallId(cfg.runId, k)).Invoke?
  }

  predicate Called(s: RunState, k: nat) {
    exists j :: 0 <= j < |s.trace| && s.trace[j].index == k
  }

  predicate ExecCalled(cfg: Config, s: RunState, e: Exec) {
    match e.pc
    case InHandler => Called(s, e.index)
    case CommitToolStep(_) =>
      e.checkpoint.pendingAction.Some? && Invokes(cfg, e.checkpoint.pendingAction.value, e.index) ==> Called(s, e.index)
    case _ => true
  }

  predicate StepsCalled(cfg: Config, s: RunState, steps: seq<CheckpointStep>) {
    forall k :: 0 <= k < |steps| && Invokes(cfg, steps[k].action, k) ==> Called(s, k)
  }

  predicate CalledInv(cfg: Config, s: RunState) {
    && StepsCalled(cfg, s, s.store.checkpoint.steps)
    && (forall i :: 0 <= i < |s.execs| ==> ExecCalled(cfg, s, s.execs[i]))
  }

  predicate TraceGrows(before: RunState, after: RunState) {
    before.trace <= after.trace
  }

  lemma CalledStays(before: RunState, after: RunState, k: nat)
    requires TraceGrows(before, after) && Called(before, k)
    ensures Called(after, k)
  {
    var j :| 0 <= j < |before.trace| && before.trace[j].index == k;
    assert after.trace[j] == before.trace[j];
  }

  lemma ExecCalledStays(cfg: Config, before: RunState, after: RunState, e: Exec)
    requires TraceGrows(before, after) && ExecCalled(cfg, before, e)
    ensures ExecCalled(cfg, after, e)
  {
    if Called(before, e.index) {
      CalledStays(before, after, e.index);
    }
  }

  lemma StepsCalledStay(cfg: Config, before: RunState, after: RunState, steps: seq<CheckpointStep>)
    requires TraceGrows(before, after) && StepsCalled(cfg, before, steps)
    ensures StepsCalled(cfg, after, steps)
  {
    forall k | 0 <= k < |steps| && Invokes(cfg, steps[k].action, k) ensures Called(after, k) {
      CalledStays(before, after, k);
    }
  }

  // ---------- the step that commits ----------

  lemma FinalActionStored(step: StepRecord, id: Option<string>)
    requires ToCheckpointStep(step, id).Ok? && step.action.Final?
    ensures ParseAction(ToCheckpointStep(step, id).value.action) == Ok(step.action)
  {
    ActionSurvivesStorage(step.action, id);
  }

  /** Appending the steps of a result adds no tool step. */
  lemma ResultAddsNoCall(cfg: Config, s: RunState, candidate: Checkpoint, steps: seq<StepRecord>)
    requires StepsCalled(cfg, s, candidate.steps) && WithSteps(candidate.runId, candidate, steps).Ok?
    requires |steps| <= |candidate.steps| + 1
    requires forall k :: 0 <= k < |steps| && k < |candidate.steps| ==> steps[k].index < |candidate.steps|
    requires |steps| == |candidate.steps| + 1 ==> steps[|candidate.steps|].action.Final?
    ensures StepsCalled(cfg, s, WithSteps(candidate.runId, candidate, steps).value.steps)
  {
    var n := |candidate.steps|;
    if |steps| <= n {
      CommittedStepsSkip(cfg, candidate, steps);
    } else {
      CommittedStepsSkip(cfg, candidate, steps[..n]);
      assert steps[..|steps| - 1] == steps[..n];
      var id := OkOrNone(StableToolCallId(candidate.runId, steps[n].index));
      if ToCheckpointStep(steps[n], id).Ok? {
        FinalActionStored(steps[n], id);
      }
    }
  }

  /** A terminal commit adds no tool step. */
  lemma TerminalAddsNoCall(cfg: Config, s: RunState, i: nat, e: Exec, candidate: Checkpoint, result: RunResult)
    requires i < |s.execs| && candidate.steps == s.store.checkpoint.steps && StepsCalled(cfg, s, candidate.steps)
    requires |result.steps| <= |candidate.steps| + 1
    requires forall k :: 0 <= k < |result.steps| && k < |candidate.steps| ==> result.steps[k].index < |candidate.steps|
    requires |result.steps| == |candidate.steps| + 1 ==> result.steps[|candidate.steps|].action.Final?
    ensures StepsCalled(cfg, s, DoTerminal(s, i, e, candidate, result).store.checkpoint.steps)
  {
    if WithSteps(candidate.runId, candidate, result.steps).Ok? {
      ResultAddsNoCall(cfg, s, candidate, result.steps);
    }
  }

  /** The stored step of a finished tool carries the action that was in flight. */
  lemma StepStoredCalled(cfg: Config, s: RunState, e: Exec, step: StepRecord, committed: Checkpoint)
    requires StoreInv(cfg, s.store) && ExecInv(cfg, s.store, e) && e.pc == CommitToolStep(step) && e.checkpoint == s.store.checkpoint
    requires WithStep(e.checkpoint.runId, ToBeforeAction(e.checkpoint, e.index + 1), step) == Ok(committed)
    requires StepsCalled(cfg, s, e.checkpoint.steps) && ExecCalled(cfg, s, e)
    ensures StepsCalled(cfg, s, committed.steps)
  {
    var c := e.checkpoint;
    GoodToolStep(cfg, c, step);
    forall k | 0 <= k < |committed.steps| && Invokes(cfg, committed.steps[k].action, k) ensures Called(s, k) {
      if k < |c.steps| {
        assert committed.steps[..|c.steps|][k] == c.steps[k];
      }
    }
  }

  lemma FinalCommitCalled(cfg: Config, s: RunState, i: nat, e: Exec, keepPrevious: bool)
    requires i < |s.execs| && e.checkpoint == s.store.checkpoint && StoreInv(cfg, s.store)
    requires e.pc.CommitFinal? || e.pc.CommitMaxSteps?
    requires e.index == |e.checkpoint.steps| && PcInv(s.store, e, Records(e.checkpoint))
    requires StepsCalled(cfg, s, s.store.checkpoint.steps)
    ensures StepsCalled(cfg, s, DoAccepted(s, i, e, keepPrevious).store.checkpoint.steps)
  {
    var c := e.checkpoint;
    GoodHasRecords(cfg, c.steps);
    if e.pc.CommitFinal? {
      assert forall k :: 0 <= k < |c.steps| ==> e.steps[k] == e.steps[..|c.steps|][k];
      var candidate := if e.pc.isNew then ToFinalReady(c, e.pc.answer) else c;
      TerminalAddsNoCall(cfg, s, i, e, candidate, RunResult(RunCompleted, Some(e.pc.answer), e.steps));
    } else {
      TerminalAddsNoCall(cfg, s, i, e, ToBeforeAction(c, e.index), RunResult(RunMaxStepsReached, None, e.steps));
    }
  }

  lemma CommitStepsCalled(cfg: Config, s: RunState, i: nat, keepPrevious: bool)
    requires Inv(cfg, s) && CalledInv(cfg, s) && i < |s.execs|
    ensures StepsCalled(cfg, s, DoCommit(cfg, s, i, keepPrevious).store.checkpoint.steps)
  {
    var e := s.execs[i].(commits := s.execs[i].commits + 1);
    CommitShape(cfg, s, i, keepPrevious);
    if AtCommit(e.pc) && Accepts(cfg, s.store, i, e.checkpoint.revision) {
      AcceptedIsCurrent(cfg, s, i);
      AcceptedStepsCalled(cfg, s, i, e, keepPrevious);
    }
  }

  lemma AcceptedStepsCalled(cfg: Config, s: RunState, i: nat, e: Exec, keepPrevious: bool)
    requires i < |s.execs| && e == s.execs[i].(commits := e.commits) && e.checkpoint == s.store.checkpoint
    requires StoreInv(cfg, s.store) && ExecInv(cfg, s.store, s.execs[i]) && ExecCalled(cfg, s, s.execs[i]) && AtCommit(e.pc)
    requires StepsCalled(cfg, s, s.store.checkpoint.steps)
    ensures StepsCalled(cfg, s, DoAccepted(s, i, e, keepPrevious).store.checkpoint.steps)
  {
    match e.pc {
      case CommitToolStep(step) =>
        var committed := WithStep(e.checkpoint.runId, ToBeforeAction(e.checkpoint, e.index + 1), step);
        if committed.Ok? {
          StepStoredCalled(cfg, s, s.execs[i], step, committed.value);
        }
      case CommitFinal(_, _) => FinalCommitCalled(cfg, s, i, e, keepPrevious);
      case CommitMaxSteps => FinalCommitCalled(cfg, s, i, e, keepPrevious);
      case _ =>
    }
  }

  // ---------- the step that calls ----------

  lemma CallIsRecorded(cfg: Config, s: RunState, i: nat, elapsed: real)
    requires Inv(cfg, s) && i < |s.execs| && ExecCalled(cfg, s, s.execs[i])
    ensures ExecCalled(cfg, DoCall(cfg, s, i, elapsed), DoCall(cfg, s, i, elapsed).execs[i])
  {
    var e := s.execs[i];
    if e.pc == CallTool {
      assert ExecInv(cfg, s.store, e);
      CallShape(cfg, s, i, elapsed);
      StableCallId(cfg, e);
      var s' := DoCall(cfg, s, i, elapsed);
      if s'.trace != s.trace {
        assert s'.trace[|s.trace|].index == e.index;
      }
    }
  }

  /** An executor reaches a new commit of a tool step, or a handler, only through `Call` and `Return`. */
  lemma MovedCalled(cfg: Config, s: RunState, l: Label, i: nat)
    requires Target(l) == Some(i) && i < |s.execs| && !l.Call? && ExecCalled(cfg, s, s.execs[i])
    requires |Step(cfg, s, l).execs| == |s.execs| && Step(cfg, s, l).trace == s.trace
    ensures ExecCalled(cfg, Step(cfg, s, l), Step(cfg, s, l).execs[i])
  {
    assert forall k :: Called(s, k) ==> Called(Step(cfg, s, l), k);
  }

  lemma StepTrace(cfg: Config, s: RunState, l: Label)
    ensures TraceGrows(s, Step(cfg, s, l))
  {
    if !l.Call? {
      OnlyCallsAreTraced(cfg, s, l);
    }
  }

  lemma BeginCallsNothing(cfg: Config, s: RunState, c: Checkpoint)
    ensures ExecCalled(cfg, s, Begin(c)) && ExecCalled(cfg, s, StoppedExec(c))
  {
  }

  lemma ExecStaysCalled(cfg: Config, s: RunState, l: Label, i: nat)
    requires Inv(cfg, s) && CalledInv(cfg, s) && i < |Step(cfg, s, l).execs|
    ensures ExecCalled(cfg, Step(cfg, s, l), Step(cfg, s, l).execs[i])
  {
    StepTrace(cfg, s, l);
    if i < |s.execs| {
      assert ExecCalled(cfg, s, s.execs[i]);
      if Target(l) != Some(i) {
        StepTouchesOne(cfg, s, l, i);
        ExecCalledStays(cfg, s, Step(cfg, s, l), s.execs[i]);
      } else if l.Call? {
        CallIsRecorded(cfg, s, i, l.elapsed);
      } else {
        OnlyCallsAreTraced(cfg, s, l);
        StepAddsNone(cfg, s, l);
        MovedCalled(cfg, s, l, i);
      }
    } else {
      if !l.Claim? {
        StepAddsNone(cfg, s, l);
      }
      BeginCallsNothing(cfg, Step(cfg, s, l), s.store.checkpoint);
    }
  }

  lemma StepsStayCalled(cfg: Config, s: RunState, l: Label)
    requires Inv(cfg, s) && CalledInv(cfg, s)
    ensures StepsCalled(cfg, Step(cfg, s, l), Step(cfg, s, l).store.checkpoint.steps)
  {
    StepTrace(cfg, s, l);
    if l.Commit? && l.i < |s.execs| {
      CommitStepsCalled(cfg, s, l.i, l.keepPrevious);
    }
    StepsCalledStay(cfg, s, Step(cfg, s, l), Step(cfg, s, l).store.checkpoint.steps);
  }

  lemma {:induction false} ReachableCalls(cfg: Config, c: Checkpoint, labels: seq<Label>)
    requires Initial(cfg, c)
    ensures CalledInv(cfg, Execute(cfg, Start(c), labels))
  {
    if labels != [] {
      var s, l := Execute(cfg, Start(c), labels[..|labels| - 1]), labels[|labels| - 1];
      ReachableCalls(cfg, c, labels[..|labels| - 1]);
      ReachableInv(cfg, c, labels[..|labels| - 1]);
      StepsStayCalled(cfg, s, l);
      forall i | 0 <= i < |Step(cfg, s, l).execs| ensures ExecCalled(cfg, Step(cfg, s, l), Step(cfg, s, l).execs[i]) {
        ExecStaysCalled(cfg, s, l, i);
      }
    }
  }

  /**
   Every committed step whose tool the agent does not refuse was really called: with the
   committed action's tool and arguments, under the identifier of the step.
   */
  lemma CommittedStepsWereCalled(cfg: Config, c: Checkpoint, labels: seq<Label>, k: nat)
    requires Initial(cfg, c) && k < |Execute(cfg, Start(c), labels).store.checkpoint.steps|
    requires Invokes(cfg, Execute(cfg, Start(c), labels).store.checkpoint.steps[k].action, k)
    ensures var s := Execute(cfg, Start(c), labels);
      exists j :: 0 <= j < |s.trace| && s.trace[j].index == k && s.trace[j].action == s.store.checkpoint.steps[k].action
                  && CallOf(cfg, s.trace[j])
  {
    ReachableCalls(cfg, c, labels);
    ReachableInv(cfg, c, labels);
    var s := Execute(cfg, Start(c), labels);
    assert Called(s, k);
    var j :| 0 <= j < |s.trace| && s.trace[j].index == k;
    SettledUnique(s.store.checkpoint, k, s.trace[j].action, s.store.checkpoint.steps[k].action);
    assert CallOf(cfg, s.trace[j]);
  }
}
