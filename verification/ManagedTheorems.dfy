/** The promises of managed runs, for every run from an initial checkpoint. */
module ManagedTheorems {
  import opened Prelude
  import opened AgentState
  import opened AgentActions
  import opened PlainRun
  import opened ManagedRun
  import opened ManagedInvariant
  import opened ManagedSafety

  /** The handler of a non-replayable tool is called at most once for a step, whatever crashes or takes over. */
  lemma GuardedToolCalledAtMostOnce(cfg: Config, c: Checkpoint, labels: seq<Label>, j: nat, k: nat)
    requires Initial(cfg, c)
    requires var trace := Execute(cfg, Start(c), labels).trace;
      && j < |trace| && k < |trace| && trace[j].index == trace[k].index
      && trace[k].tool in cfg.agent.tools && cfg.agent.tools[trace[k].tool].NonReplayable?
    ensures j == k
  {
    ReachableInv(cfg, c, labels);
    var trace := Execute(cfg, Start(c), labels).trace;
    assert CallOf(cfg, trace[j]) && CallOf(cfg, trace[k]);
    SettledUnique(Execute(cfg, Start(c), labels).store.checkpoint, trace[j].index, trace[j].action, trace[k].action);
    assert Guarded(cfg, trace[k].action) && Guarded(cfg, trace[j].action);
  }

  /** All calls serving one step are the same call: tool, arguments and call identifier; and the identifier names the step. */
  lemma CallsOfAStepAgree(cfg: Config, c: Checkpoint, labels: seq<Label>, j: nat, k: nat)
    requires Initial(cfg, c)
    requires j < |Execute(cfg, Start(c), labels).trace| && k < |Execute(cfg, Start(c), labels).trace|
    ensures var trace := Execute(cfg, Start(c), labels).trace;
      && Ok(trace[j].callId) == StableToolCallId(c.runId, trace[j].index)
      && (trace[j].callId == trace[k].callId <==> trace[j].index == trace[k].index)
      && (trace[j].index == trace[k].index ==> trace[j].tool == trace[k].tool && trace[j].args == trace[k].args)
  {
    ReachableInv(cfg, c, labels);
    var s := Execute(cfg, Start(c), labels);
    assert CallOf(cfg, s.trace[j]) && CallOf(cfg, s.trace[k]);
    StableIdInjective(cfg.runId, s.trace[j].index, s.trace[k].index);
    if s.trace[j].index == s.trace[k].index {
      SettledUnique(s.store.checkpoint, s.trace[j].index, s.trace[j].action, s.trace[k].action);
    }
  }

  /** A handler gets the arguments of its committed action; an idempotent tool also gets the call identifier to recognise a repetition by. */
  lemma HandlersGetTheirArguments(cfg: Config, c: Checkpoint, labels: seq<Label>, j: nat)
    requires Initial(cfg, c) && j < |Execute(cfg, Start(c), labels).trace|
    ensures var call := Execute(cfg, Start(c), labels).trace[j];
      && call.tool in cfg.agent.tools
      && Get(call.action, KArgs).Obj?
      && call.args == (if cfg.agent.tools[call.tool].Idempotent?
                       then Get(call.action, KArgs).fields[KAgentToolCallId := Str(call.callId)] else Get(call.action, KArgs).fields)
  {
    ReachableInv(cfg, c, labels);
    var call := Execute(cfg, Start(c), labels).trace[j];
    assert CallOf(cfg, call);
    var action := ParseAction(call.action).value;
    assert SerializeAction(action, Some(CallId(cfg.runId, call.index))) == Ok(call.action);
    assert Get(call.action, KArgs) == action.args;
  }

  // ---------- stored checkpoints ----------

  /**
   Every stored checkpoint is valid and within the step bound, its payload decodes to it again,
   as a value or as text that fits the limit, and a final answer waiting to be committed still
   has its step to spend.
   */
  lemma StoredCheckpointsValid(cfg: Config, c: Checkpoint, labels: seq<Label>, length: nat, maxBytes: int)
    requires Initial(cfg, c)
    ensures var store := Execute(cfg, Start(c), labels).store;
      && Valid(store.checkpoint)
      && WrittenBySerializer(store.checkpoint)
      && Decode(Parsed(Obj(ToPayload(store.checkpoint))), maxBytes) == Ok(store.checkpoint)
      && (length <= maxBytes ==> Decode(Text(length, Some(Obj(ToPayload(store.checkpoint)))), maxBytes) == Ok(store.checkpoint))
      && store.checkpoint.maxSteps == c.maxSteps
      && |store.checkpoint.steps| <= c.maxSteps
      && (store.checkpoint.phase.FinalReady? && !IsTerminal(store.status) ==> store.checkpoint.nextStepIndex < c.maxSteps)
  {
    ReachableInv(cfg, c, labels);
    var stored := Execute(cfg, Start(c), labels).store.checkpoint;
    forall k | 0 <= k < |stored.steps| ensures WrittenStep(stored.steps[k]) {
      assert StepAt(stored.steps[k], cfg.runId, k);
      WrittenAt(stored.steps[k].action, cfg.runId, k);
    }
    if stored.pendingAction.Some? {
      WrittenAt(stored.pendingAction.value, cfg.runId, |stored.steps|);
    }
    WrittenIsReadable(stored);
    PayloadDecodes(stored);
  }

  /** A stored action keeps a checkpoint valid exactly when it names its tool. */
  lemma BeforeToolValidIffNamed(cfg: Config, c: Checkpoint, action: Action)
    requires Good(cfg, c) && Idle(c) && action.ToolCall? && action.args.Obj?
    ensures Valid(ToBeforeTool(c, SerializeAction(action, Some(CallId(c.runId, |c.steps|))).value)) <==> NamesTool(action)
  {
  }

  lemma WrittenAt(payload: Fields, runId: string, k: nat)
    requires runId != "" && ParseAction(payload).Ok?
    requires SerializeAction(ParseAction(payload).value, Some(CallId(runId, k))) == Ok(payload)
    ensures WrittenAction(payload)
  {
    if ParseAction(payload).value.ToolCall? {
      assert Get(payload, KToolCallId) == Str(CallId(runId, k));
      assert |CallId(runId, k)| > 0;
    }
  }

  /** The committed steps of `after` are those of `before` and at most one more. */
  predicate Grows(before: Checkpoint, after: Checkpoint) {
    && |before.steps| <= |after.steps| <= |before.steps| + 1
    && after.steps[..|before.steps|] == before.steps
  }

  lemma TerminalGrows(cfg: Config, s: RunState, i: nat, e: Exec, candidate: Checkpoint, result: RunResult)
    requires i < |s.execs| && candidate.steps == s.store.checkpoint.steps
    requires |result.steps| <= |candidate.steps| + 1
    requires forall k :: 0 <= k < |result.steps| && k < |candidate.steps| ==> result.steps[k].index < |candidate.steps|
    ensures Grows(s.store.checkpoint, DoTerminal(s, i, e, candidate, result).store.checkpoint)
  {
    var n := |candidate.steps|;
    if |result.steps| <= n {
      CommittedStepsSkip(cfg, candidate, result.steps);
    } else {
      CommittedStepsSkip(cfg, candidate, result.steps[..n]);
      assert result.steps[..|result.steps| - 1] == result.steps[..n];
    }
  }

  lemma CommitGrows(cfg: Config, s: RunState, i: nat, keepPrevious: bool)
    requires Inv(cfg, s) && i < |s.execs|
    ensures Grows(s.store.checkpoint, DoCommit(cfg, s, i, keepPrevious).store.checkpoint)
  {
    var e := s.execs[i].(commits := s.execs[i].commits + 1);
    CommitShape(cfg, s, i, keepPrevious);
    if AtCommit(e.pc) && Accepts(cfg, s.store, i, e.checkpoint.revision) {
      AcceptedIsCurrent(cfg, s, i);
      AcceptedGrows(cfg, s, i, e, keepPrevious);
    }
  }

  lemma AcceptedGrows(cfg: Config, s: RunState, i: nat, e: Exec, keepPrevious: bool)
    requires i < |s.execs| && e == s.execs[i].(commits := e.commits) && e.checkpoint == s.store.checkpoint
    requires AtCommit(e.pc) && ExecInv(cfg, s.store, s.execs[i])
    ensures Grows(s.store.checkpoint, DoAccepted(s, i, e, keepPrevious).store.checkpoint)
  {
    if e.pc.CommitFinal? || e.pc.CommitMaxSteps? {
      LastCommitGrows(cfg, s, i, e, keepPrevious);
    } else if e.pc.CommitToolStep? {
      StepCommitGrows(s, i, e, keepPrevious);
    } else {
      SnapshotCommitGrows(s, i, e, keepPrevious);
    }
  }

  lemma StepCommitGrows(s: RunState, i: nat, e: Exec, keepPrevious: bool)
    requires i < |s.execs| && e.checkpoint == s.store.checkpoint && e.pc.CommitToolStep?
    ensures Grows(s.store.checkpoint, DoAccepted(s, i, e, keepPrevious).store.checkpoint)
  {
  }

  lemma SnapshotCommitGrows(s: RunState, i: nat, e: Exec, keepPrevious: bool)
    requires i < |s.execs| && e.checkpoint == s.store.checkpoint
    requires e.pc.CommitStop? || e.pc.CommitAction? || e.pc.CommitInFlight?
    ensures Grows(s.store.checkpoint, DoAccepted(s, i, e, keepPrevious).store.checkpoint)
  {
  }

  lemma LastCommitGrows(cfg: Config, s: RunState, i: nat, e: Exec, keepPrevious: bool)
    requires i < |s.execs| && e.checkpoint == s.store.checkpoint && Good(cfg, e.checkpoint)
    requires e.pc.CommitFinal? || e.pc.CommitMaxSteps?
    requires e.index == |e.checkpoint.steps| && PcInv(s.store, e, Records(e.checkpoint))
    ensures Grows(s.store.checkpoint, DoAccepted(s, i, e, keepPrevious).store.checkpoint)
  {
    var c := e.checkpoint;
    GoodHasRecords(cfg, c.steps);
    if e.pc.CommitFinal? {
      assert forall k :: 0 <= k < |c.steps| ==> e.steps[k] == e.steps[..|c.steps|][k];
      var candidate := if e.pc.isNew then ToFinalReady(c, e.pc.answer) else c;
      TerminalGrows(cfg, s, i, e, candidate, RunResult(RunCompleted, Some(e.pc.answer), e.steps));
    } else {
      TerminalGrows(cfg, s, i, e, ToBeforeAction(c, e.index), RunResult(RunMaxStepsReached, None, e.steps));
    }
  }

  lemma StepGrows(cfg: Config, s: RunState, l: Label)
    requires Inv(cfg, s)
    ensures Grows(s.store.checkpoint, Step(cfg, s, l).store.checkpoint)
  {
    if l.Commit? && l.i < |s.execs| {
      CommitGrows(cfg, s, l.i, l.keepPrevious);
    }
  }

  lemma OneMore(cfg: Config, s: RunState, before: seq<Label>, front: seq<Label>, l: Label)
    ensures Execute(cfg, s, before + (front + [l])) == Step(cfg, Execute(cfg, s, before + front), l)
  {
    assert (before + (front + [l]))[..|before + front|] == before + front;
  }

  /** Committed steps are never changed or removed: what a run has committed is a prefix of what it commits later. */
  lemma {:induction false} CommittedStepsOnlyGrow(cfg: Config, c: Checkpoint, before: seq<Label>, later: seq<Label>)
    requires Initial(cfg, c)
    ensures Execute(cfg, Start(c), before).store.checkpoint.steps <= Execute(cfg, Start(c), before + later).store.checkpoint.steps
  {
    if later == [] {
      assert before + later == before;
    } else {
      var front, l := later[..|later| - 1], later[|later| - 1];
      assert later == front + [l];
      CommittedStepsOnlyGrow(cfg, c, before, front);
      OneMore(cfg, Start(c), before, front, l);
      NextCommitGrows(cfg, c, before + front, l);
    }
  }

  lemma NextCommitGrows(cfg: Config, c: Checkpoint, labels: seq<Label>, l: Label)
    requires Initial(cfg, c)
    ensures var s := Execute(cfg, Start(c), labels); s.store.checkpoint.steps <= Step(cfg, s, l).store.checkpoint.steps
  {
    ReachableInv(cfg, c, labels);
    StepGrows(cfg, Execute(cfg, Start(c), labels), l);
  }

  // ---------- terminal states ----------

  /** A terminal run never changes again: neither its snapshot, nor its status, nor its result. */
  lemma {:induction false} TerminalIsFinal(cfg: Config, s: RunState, labels: seq<Label>)
    requires IsTerminal(s.store.status)
    ensures Execute(cfg, s, labels).store == s.store
  {
    if labels != [] {
      TerminalIsFinal(cfg, s, labels[..|labels| - 1]);
    }
  }

  // ---------- how much one attempt does ----------

  predicate Counted(e: Exec, maxSteps: int) {
    && e.start <= maxSteps
    && (if e.pc.Stopped? then
          e.calls <= maxSteps - e.start && e.commits <= 3 * (maxSteps - e.start) + 1
        else
          && e.start <= e.index <= maxSteps
          && (!e.pc.CommitMaxSteps? ==> e.index < maxSteps)
          && e.calls <= e.index - e.start + (if e.pc.InHandler? || e.pc.CommitToolStep? then 1 else 0)
          && e.commits <= 3 * (e.index - e.start) + Spent(e.pc))
  }

  /** The commits an attempt can have made within the current step. */
  function Spent(pc: Pc): nat {
    match pc
    case CommitInFlight => 1
    case CallTool => 2
    case InHandler => 2
    case CommitToolStep(_) => 2
    case _ => 0
  }

  predicate CountInv(cfg: Config, s: RunState) {
    forall i :: 0 <= i < |s.execs| ==> Counted(s.execs[i], cfg.agent.maxSteps)
  }

  lemma BeginCounted(cfg: Config, s: RunState)
    requires Inv(cfg, s) && !IsTerminal(s.store.status)
    ensures Counted(Begin(s.store.checkpoint), cfg.agent.maxSteps)
    ensures Counted(StoppedExec(s.store.checkpoint), cfg.agent.maxSteps)
  {
  }

  lemma AcceptedCounted(cfg: Config, s: RunState, i: nat, e: Exec, keepPrevious: bool)
    requires i < |s.execs| && AtCommit(e.pc) && e.commits > 0 && e.checkpoint.maxSteps == cfg.agent.maxSteps
    requires Counted(e.(commits := e.commits - 1), cfg.agent.maxSteps)
    ensures Counted(DoAccepted(s, i, e, keepPrevious).execs[i], cfg.agent.maxSteps)
  {
  }

  /** The executor a label moves. */
  function Target(l: Label): Option<nat> {
    match l
    case Read(i, _) => Some(i)
    case Load(i) => Some(i)
    case Choose(i, _, _) => Some(i)
    case Commit(i, _) => Some(i)
    case Call(i, _) => Some(i)
    case Return(i, _, _) => Some(i)
    case Crash(i) => Some(i)
    case _ => None
  }

  lemma AcceptedTouchesOne(s: RunState, i: nat, e: Exec, keepPrevious: bool, j: nat)
    requires i < |s.execs| && j < |s.execs| && j != i
    ensures |DoAccepted(s, i, e, keepPrevious).execs| == |s.execs| && DoAccepted(s, i, e, keepPrevious).execs[j] == s.execs[j]
  {
  }

  lemma StepTouchesOne(cfg: Config, s: RunState, l: Label, j: nat)
    requires j < |s.execs| && Target(l) != Some(j)
    ensures j < |Step(cfg, s, l).execs| && Step(cfg, s, l).execs[j] == s.execs[j]
  {
    if l.Commit? && l.i < |s.execs| {
      AcceptedTouchesOne(s, l.i, s.execs[l.i].(commits := s.execs[l.i].commits + 1), l.keepPrevious, j);
    }
  }

  lemma CommitCounted(cfg: Config, s: RunState, i: nat, keepPrevious: bool)
    requires Inv(cfg, s) && i < |s.execs| && Counted(s.execs[i], cfg.agent.maxSteps)
    ensures Counted(DoCommit(cfg, s, i, keepPrevious).execs[i], cfg.agent.maxSteps)
  {
    var e := s.execs[i].(commits := s.execs[i].commits + 1);
    if AtCommit(e.pc) && Accepts(cfg, s.store, i, e.checkpoint.revision) {
      AcceptedIsCurrent(cfg, s, i);
      AcceptedCounted(cfg, s, i, e, keepPrevious);
    }
  }

  lemma TargetCounted(cfg: Config, s: RunState, l: Label, i: nat)
    requires Target(l) == Some(i) && !l.Commit? && i < |s.execs| && Counted(s.execs[i], cfg.agent.maxSteps)
    ensures |Step(cfg, s, l).execs| == |s.execs| && Counted(Step(cfg, s, l).execs[i], cfg.agent.maxSteps)
  {
  }

  lemma OtherCounted(cfg: Config, s: RunState, l: Label, i: nat)
    requires i < |s.execs| && Target(l) != Some(i) && Counted(s.execs[i], cfg.agent.maxSteps)
    ensures i < |Step(cfg, s, l).execs| && Counted(Step(cfg, s, l).execs[i], cfg.agent.maxSteps)
  {
    StepTouchesOne(cfg, s, l, i);
  }

  lemma ClaimedCounted(cfg: Config, s: RunState)
    requires Inv(cfg, s)
    ensures |DoClaim(cfg, s).execs| <= |s.execs| + 1
    ensures |DoClaim(cfg, s).execs| == |s.execs| + 1 ==> Counted(DoClaim(cfg, s).execs[|s.execs|], cfg.agent.maxSteps)
  {
    if IsResumable(s.store.status) {
      BeginCounted(cfg, s);
    }
  }

  lemma StepAddsNone(cfg: Config, s: RunState, l: Label)
    requires !l.Claim?
    ensures |Step(cfg, s, l).execs| == |s.execs|
  {
  }

  lemma StepCounted(cfg: Config, s: RunState, l: Label, i: nat)
    requires Inv(cfg, s) && CountInv(cfg, s) && i < |Step(cfg, s, l).execs|
    ensures Counted(Step(cfg, s, l).execs[i], cfg.agent.maxSteps)
  {
    if i < |s.execs| && Target(l) != Some(i) {
      OtherCounted(cfg, s, l, i);
    } else if l.Claim? {
      ClaimedCounted(cfg, s);
    } else {
      StepAddsNone(cfg, s, l);
      if l.Commit? {
        CommitCounted(cfg, s, i, l.keepPrevious);
      } else {
        TargetCounted(cfg, s, l, i);
      }
    }
  }

  lemma StepKeepsStart(cfg: Config, s: RunState, l: Label, i: nat)
    requires i < |s.execs|
    ensures i < |Step(cfg, s, l).execs| && Step(cfg, s, l).execs[i].start == s.execs[i].start
  {
    if l.Commit? && Target(l) == Some(i) {
      CommitKeepsStart(s, i, s.execs[i].(commits := s.execs[i].commits + 1), l.keepPrevious);
    } else if Target(l) != Some(i) {
      StepTouchesOne(cfg, s, l, i);
    }
  }

  lemma CommitKeepsStart(s: RunState, i: nat, e: Exec, keepPrevious: bool)
    requires i < |s.execs| && e.start == s.execs[i].start
    ensures |DoAccepted(s, i, e, keepPrevious).execs| == |s.execs| && DoAccepted(s, i, e, keepPrevious).execs[i].start == e.start
  {
  }

  lemma {:induction false} StartStays(cfg: Config, s: RunState, before: seq<Label>, later: seq<Label>, i: nat)
    requires i < |Execute(cfg, s, before).execs|
    ensures i < |Execute(cfg, s, before + later).execs|
    ensures Execute(cfg, s, before + later).execs[i].start == Execute(cfg, s, before).execs[i].start
  {
    if later == [] {
      assert before + later == before;
    } else {
      var front, l := later[..|later| - 1], later[|later| - 1];
      assert later == front + [l];
      StartStays(cfg, s, before, front, i);
      OneMore(cfg, s, before, front, l);
      StepKeepsStart(cfg, Execute(cfg, s, before + front), l, i);
    }
  }

  /** The handler calls an attempt has made. */
  function CallsBy(trace: seq<Invocation>, i: nat): nat {
    if trace == [] then 0
    else CallsBy(trace[..|trace| - 1], i) + (if trace[|trace| - 1].attempt == i then 1 else 0)
  }

  function CallsCounted(s: RunState, i: nat): nat {
    if i < |s.execs| then s.execs[i].calls else 0
  }

  lemma OneCallMore(trace: seq<Invocation>, call: Invocation, i: nat)
    ensures CallsBy(trace + [call], i) == CallsBy(trace, i) + (if call.attempt == i then 1 else 0)
  {
    assert (trace + [call])[..|trace|] == trace;
  }

  lemma CallCounts(cfg: Config, s: RunState, j: nat, elapsed: real, i: nat)
    requires j < |s.execs|
    ensures CallsBy(DoCall(cfg, s, j, elapsed).trace, i) - CallsBy(s.trace, i) ==
            CallsCounted(DoCall(cfg, s, j, elapsed), i) - CallsCounted(s, i)
  {
    var s' := DoCall(cfg, s, j, elapsed);
    if s'.trace != s.trace {
      OneCallMore(s.trace, s'.trace[|s.trace|], i);
    }
  }

  lemma OnlyCallsAreTraced(cfg: Config, s: RunState, l: Label)
    requires !l.Call?
    ensures Step(cfg, s, l).trace == s.trace
  {
  }

  /** Nothing but a call changes the count of an executor. */
  lemma OwnStepKeepsCalls(cfg: Config, s: RunState, l: Label, i: nat)
    requires i < |s.execs| && Target(l) == Some(i) && !l.Call? && !l.Commit?
    ensures CallsCounted(Step(cfg, s, l), i) == CallsCounted(s, i)
  {
  }

  lemma NewExecHasNoCalls(cfg: Config, s: RunState, l: Label, i: nat)
    requires i >= |s.execs|
    ensures CallsCounted(Step(cfg, s, l), i) == 0
  {
    if !l.Claim? {
      StepAddsNone(cfg, s, l);
    }
  }

  lemma StepKeepsCalls(cfg: Config, s: RunState, l: Label, i: nat)
    requires !l.Call?
    ensures CallsCounted(Step(cfg, s, l), i) == CallsCounted(s, i)
  {
    if i >= |s.execs| {
      NewExecHasNoCalls(cfg, s, l, i);
    } else if Target(l) != Some(i) {
      StepTouchesOne(cfg, s, l, i);
    } else if l.Commit? {
      CommitKeepsCalls(s, i, s.execs[i].(commits := s.execs[i].commits + 1), l.keepPrevious);
    } else {
      OwnStepKeepsCalls(cfg, s, l, i);
    }
  }

  lemma StepCounts(cfg: Config, s: RunState, l: Label, i: nat)
    requires CallsBy(s.trace, i) == CallsCounted(s, i)
    ensures CallsBy(Step(cfg, s, l).trace, i) == CallsCounted(Step(cfg, s, l), i)
  {
    if !l.Call? {
      OnlyCallsAreTraced(cfg, s, l);
      StepKeepsCalls(cfg, s, l, i);
    } else if l.i < |s.execs| {
      CallCounts(cfg, s, l.i, l.elapsed, i);
    }
  }

  lemma CommitKeepsCalls(s: RunState, i: nat, e: Exec, keepPrevious: bool)
    requires i < |s.execs| && e.calls == s.execs[i].calls
    ensures |DoAccepted(s, i, e, keepPrevious).execs| == |s.execs| && DoAccepted(s, i, e, keepPrevious).execs[i].calls == e.calls
  {
  }

  lemma {:induction false} CallsAreCounted(cfg: Config, c: Checkpoint, labels: seq<Label>, i: nat)
    ensures CallsBy(Execute(cfg, Start(c), labels).trace, i) == CallsCounted(Execute(cfg, Start(c), labels), i)
  {
    if labels != [] {
      CallsAreCounted(cfg, c, labels[..|labels| - 1], i);
      StepCounts(cfg, Execute(cfg, Start(c), labels[..|labels| - 1]), labels[|labels| - 1], i);
    }
  }

  /**
   An attempt that takes the run over when k steps are committed calls, in all of its life, at
   most `maxSteps - k` handlers and makes at most `3 * (maxSteps - k) + 1` commits.
   */
  lemma AttemptIsBounded(cfg: Config, c: Checkpoint, before: seq<Label>, later: seq<Label>)
    requires Initial(cfg, c) && IsResumable(Execute(cfg, Start(c), before).store.status)
    ensures var found := Execute(cfg, Start(c), before);
      var s := Execute(cfg, Start(c), before + [Claim] + later);
      var i, k := |found.execs|, |found.store.checkpoint.steps|;
      i < |s.execs| && CallsBy(s.trace, i) <= c.maxSteps - k && s.execs[i].commits <= 3 * (c.maxSteps - k) + 1
  {
    var i := |Execute(cfg, Start(c), before).execs|;
    assert (before + [Claim])[..|before|] == before;
    StartStays(cfg, Start(c), before + [Claim], later, i);
    ReachableCounts(cfg, c, before + [Claim] + later);
    CallsAreCounted(cfg, c, before + [Claim] + later, i);
    assert Counted(Execute(cfg, Start(c), before + [Claim] + later).execs[i], cfg.agent.maxSteps);
  }

  lemma {:induction false} ReachableCounts(cfg: Config, c: Checkpoint, labels: seq<Label>)
    requires Initial(cfg, c)
    ensures CountInv(cfg, Execute(cfg, Start(c), labels))
  {
    if labels != [] {
      var front := labels[..|labels| - 1];
      ReachableCounts(cfg, c, front);
      ReachableInv(cfg, c, front);
      var s := Execute(cfg, Start(c), front);
      var l := labels[|labels| - 1];
      forall i | 0 <= i < |Step(cfg, s, l).execs| ensures Counted(Step(cfg, s, l).execs[i], cfg.agent.maxSteps) {
        StepCounted(cfg, s, l, i);
      }
    }
  }
}
