/**
 The managed loop as it is written (`_drive`, `_commit_final`, `_control_stop_reason`,
 pkg/agents/react.py), and that it takes no step the state machine does not have: what is
 proved of every run of the machine holds of the loop.
 */
module ReactDrive {
  import opened Prelude
  import opened AgentState
  import opened AgentActions
  import opened PlainRun
  import opened ManagedRun
  import opened ManagedTheorems

  // ---------- runs of the machine ----------

  ghost predicate Reaches(cfg: Config, s: RunState, s': RunState) {
    exists labels :: Execute(cfg, s, labels) == s'
  }

  lemma {:induction false} ExecuteAppend(cfg: Config, s: RunState, a: seq<Label>, b: seq<Label>)
    ensures Execute(cfg, s, a + b) == Execute(cfg, Execute(cfg, s, a), b)
  {
    if b == [] {
      assert a + b == a;
    } else {
      var front := b[..|b| - 1];
      ExecuteAppend(cfg, s, a, front);
      assert (a + b)[..|a + b| - 1] == a + front;
    }
  }

  lemma ReachesItself(cfg: Config, s: RunState)
    ensures Reaches(cfg, s, s)
  {
    assert Execute(cfg, s, []) == s;
  }

  lemma ReachesTransitive(cfg: Config, a: RunState, b: RunState, c: RunState)
    requires Reaches(cfg, a, b) && Reaches(cfg, b, c)
    ensures Reaches(cfg, a, c)
  {
    var first :| Execute(cfg, a, first) == b;
    var second :| Execute(cfg, b, second) == c;
    ExecuteAppend(cfg, a, first, second);
  }

  lemma ReachesStep(cfg: Config, a: RunState, b: RunState, l: Label)
    requires Reaches(cfg, a, b)
    ensures Reaches(cfg, a, Step(cfg, b, l))
  {
    var labels :| Execute(cfg, a, labels) == b;
    assert (labels + [l])[..|labels|] == labels;
    assert Execute(cfg, a, labels + [l]) == Step(cfg, b, l);
  }

  /** The steps that are not this executor's. */
  function Except(labels: seq<Label>, token: nat): seq<Label> {
    if labels == [] then [] else
    var last := labels[|labels| - 1];
    Except(labels[..|labels| - 1], token) + (if Target(last) == Some(token) then [] else [last])
  }

  lemma {:induction false} OthersLeave(cfg: Config, s: RunState, labels: seq<Label>, token: nat)
    requires token < |s.execs|
    ensures var s' := Execute(cfg, s, Except(labels, token)); token < |s'.execs| && s'.execs[token] == s.execs[token]
  {
    if labels != [] {
      var front, last := labels[..|labels| - 1], labels[|labels| - 1];
      OthersLeave(cfg, s, front, token);
      if Target(last) != Some(token) {
        var kept := Except(front, token);
        assert (kept + [last])[..|kept|] == kept;
        StepTouchesOne(cfg, Execute(cfg, s, kept), last, token);
      } else {
        assert Except(front, token) + [] == Except(front, token);
      }
    }
  }

  /** As long as the executor holds the lease, the interrupt somebody requested is still to be answered. */
  predicate InterruptStands(s: RunState, token: nat) {
    s.store.lease == Some(token) ==> s.store.status == InterruptRequested
  }

  lemma StepKeepsInterrupt(cfg: Config, s: RunState, l: Label, token: nat)
    requires token < |s.execs| && InterruptStands(s, token)
    ensures token < |Step(cfg, s, l).execs| && InterruptStands(Step(cfg, s, l), token)
  {
    if l.Commit? && l.i < |s.execs| {
      CommitKeepsInterrupt(s, l.i, s.execs[l.i].(commits := s.execs[l.i].commits + 1), l.keepPrevious, token);
    }
  }

  lemma CommitKeepsInterrupt(s: RunState, i: nat, e: Exec, keepPrevious: bool, token: nat)
    requires i < |s.execs| && token < |s.execs| && InterruptStands(s, token)
    ensures |DoAccepted(s, i, e, keepPrevious).execs| == |s.execs| && InterruptStands(DoAccepted(s, i, e, keepPrevious), token)
  {
  }

  lemma {:induction false} InterruptKept(cfg: Config, s: RunState, labels: seq<Label>, token: nat)
    requires token < |s.execs| && InterruptStands(s, token)
    ensures token < |Execute(cfg, s, labels).execs| && InterruptStands(Execute(cfg, s, labels), token)
  {
    if labels != [] {
      InterruptKept(cfg, s, labels[..|labels| - 1], token);
      StepKeepsInterrupt(cfg, Execute(cfg, s, labels[..|labels| - 1]), labels[|labels| - 1], token);
    }
  }

  /** The control state tells the holder of the lease to pause. */
  predicate MustPause(store: Store, token: nat, leaseFresh: bool) {
    leaseFresh && store.lease == Some(token) && store.status == InterruptRequested
  }

  /** This snapshot is stored again under the next revision; a store that checks leases is paused at it. */
  predicate PausedOn(cfg: Config, store: Store, snapshot: Checkpoint) {
    && store.checkpoint == NextRevision(snapshot)
    && (cfg.fenced ==> store.status == Interrupted && store.lease.None?)
  }

  // ---------- the runtime an executor talks to ----------

  /** The answer to a commit; an exception when it was rejected. */
  datatype Reply = Go(checkpoint: Checkpoint) | PausedAt(checkpoint: Checkpoint) | Rejected

  /** The run as the executors share it; `others` is what happens elsewhere during each await. */
  class RunHost {
    const cfg: Config
    const others: nat -> seq<Label>
    var run: RunState
    var awaits: nat

    /** An await, during which everybody else may act. */
    method Await(token: nat)
      requires token < |run.execs|
      modifies this
      ensures Reaches(cfg, old(run), run)
      ensures token < |run.execs| && run.execs[token] == old(run.execs[token])
      ensures InterruptStands(old(run), token) ==> InterruptStands(run, token)
    {
      OthersLeave(cfg, run, others(awaits), token);
      if InterruptStands(run, token) {
        InterruptKept(cfg, run, Except(others(awaits), token), token);
      }
      run, awaits := Execute(cfg, run, Except(others(awaits), token)), awaits + 1;
    }

    /** An executor takes the run over, or finds it is not to be had. */
    method Claim() returns (claimed: bool, token: nat, stored: Checkpoint)
      modifies this
      ensures Reaches(cfg, old(run), run)
      ensures claimed ==> token < |run.execs| && run.store.checkpoint == stored
      ensures claimed ==> run.execs[token] == if SafeToRun(cfg, token, stored) then Begin(stored) else StoppedExec(stored)
    {
      run, awaits := Execute(cfg, run, others(awaits)), awaits + 1;
      token, stored, claimed := |run.execs|, run.store.checkpoint, IsResumable(run.store.status);
      ReachesStep(cfg, old(run), run, Label.Claim);
      run := Step(cfg, run, Label.Claim);
    }

    /** A step of this executor after an await. */
    method Act(token: nat, l: Label) returns (ghost before: RunState)
      requires token < |run.execs|
      modifies this
      ensures Reaches(cfg, old(run), before) && Reaches(cfg, old(run), run) && run == Step(cfg, before, l)
      ensures token < |before.execs| && before.execs[token] == old(run.execs[token])
      ensures InterruptStands(old(run), token) ==> InterruptStands(before, token)
    {
      Await(token);
      before := run;
      ReachesStep(cfg, old(run), run, l);
      run := Step(cfg, run, l);
    }

    /** The executor raises. */
    method Abort(token: nat)
      requires token < |run.execs|
      modifies this
      ensures Reaches(cfg, old(run), run) && Ended(run, token)
    {
      ghost var before := Act(token, Crash(token));
    }

    /** A commit; whether it is accepted is decided against the store as it then is. */
    method Commit(token: nat, keepPrevious: bool) returns (accepted: bool, paused: bool, ghost before: RunState)
      requires token < |run.execs| && AtCommit(run.execs[token].pc)
      modifies this
      ensures Reaches(cfg, old(run), run)
      ensures token < |before.execs| && before.execs[token] == old(run.execs[token])
      ensures InterruptStands(old(run), token) ==> InterruptStands(before, token)
      ensures accepted == Accepts(cfg, before.store, token, old(run.execs[token]).checkpoint.revision)
      ensures paused == (before.store.status == InterruptRequested)
      ensures run == DoCommit(cfg, before, token, keepPrevious)
    {
      Await(token);
      before := run;
      accepted := Accepts(cfg, run.store, token, run.execs[token].checkpoint.revision);
      paused := run.store.status == InterruptRequested;
      ReachesStep(cfg, old(run), run, Label.Commit(token, keepPrevious));
      run := DoCommit(cfg, run, token, keepPrevious);
    }

    /** `commit_checkpoint` with a tool action that is about to be executed. */
    method CommitAction(token: nat, candidate: Checkpoint, call: Fields, action: Action,
                        keepPrevious: bool) returns (reply: Reply)
      requires token < |run.execs| && run.execs[token].pc == Pc.CommitAction(action)
      requires SerializeAction(action, OkOrNone(StableToolCallId(run.execs[token].checkpoint.runId, run.execs[token].index))) == Ok(call)
      requires candidate == ToBeforeTool(run.execs[token].checkpoint, call)
      modifies this
      ensures Reaches(cfg, old(run), run) && token < |run.execs|
      ensures reply.Go? ==> reply.checkpoint == candidate
      ensures reply.Go? ==> Same(run.execs[token], old(run.execs[token]), Pc.CommitInFlight, candidate, Some(action))
      ensures !reply.Go? ==> Ended(run, token)
      ensures reply.PausedAt? ==> run.store.status == Interrupted && run.store.checkpoint == reply.checkpoint
    {
      var accepted, paused, before := Commit(token, keepPrevious);
      if !accepted || !NamesTool(action) {
        return Rejected;
      }
      return if paused then PausedAt(run.store.checkpoint) else Go(run.store.checkpoint);
    }

    /** `commit_checkpoint` that marks the tool as in flight. */
    method CommitInFlight(token: nat, candidate: Checkpoint, keepPrevious: bool) returns (reply: Reply)
      requires token < |run.execs| && run.execs[token].pc == Pc.CommitInFlight
      requires candidate == ToInFlight(run.execs[token].checkpoint)
      modifies this
      ensures Reaches(cfg, old(run), run) && token < |run.execs|
      ensures reply.Go? ==> reply.checkpoint == candidate
      ensures reply.Go? ==>
                Same(run.execs[token], old(run.execs[token]), CallTool, candidate, old(run.execs[token]).pending)
      ensures !reply.Go? ==> Ended(run, token)
      ensures reply.PausedAt? ==> run.store.status == Interrupted && run.store.checkpoint == reply.checkpoint
    {
      var accepted, paused, before := Commit(token, keepPrevious);
      if !accepted {
        return Rejected;
      }
      return if paused then PausedAt(run.store.checkpoint) else Go(run.store.checkpoint);
    }

    /** `commit_step`. */
    method CommitStep(token: nat, step: StepRecord, candidate: Checkpoint) returns (reply: Reply)
      requires token < |run.execs| && run.execs[token].pc == CommitToolStep(step)
      requires candidate == ToBeforeAction(run.execs[token].checkpoint, run.execs[token].index + 1)
      modifies this
      ensures Reaches(cfg, old(run), run) && token < |run.execs|
      ensures reply.Go? ==>
                var e := run.execs[token];
                && reply.checkpoint == e.checkpoint && Ok(e.checkpoint) == WithStep(candidate.runId, candidate, step)
                && e.index == old(run.execs[token]).index + 1 && e.steps == old(run.execs[token]).steps && e.pending == None
                && e.pc == LoopHead(e.index, e.checkpoint.maxSteps, BeforeAction)
      ensures !reply.Go? ==> Ended(run, token)
      ensures reply.PausedAt? ==> run.store.status == Interrupted && run.store.checkpoint == reply.checkpoint
    {
      var accepted, paused, before := Commit(token, false);
      if !accepted || WithStep(candidate.runId, candidate, step).Err? {
        return Rejected;
      }
      return if paused then PausedAt(run.store.checkpoint) else Go(run.store.checkpoint);
    }

    /** `commit_terminal`; `candidate` is what a pause would keep. */
    method CommitTerminal(token: nat, candidate: Checkpoint, result: RunResult) returns (reply: Reply)
      requires token < |run.execs|
      requires CommitsTerminal(run.execs[token], candidate, result)
      modifies this
      ensures Reaches(cfg, old(run), run) && Ended(run, token)
      ensures reply.Go? ==> IsTerminal(run.store.status) && run.store.result == Some(result) && run.store.checkpoint == reply.checkpoint
      ensures reply.PausedAt? ==> run.store.status == Interrupted && run.store.checkpoint == reply.checkpoint == candidate
    {
      var accepted, paused, before := Commit(token, false);
      if !accepted || WithSteps(candidate.runId, candidate, result.steps).Err? {
        return Rejected;
      }
      return if paused then PausedAt(run.store.checkpoint) else Go(run.store.checkpoint);
    }

    /**
     `_control_stop_reason`; `reading` is the run whose control state was loaded.  The attempt
     goes on exactly when that state does not tell it to stop.  When it tells the holder of the
     lease to pause, the checkpoint of a later `loading` is committed again, and the run is
     paused at it, unless the store does not check leases and others have taken the run over.
     */
    method CheckControl(token: nat, leaseFresh: bool)
      returns (answer: ControlAnswer, ghost reading: RunState, ghost loading: RunState)
      requires token < |run.execs| && run.execs[token].pc == ReadControl
      modifies this
      ensures Reaches(cfg, old(run), reading) && Reaches(cfg, old(run), run) && token < |run.execs|
      ensures answer == Proceed <==> !ShouldStop(reading.store.status, leaseFresh && reading.store.lease == Some(token))
      ensures answer == Proceed ==> run.execs[token] == old(run.execs[token]).(pc := AskModel)
      ensures answer != Proceed ==> Ended(run, token)
      ensures answer != Proceed && !MustPause(reading.store, token, leaseFresh) ==> answer == StopHere && run.store == reading.store
      ensures answer == StopHere && MustPause(reading.store, token, leaseFresh) ==>
                Reaches(cfg, reading, loading) && PausedOn(cfg, run.store, loading.store.checkpoint)
    {
      reading := Act(token, Read(token, leaseFresh));
      loading := reading;
      if run.execs[token].pc == AskModel {
        return Proceed, reading, loading;
      }
      if run.execs[token].pc != LoadSnapshot {
        return StopHere, reading, loading;
      }
      ghost var owned := run;
      ReachesItself(cfg, reading);
      ReachesStep(cfg, reading, reading, Read(token, leaseFresh));
      var accepted;
      accepted, loading := PauseHere(token);
      ReachesTransitive(cfg, old(run), owned, run);
      ReachesTransitive(cfg, reading, owned, loading);
      return if accepted then StopHere else ControlError, reading, loading;
    }

    /** The rest of `_control_stop_reason` for a requested interrupt: load the checkpoint, commit it again. */
    method PauseHere(token: nat) returns (accepted: bool, ghost loading: RunState)
      requires token < |run.execs| && run.execs[token].pc == LoadSnapshot && InterruptStands(run, token)
      modifies this
      ensures Reaches(cfg, old(run), loading) && Reaches(cfg, old(run), run) && Ended(run, token)
      ensures accepted ==> PausedOn(cfg, run.store, loading.store.checkpoint)
    {
      loading := Act(token, Load(token));
      ghost var loaded := run;
      var paused;
      ghost var before;
      accepted, paused, before := Commit(token, false);
      ReachesTransitive(cfg, old(run), loaded, run);
    }

    /** The action maker answers. */
    method Choose(token: nat, action: Action, elapsed: real)
      requires token < |run.execs| && run.execs[token].pc == AskModel
      modifies this
      ensures Reaches(cfg, old(run), run) && token < |run.execs|
      ensures run.execs[token] == Chosen(old(run.execs[token]), action, elapsed)
    {
      ghost var before := Act(token, Label.Choose(token, action, elapsed));
    }

    /** `_execute_tool_call`: the call is refused, or the handler runs and others go on meanwhile. */
    method ExecuteTool(token: nat, toolCallId: string, handler: (string, Fields) -> HandlerOutcome, elapsed: real)
      returns (observed: Option<(Value, Option<string>)>)
      requires token < |run.execs| && ReadyToCall(run.execs[token]) && toolCallId == ToolCallId(run.execs[token])
      modifies this
      ensures Reaches(cfg, old(run), run) && token < |run.execs|
      ensures observed ==
        match RequestTool(cfg.agent, old(run.execs[token]).pending.value, toolCallId)
        case Refuse(reason) => Captured(cfg.agent, reason)
        case Invoke(tool, args) => Observe(cfg.agent, handler(tool, args))
      ensures observed.None? ==> Ended(run, token)
      ensures observed.Some? ==>
        var e := old(run.execs[token]);
        var step := ToolStep(e.index, e.pending.value, observed.value, elapsed);
        At(run, token, CommitToolStep(step), e.checkpoint, e.steps + [step], e.index, e.pending)
    {
      var request := RequestTool(cfg.agent, run.execs[token].pending.value, toolCallId);
      ghost var before := Act(token, Call(token, elapsed));
      if request.Refuse? {
        return Captured(cfg.agent, request.reason);
      }
      ghost var calling := run;
      var outcome := handler(request.tool, request.args);
      before := Act(token, Return(token, outcome, elapsed));
      ReachesTransitive(cfg, old(run), calling, run);
      return Observe(cfg.agent, outcome);
    }
  }

  datatype ControlAnswer = Proceed | StopHere | ControlError

  predicate ReadyToCall(e: Exec) {
    e.pc == CallTool && e.pending.Some? && e.pending.value.ToolCall? && e.checkpoint.pendingAction.Some?
  }

  /** The place and the data of an executor, without its counters. */
  predicate At(run: RunState, token: nat, pc: Pc, checkpoint: Checkpoint, steps: seq<StepRecord>, index: nat,
               pending: Option<Action>) {
    && token < |run.execs|
    && var e := run.execs[token];
       e.pc == pc && e.checkpoint == checkpoint && e.steps == steps && e.index == index && e.pending == pending
  }

  /** The first attempt runs the checkpoint of its own run; later ones are assessed. */
  predicate SafeToRun(cfg: Config, token: nat, stored: Checkpoint) {
    if token == 0 then stored.runId == cfg.runId else AssessResume(cfg.agent, stored).Resume?
  }

  predicate Ended(run: RunState, token: nat) {
    token < |run.execs| && run.execs[token].pc.Stopped?
  }

  /** The executor moved on to this place with this checkpoint and pending action. */
  predicate Same(e: Exec, before: Exec, pc: Pc, checkpoint: Checkpoint, pending: Option<Action>) {
    e.pc == pc && e.checkpoint == checkpoint && e.pending == pending && e.steps == before.steps && e.index == before.index
  }

  predicate CommitsTerminal(e: Exec, candidate: Checkpoint, result: RunResult) {
    match e.pc
    case CommitFinal(answer, isNew) =>
      && candidate == (if isNew then ToFinalReady(e.checkpoint, answer) else e.checkpoint)
      && result == RunResult(RunStatus.RunCompleted, Some(answer), e.steps)
    case CommitMaxSteps =>
      && candidate == ToBeforeAction(e.checkpoint, e.index)
      && result == RunResult(RunMaxStepsReached, None, e.steps)
    case _ => false
  }

  // ---------- the loop ----------

  datatype DriveEvent =
    | StepEvent(step: StepRecord)
    | CompletedEvent(result: RunResult)
    | InterruptedEvent(checkpoint: Checkpoint)

  datatype DriveEnd = EndedWith(result: RunResult) | PausedWith(checkpoint: Checkpoint) | Errored

  /** What the outside world supplies, await by await. */
  datatype Surroundings = Surroundings(
    maker: (nat, seq<StepRecord>) -> Action,
    handler: (nat, string, Fields) -> HandlerOutcome,
    elapsed: nat -> real,
    leaseFresh: nat -> bool,
    keepPrevious: nat -> bool)

  /** A finished run is what the store holds, and a paused one reports the stored checkpoint. */
  predicate EndsWell(run: RunState, token: nat, end: DriveEnd) {
    && Ended(run, token)
    && (end.EndedWith? ==> IsTerminal(run.store.status) && run.store.result == Some(end.result))
    && (end.PausedWith? ==> run.store.checkpoint == end.checkpoint)
  }

  function DoneEvents(steps: seq<StepRecord>): (r: seq<DriveEvent>)
    ensures |r| == |steps|
  {
    seq(|steps|, i requires 0 <= i < |steps| => StepEvent(steps[i]))
  }

  function EndEvent(end: DriveEnd): seq<DriveEvent> {
    match end
    case EndedWith(result) => [CompletedEvent(result)]
    case PausedWith(checkpoint) => [InterruptedEvent(checkpoint)]
    case Errored => []
  }

  function EndOf(reply: Reply, result: RunResult): DriveEnd {
    match reply
    case Go(_) => EndedWith(result)
    case PausedAt(checkpoint) => PausedWith(checkpoint)
    case Rejected => Errored
  }

  datatype NextAction = RunTool(checkpoint: Checkpoint, action: Action) | Quit(end: DriveEnd)

  /** The chosen tool action is stored, and the executor is about to mark it as in flight. */
  predicate Persisted(run: RunState, token: nat, before: Checkpoint, steps: seq<StepRecord>, index: nat,
                      next: NextAction)
    requires next.RunTool?
  {
    && next.action.ToolCall?
    && next.checkpoint.pendingAction.Some?
    && next.checkpoint.maxSteps == before.maxSteps
    && At(run, token, Pc.CommitInFlight, next.checkpoint, steps, index, Some(next.action))
  }

  /** The `before_action` part of an iteration: look at the control state, ask for an action, persist it. */
  method ChooseNext(host: RunHost, token: nat, state: AgentRunState, checkpoint: Checkpoint, index: nat,
                    world: Surroundings)
    returns (next: NextAction)
    requires At(host.run, token, ReadControl, checkpoint, state.steps, index, None)
    modifies host, state
    ensures Reaches(host.cfg, old(host.run), host.run)
    ensures next.RunTool? ==> state.steps == old(state.steps) && Persisted(host.run, token, checkpoint, state.steps, index, next)
    ensures next.Quit? ==> EndsWell(host.run, token, next.end)
    ensures old(state.steps) <= state.steps
  {
    ghost var s0 := host.run;
    ReachesItself(host.cfg, s0);
    var control, reading, loading := host.CheckControl(token, world.leaseFresh(index));
    if control == ControlError {
      return Quit(Errored);
    }
    if control == StopHere {
      ghost var s1 := host.run;
      host.Await(token);
      ReachesTransitive(host.cfg, s0, s1, host.run);
      state.status := RunStatus.RunInterrupted;
      return Quit(PausedWith(host.run.store.checkpoint));
    }
    ghost var s1 := host.run;
    var action := world.maker(index, state.steps);
    host.Choose(token, action, world.elapsed(index));
    ReachesTransitive(host.cfg, s0, s1, host.run);
    if action.Final? {
      ghost var s2 := host.run;
      var end := FinishWith(host, token, state, checkpoint, index, action.answer, world.elapsed(index));
      ReachesTransitive(host.cfg, s0, s2, host.run);
      return Quit(end);
    }
    ghost var s2 := host.run;
    next := PersistAction(host, token, state, checkpoint, index, action, world.keepPrevious(index));
    ReachesTransitive(host.cfg, s0, s2, host.run);
  }

  /** A new final answer: the step is recorded, and the terminal commit decides the end. */
  method FinishWith(host: RunHost, token: nat, state: AgentRunState, checkpoint: Checkpoint, index: nat,
                    answer: string, elapsed: real)
    returns (end: DriveEnd)
    requires At(host.run, token, CommitFinal(answer, true), checkpoint, state.steps + [FinalStep(index, answer, elapsed)], index, None)
    modifies host, state
    ensures Reaches(host.cfg, old(host.run), host.run)
    ensures EndsWell(host.run, token, end)
    ensures state.steps == old(state.steps) + [FinalStep(index, answer, elapsed)]
  {
    state.steps := state.steps + [FinalStep(index, answer, elapsed)];
    state.finalAnswer := Some(answer);
    state.status := RunStatus.RunCompleted;
    var reply := host.CommitTerminal(token, ToFinalReady(checkpoint, answer), state.Result());
    return EndOf(reply, state.Result());
  }

  method PersistAction(host: RunHost, token: nat, state: AgentRunState, checkpoint: Checkpoint, index: nat,
                       action: Action, keepPrevious: bool)
    returns (next: NextAction)
    requires action.ToolCall? && At(host.run, token, Pc.CommitAction(action), checkpoint, state.steps, index, None)
    modifies host, state`status
    ensures Reaches(host.cfg, old(host.run), host.run)
    ensures next.RunTool? ==> next.action == action && Persisted(host.run, token, checkpoint, state.steps, index, next)
    ensures next.Quit? ==> EndsWell(host.run, token, next.end)
  {
    var call := SerializeAction(action, OkOrNone(StableToolCallId(checkpoint.runId, index)));
    if call.Err? {
      host.Abort(token);
      return Quit(Errored);
    }
    var reply := host.CommitAction(token, ToBeforeTool(checkpoint, call.value), call.value, action, keepPrevious);
    if reply.Go? {
      return RunTool(reply.checkpoint, action);
    }
    state.status := RunStatus.RunInterrupted;
    return Quit(EndOf(reply, state.Result()));
  }

  datatype ToolProgress = StepCommitted(checkpoint: Checkpoint) | Left(end: DriveEnd)

  /** The rest of an iteration: mark the tool as in flight unless it is, execute it, commit its step. */
  method RunPendingTool(host: RunHost, token: nat, state: AgentRunState, checkpoint: Checkpoint, index: nat,
                        action: Action,
                        inFlight: bool, world: Surroundings)
    returns (progress: ToolProgress)
    requires action.ToolCall? && checkpoint.pendingAction.Some?
    requires At(host.run, token, if inFlight then CallTool else Pc.CommitInFlight, checkpoint, state.steps, index, Some(action))
    modifies host, state
    ensures Reaches(host.cfg, old(host.run), host.run)
    ensures old(state.steps) <= state.steps
    ensures progress.StepCommitted? ==> |state.steps| == |old(state.steps)| + 1
    ensures progress.StepCommitted? ==>
              AtHead(host.run, token, checkpoint.maxSteps, progress.checkpoint, state.steps, index + 1)
    ensures progress.Left? ==> EndsWell(host.run, token, progress.end)
  {
    ghost var s0 := host.run;
    ReachesItself(host.cfg, s0);
    var marked := checkpoint;
    if !inFlight {
      var reply := host.CommitInFlight(token, ToInFlight(checkpoint), world.keepPrevious(index));
      if !reply.Go? {
        state.status := RunStatus.RunInterrupted;
        return Left(EndOf(reply, state.Result()));
      }
      marked := reply.checkpoint;
    }
    ghost var s1 := host.run;
    progress := ExecuteAndCommit(host, token, state, marked, index, action, world);
    ReachesTransitive(host.cfg, s0, s1, host.run);
  }

  method ExecuteAndCommit(host: RunHost, token: nat, state: AgentRunState, checkpoint: Checkpoint, index: nat,
                          action: Action, world: Surroundings)
    returns (progress: ToolProgress)
    requires action.ToolCall? && checkpoint.pendingAction.Some?
    requires At(host.run, token, CallTool, checkpoint, state.steps, index, Some(action))
    modifies host, state
    ensures Reaches(host.cfg, old(host.run), host.run)
    ensures old(state.steps) <= state.steps
    ensures progress.StepCommitted? ==> |state.steps| == |old(state.steps)| + 1
    ensures progress.StepCommitted? ==>
              AtHead(host.run, token, checkpoint.maxSteps, progress.checkpoint, state.steps, index + 1)
    ensures progress.Left? ==> EndsWell(host.run, token, progress.end)
  {
    var id := ActionToolCallId(checkpoint.pendingAction.value, checkpoint.runId, index);
    var toolCallId := if id.Ok? then id.value else "";
    var observed := host.ExecuteTool(token, toolCallId, (tool, args) => world.handler(index, tool, args), world.elapsed(index));
    if observed.None? {
      return Left(Errored);
    }
    var step := ToolStep(index, action, observed.value, world.elapsed(index));
    state.steps := state.steps + [step];
    ghost var s1 := host.run;
    var reply := host.CommitStep(token, step, ToBeforeAction(checkpoint, index + 1));
    ReachesTransitive(host.cfg, old(host.run), s1, host.run);
    if reply.Go? {
      return StepCommitted(reply.checkpoint);
    }
    state.status := RunStatus.RunInterrupted;
    return Left(EndOf(reply, state.Result()));
  }

  /** The head of the loop before a new action. */
  predicate AtHead(run: RunState, token: nat, maxSteps: int, checkpoint: Checkpoint, steps: seq<StepRecord>,
                   index: nat) {
    checkpoint.maxSteps == maxSteps && At(run, token, LoopHead(index, maxSteps, BeforeAction), checkpoint, steps, index, None)
  }

  lemma {:induction false} RecordsKeepLength(steps: seq<CheckpointStep>)
    requires ToRecords(steps).Ok?
    ensures |ToRecords(steps).value| == |steps|
  {
    if steps != [] {
      RecordsKeepLength(steps[..|steps| - 1]);
    }
  }

  /** One iteration of the loop, from whichever phase the snapshot is in. */
  method Iterate(host: RunHost, token: nat, state: AgentRunState, checkpoint: Checkpoint, index: nat, phase: Phase,
                 pending: Option<Action>, world: Surroundings)
    returns (progress: ToolProgress)
    requires index < checkpoint.maxSteps
    requires phase.BeforeAction? <==> pending.None?
    requires pending.Some? ==> (phase.BeforeTool? || phase.ToolInFlight?) && pending.value.ToolCall? && checkpoint.pendingAction.Some?
    requires At(host.run, token, LoopHead(index, checkpoint.maxSteps, phase), checkpoint, state.steps, index, pending)
    modifies host, state
    ensures Reaches(host.cfg, old(host.run), host.run)
    ensures old(state.steps) <= state.steps
    ensures progress.StepCommitted? ==> |state.steps| == |old(state.steps)| + 1
    ensures progress.StepCommitted? ==>
              AtHead(host.run, token, checkpoint.maxSteps, progress.checkpoint, state.steps, index + 1)
    ensures progress.Left? ==> EndsWell(host.run, token, progress.end)
  {
    if pending.Some? {
      progress := RunPendingTool(host, token, state, checkpoint, index, pending.value, phase.ToolInFlight?, world);
      return;
    }
    var next := ChooseNext(host, token, state, checkpoint, index, world);
    if next.Quit? {
      return Left(next.end);
    }
    ghost var s1 := host.run;
    progress := RunPendingTool(host, token, state, next.checkpoint, index, next.action, false, world);
    ReachesTransitive(host.cfg, old(host.run), s1, host.run);
  }

  /**
   `_drive` for a resumed or newly started attempt.  Whatever the model, the tools and the
   other executors do, the attempt stays within the machine; it ends having reported one
   event for each step it added; and it reports completion only of the result the store holds.
   */
  method Drive(host: RunHost, token: nat, state: AgentRunState, stored: Checkpoint, world: Surroundings)
    returns (end: DriveEnd, events: seq<DriveEvent>)
    requires ToRecords(stored.steps) == Ok(state.steps)
    requires token < |host.run.execs| && host.run.execs[token] == Begin(stored)
    modifies host, state
    ensures Reaches(host.cfg, old(host.run), host.run)
    ensures EndsWell(host.run, token, end)
    ensures old(state.steps) <= state.steps
    ensures !end.Errored? ==> events == DoneEvents(state.steps[|old(state.steps)|..]) + EndEvent(end)
  {
    ghost var s0 := host.run;
    ReachesItself(host.cfg, s0);
    RecordsKeepLength(stored.steps);
    events := [];
    var n := |state.steps|;
    var pending: Option<Action> := None;
    if stored.phase.BeforeTool? || stored.phase.ToolInFlight? {
      var restored := if stored.pendingAction.Some? then ParseAction(stored.pendingAction.value) else Err(InvalidAction);
      if restored.Err? || !restored.value.ToolCall? {
        return Errored, events;
      }
      pending := Some(restored.value);
    }
    if stored.phase.FinalReady? {
      end := ResumeFinal(host, token, state, stored);
      return end, if end.Errored? then [] else DoneEvents(state.steps[n..]) + EndEvent(end);
    }
    var phase := if stored.phase.Routing? then BeforeAction else stored.phase;
    end, events := DriveLoop(host, token, state, stored, phase, pending, world);
  }

  /** A stored final answer is committed without asking the model again. */
  method ResumeFinal(host: RunHost, token: nat, state: AgentRunState, stored: Checkpoint) returns (end: DriveEnd)
    requires stored.phase.FinalReady? && ToRecords(stored.steps) == Ok(state.steps)
    requires token < |host.run.execs| && host.run.execs[token] == Begin(stored)
    modifies host, state
    ensures Reaches(host.cfg, old(host.run), host.run)
    ensures EndsWell(host.run, token, end)
    ensures |state.steps| == |old(state.steps)| + 1 && old(state.steps) <= state.steps
  {
    RecordsKeepLength(stored.steps);
    var answer := if stored.finalAnswer.Some? then stored.finalAnswer.value else "";
    state.steps := state.steps + [FinalStep(|state.steps|, answer, 0.0)];
    state.finalAnswer := Some(answer);
    state.status := RunStatus.RunCompleted;
    var reply := host.CommitTerminal(token, stored, state.Result());
    return EndOf(reply, state.Result());
  }

  method DriveLoop(host: RunHost, token: nat, state: AgentRunState, stored: Checkpoint, firstPhase: Phase,
                   restored: Option<Action>, world: Surroundings)
    returns (end: DriveEnd, events: seq<DriveEvent>)
    requires firstPhase.BeforeAction? <==> restored.None?
    requires restored.Some? ==> (firstPhase.BeforeTool? || firstPhase.ToolInFlight?) && restored.value.ToolCall?
    requires restored.Some? ==> stored.pendingAction.Some?
    requires At(host.run, token, LoopHead(|state.steps|, stored.maxSteps, firstPhase), stored, state.steps, |state.steps|, restored)
    modifies host, state
    ensures Reaches(host.cfg, old(host.run), host.run)
    ensures EndsWell(host.run, token, end)
    ensures old(state.steps) <= state.steps
    ensures !end.Errored? ==> events == DoneEvents(state.steps[|old(state.steps)|..]) + EndEvent(end)
  {
    ghost var s0, before := host.run, state.steps;
    ReachesItself(host.cfg, s0);
    var n := |state.steps|;
    var maxSteps, index, phase, pending, checkpoint := stored.maxSteps, n, firstPhase, restored, stored;
    events := [];
    while index < maxSteps
      invariant Reaches(host.cfg, s0, host.run)
      invariant phase.BeforeAction? <==> pending.None?
      invariant pending.Some? ==> (phase.BeforeTool? || phase.ToolInFlight?) && pending.value.ToolCall? && checkpoint.pendingAction.Some?
      invariant checkpoint.maxSteps == maxSteps
      invariant At(host.run, token, LoopHead(index, maxSteps, phase), checkpoint, state.steps, index, pending)
      invariant before <= state.steps
      invariant events == DoneEvents(state.steps[n..])
      decreases maxSteps - index
    {
      ghost var s1, steps1 := host.run, state.steps;
      var count := |state.steps|;
      var progress := Iterate(host, token, state, checkpoint, index, phase, pending, world);
      ReachesTransitive(host.cfg, s0, s1, host.run);
      MoreEvents(before, steps1, state.steps);
      if progress.Left? && progress.end.Errored? {
        return progress.end, events;
      }
      events := events + DoneEvents(state.steps[count..]);
      if progress.Left? {
        return progress.end, events + EndEvent(progress.end);
      }
      checkpoint, index, phase, pending := progress.checkpoint, index + 1, BeforeAction, None;
    }
    ghost var s1 := host.run;
    state.status := RunStatus.RunMaxStepsReached;
    var result := RunResult(RunStatus.RunMaxStepsReached, None, state.steps);
    var reply := host.CommitTerminal(token, ToBeforeAction(checkpoint, index), result);
    ReachesTransitive(host.cfg, s0, s1, host.run);
    end := EndOf(reply, result);
    return end, events + EndEvent(end);
  }

  lemma MoreEvents(before: seq<StepRecord>, middle: seq<StepRecord>, after: seq<StepRecord>)
    requires before <= middle <= after
    ensures DoneEvents(middle[|before|..]) + DoneEvents(after[|middle|..]) == DoneEvents(after[|before|..])
  {
  }

  /**
   A whole attempt (`run_events`, `resume_events`): take the run over, assess its snapshot,
   restore the state, drive it.  Nothing is assumed of the run it finds.
   */
  method RunAttempt(host: RunHost, world: Surroundings) returns (claimed: bool, token: nat, end: DriveEnd, events: seq<DriveEvent>)
    modifies host
    ensures Reaches(host.cfg, old(host.run), host.run)
    ensures claimed ==> EndsWell(host.run, token, end)
    ensures !claimed ==> end.Errored? && events == []
  {
    var stored;
    claimed, token, stored := host.Claim();
    end, events := Errored, [];
    if claimed {
      var records := ToRecords(stored.steps);
      if SafeToRun(host.cfg, token, stored) && records.Ok? {
        ghost var begun := host.run;
        var state := new AgentRunState();
        state.steps := records.value;
        end, events := Drive(host, token, state, stored, world);
        ReachesTransitive(host.cfg, old(host.run), begun, host.run);
      }
    }
  }

  /** A run that the loop drove on from a run of the machine is a run of the machine. */
  lemma DrivenRunsAreRuns(cfg: Config, c: Checkpoint, labels: seq<Label>, after: RunState)
    requires Reaches(cfg, Execute(cfg, Start(c), labels), after)
    ensures exists all :: Execute(cfg, Start(c), all) == after
  {
    var more :| Execute(cfg, Execute(cfg, Start(c), labels), more) == after;
    ExecuteAppend(cfg, Start(c), labels, more);
  }
}
