/**
 Thread capacity (`_run_thread_with_capacity`, pkg/concurrency/manager.py): a token is
 borrowed for each job and must come back once, from the worker thread when the function
 started, from the waiter when it gave up before that.  The two decide under a lock.
 */
module ThreadCapacity {

  // ---------- one job ----------

  /** Where the awaiting caller stands; `Deciding` and `Returning` are inside its exception handler. */
  datatype Waiter = Acquiring | Waiting | Deciding | Returning | Gone

  /** Where the thread stands; `Discarded` is a queued job the thread pool dropped without calling `run`. */
  datatype Thread = NotQueued | Queued | InFunction | Finishing | Ended | Skipped | Discarded

  /** `borrowed` says whether the job ever held a token, `returned` counts the releases, `calls` the calls of the function. */
  datatype Job = Job(
    waiter: Waiter,
    thread: Thread,
    started: bool,
    cancelled: bool,
    borrowed: bool,
    returned: nat,
    calls: nat)

  const NEW_JOB: Job := Job(Acquiring, NotQueued, false, false, false, 0, 0)

  /** `run` under the lock. */
  function StartUnderLock(j: Job): Job {
    if j.cancelled then j.(thread := Skipped) else j.(started := true, thread := InFunction, calls := j.calls + 1)
  }

  /** The exception handler of the waiter under the lock. */
  function DecideUnderLock(j: Job): Job {
    if j.started then j.(waiter := Gone) else j.(cancelled := true, waiter := Returning)
  }

  // ---------- the system ----------

  /** `failed` records a release by somebody who held nothing, which the limiter answers with an exception. */
  datatype System = System(held: set<nat>, jobs: seq<Job>, loopAlive: bool, failed: bool)

  datatype Label =
    | Enter
    | Acquire(j: nat)
    | GiveUp(j: nat)             // cancelled while waiting for a token
    | Enqueue(j: nat)
    | Start(j: nat)
    | Discard(j: nat)            // the pool sees that the waiter is gone before it calls `run`
    | Leave(j: nat)              // the function returns or raises
    | ThreadRelease(j: nat)
    | Deliver(j: nat, raised: bool)
    | Interrupt(j: nat)          // the waiter is cancelled or its deadline passes
    | Decide(j: nat)
    | WaiterRelease(j: nat)
    | CloseLoop

  function Put(s: System, j: nat, job: Job): System
    requires j < |s.jobs|
  {
    s.(jobs := s.jobs[j := job])
  }

  function Release(s: System, j: nat, job: Job): System
    requires j < |s.jobs|
  {
    Put(s, j, job.(returned := job.returned + 1)).(held := s.held - {j}, failed := s.failed || j !in s.held)
  }

  function JobStep(capacity: nat, s: System, l: Label, j: nat): System
    requires j < |s.jobs|
  {
    var job := s.jobs[j];
    match l
    case Acquire(_) =>
      if s.loopAlive && job.waiter.Acquiring? && |s.held| < capacity then
        Put(s, j, job.(waiter := Waiting, borrowed := true)).(held := s.held + {j})
      else s
    case GiveUp(_) => if s.loopAlive && job.waiter.Acquiring? then Put(s, j, job.(waiter := Gone)) else s
    case Enqueue(_) =>
      if s.loopAlive && job.waiter.Waiting? && job.thread.NotQueued? then Put(s, j, job.(thread := Queued)) else s
    case Start(_) => if job.thread.Queued? then Put(s, j, StartUnderLock(job)) else s
    case Discard(_) =>
      if job.thread.Queued? && !job.waiter.Waiting? then Put(s, j, job.(thread := Discarded)) else s
    case Leave(_) => if job.thread.InFunction? then Put(s, j, job.(thread := Finishing)) else s
    case ThreadRelease(_) =>
      if !job.thread.Finishing? then s
      else if s.loopAlive then Release(s, j, job.(thread := Ended))
      else Put(s, j, job.(thread := Ended))
    case Deliver(_, raised) =>
      if s.loopAlive && job.waiter.Waiting? && job.thread in {Ended, Skipped} then
        Put(s, j, job.(waiter := if raised then Deciding else Gone))
      else s
    case Interrupt(_) => if s.loopAlive && job.waiter.Waiting? then Put(s, j, job.(waiter := Deciding)) else s
    case Decide(_) => if s.loopAlive && job.waiter.Deciding? then Put(s, j, DecideUnderLock(job)) else s
    case WaiterRelease(_) =>
      if s.loopAlive && job.waiter.Returning? then Release(s, j, job.(waiter := Gone)) else s
    case _ => s
  }

  function Step(capacity: nat, s: System, l: Label): System {
    match l
    case Enter => if s.loopAlive then s.(jobs := s.jobs + [NEW_JOB]) else s
    case CloseLoop => s.(loopAlive := false)
    case _ => if l.j < |s.jobs| then JobStep(capacity, s, l, l.j) else s
  }

  function Start0(): System {
    System({}, [], true, false)
  }

  function Execute(capacity: nat, labels: seq<Label>): System {
    if labels == [] then Start0()
    else Step(capacity, Execute(capacity, labels[..|labels| - 1]), labels[|labels| - 1])
  }

  // ---------- the invariant ----------

  /** The job by itself, given whether it holds a token and whether the loop lives. */
  predicate JobInv(job: Job, holds: bool, loopAlive: bool) {
    && (holds <==> job.borrowed && job.returned == 0)
    && job.returned <= 1
    && (job.waiter.Acquiring? ==> !job.borrowed && job.thread.NotQueued?)
    && (!job.borrowed ==> job.waiter in {Acquiring, Gone} && job.thread.NotQueued? && job.returned == 0 && !job.cancelled)
    && (job.started <==> job.thread in {InFunction, Finishing, Ended})
    && job.calls == (if job.started then 1 else 0)
    && !(job.started && job.cancelled)
    && (job.cancelled ==> job.waiter in {Returning, Gone})
    && (job.thread in {InFunction, Finishing} ==> holds)
    && (job.borrowed && !job.started && !job.cancelled ==> holds)
    && (job.thread.Skipped? ==> job.cancelled)
    && (job.waiter.Returning? ==> job.cancelled && holds)
    && (job.waiter.Gone? && job.borrowed && !job.started ==> job.cancelled && !holds)
    && (job.thread.Discarded? ==> !job.waiter.Waiting?)
    && (loopAlive && job.thread.Ended? ==> !holds)
  }

  predicate Inv(capacity: nat, s: System) {
    && |s.held| <= capacity
    && !s.failed
    && (forall j :: j in s.held ==> j < |s.jobs|)
    && (forall j :: 0 <= j < |s.jobs| ==> JobInv(s.jobs[j], j in s.held, s.loopAlive))
  }

  lemma JobStepInv(capacity: nat, s: System, l: Label, j: nat)
    requires j < |s.jobs| && JobInv(s.jobs[j], j in s.held, s.loopAlive)
    ensures var s' := JobStep(capacity, s, l, j);
      j < |s'.jobs| && JobInv(s'.jobs[j], j in s'.held, s.loopAlive) && s'.failed == s.failed
  {
  }

  lemma JobStepFrame(capacity: nat, s: System, l: Label, j: nat)
    requires j < |s.jobs| && |s.held| <= capacity
    ensures var s' := JobStep(capacity, s, l, j);
      && |s'.jobs| == |s.jobs| && s'.loopAlive == s.loopAlive
      && |s'.held| <= capacity
      && (forall i :: i != j ==> (i in s'.held <==> i in s.held))
      && (forall i :: 0 <= i < |s.jobs| && i != j ==> s'.jobs[i] == s.jobs[i])
  {
    CardinalityFacts(s.held, j);
  }

  lemma CardinalityFacts(held: set<nat>, j: nat)
    ensures |held - {j}| <= |held| && |held + {j}| <= |held| + 1
  {
    if j in held {
      assert held + {j} == held;
      assert (held - {j}) + {j} == held;
    } else {
      assert held - {j} == held;
    }
  }

  lemma StepInv(capacity: nat, s: System, l: Label)
    requires Inv(capacity, s)
    ensures Inv(capacity, Step(capacity, s, l))
  {
    if !l.Enter? && !l.CloseLoop? && l.j < |s.jobs| {
      JobStepInv(capacity, s, l, l.j);
      JobStepFrame(capacity, s, l, l.j);
    }
  }

  lemma {:induction false} ReachableInv(capacity: nat, labels: seq<Label>)
    ensures Inv(capacity, Execute(capacity, labels))
  {
    if labels != [] {
      ReachableInv(capacity, labels[..|labels| - 1]);
      StepInv(capacity, Execute(capacity, labels[..|labels| - 1]), labels[|labels| - 1]);
    }
  }

  // ---------- theorems ----------

  function InFunctionJobs(s: System): set<nat> {
    set j | 0 <= j < |s.jobs| && s.jobs[j].thread.InFunction?
  }

  /** Running functions never exceed held tokens, and held tokens never exceed the capacity. */
  lemma RunningWithinCapacity(capacity: nat, labels: seq<Label>)
    ensures var s := Execute(capacity, labels);
      InFunctionJobs(s) <= s.held && |InFunctionJobs(s)| <= |s.held| <= capacity
  {
    ReachableInv(capacity, labels);
    var s := Execute(capacity, labels);
    forall j | j in InFunctionJobs(s) ensures j in s.held {
      assert JobInv(s.jobs[j], j in s.held, s.loopAlive);
    }
    SubsetSize(InFunctionJobs(s), s.held);
  }

  lemma {:induction false} SubsetSize(a: set<nat>, b: set<nat>)
    requires a <= b
    ensures |a| <= |b|
    decreases a
  {
    if a != {} {
      var x :| x in a;
      SubsetSize(a - {x}, b - {x});
    }
  }

  /** Nothing is left to happen for the job: the caller has its answer and the thread is done with it. */
  predicate Over(job: Job) {
    job.waiter.Gone? && job.thread !in {Queued, InFunction, Finishing}
  }

  /**
   A token never comes back twice, nobody returns a token it does not hold, and while the
   event loop lives a job that is over has returned the token it borrowed.
   */
  lemma TokensReturnedOnce(capacity: nat, labels: seq<Label>, j: nat)
    requires j < |Execute(capacity, labels).jobs|
    ensures var s := Execute(capacity, labels);
      && !s.failed
      && s.jobs[j].returned <= (if s.jobs[j].borrowed then 1 else 0)
      && (j in s.held <==> s.jobs[j].borrowed && s.jobs[j].returned == 0)
      && (s.loopAlive && Over(s.jobs[j]) && s.jobs[j].borrowed ==> s.jobs[j].returned == 1)
  {
    ReachableInv(capacity, labels);
    assert JobInv(Execute(capacity, labels).jobs[j], j in Execute(capacity, labels).held, Execute(capacity, labels).loopAlive);
  }

  lemma OneMore(capacity: nat, labels: seq<Label>, l: Label)
    ensures Execute(capacity, labels + [l]) == Step(capacity, Execute(capacity, labels), l)
  {
    assert (labels + [l])[..|labels|] == labels;
  }

  /** The job after its caller gave up: the token is back, or the function has started and keeps it. */
  predicate GivenUp(s: System, j: nat, thread: Thread) {
    && j < |s.jobs|
    && s.loopAlive
    && (if s.jobs[j].started then s.jobs[j].thread == thread else s.jobs[j].returned == 1)
  }

  lemma GiveUpSteps(capacity: nat, s: System, j: nat)
    requires j < |s.jobs| && s.loopAlive && JobInv(s.jobs[j], true, true)
    ensures GivenUp(Step(capacity, Step(capacity, Step(capacity, s, Interrupt(j)), Decide(j)), WaiterRelease(j)), j, s.jobs[j].thread)
  {
    var s1 := Step(capacity, s, Interrupt(j));
    assert |s1.jobs| == |s.jobs| && s1.loopAlive && s1.jobs[j].waiter in {Deciding, Returning, Gone};
    var s2 := Step(capacity, s1, Decide(j));
    assert |s2.jobs| == |s.jobs| && s2.loopAlive;
    assert if s2.jobs[j].started then s2.jobs[j].thread == s.jobs[j].thread else s2.jobs[j].waiter.Returning? && s2.jobs[j].returned == 0;
  }

  /** The caller gives up: afterwards either its token is back, or the function is running and keeps it. */
  lemma WaiterGivesUp(capacity: nat, before: seq<Label>, j: nat)
    requires j < |Execute(capacity, before).jobs| && j in Execute(capacity, before).held && Execute(capacity, before).loopAlive
    ensures GivenUp(Execute(capacity, before + [Interrupt(j)] + [Decide(j)] + [WaiterRelease(j)]), j,
                    Execute(capacity, before).jobs[j].thread)
  {
    ReachableInv(capacity, before);
    var s := Execute(capacity, before);
    assert JobInv(s.jobs[j], true, true);
    GiveUpSteps(capacity, s, j);
    OneMore(capacity, before, Interrupt(j));
    OneMore(capacity, before + [Interrupt(j)], Decide(j));
    OneMore(capacity, before + [Interrupt(j)] + [Decide(j)], WaiterRelease(j));
  }

  /** No token is lost: from any state of a live loop, a held token comes back once its caller gives up and its function ends. */
  lemma HeldTokenCanReturn(capacity: nat, before: seq<Label>, j: nat)
    requires j < |Execute(capacity, before).jobs| && j in Execute(capacity, before).held && Execute(capacity, before).loopAlive
    ensures var s := Execute(capacity, before + [Interrupt(j)] + [Decide(j)] + [WaiterRelease(j)] + [Leave(j)] + [ThreadRelease(j)]);
      j < |s.jobs| && s.jobs[j].returned == 1 && j !in s.held
  {
    var middle := before + [Interrupt(j)] + [Decide(j)] + [WaiterRelease(j)];
    WaiterGivesUp(capacity, before, j);
    ReachableInv(capacity, before);
    ReachableInv(capacity, middle);
    ReachableInv(capacity, middle + [Leave(j)] + [ThreadRelease(j)]);
    OneMore(capacity, middle, Leave(j));
    OneMore(capacity, middle + [Leave(j)], ThreadRelease(j));
    var s := Execute(capacity, middle);
    assert JobInv(s.jobs[j], j in s.held, true);
    assert JobInv(Execute(capacity, before).jobs[j], true, true);
    var s' := Execute(capacity, middle + [Leave(j)] + [ThreadRelease(j)]);
    assert JobInv(s'.jobs[j], j in s'.held, s'.loopAlive);
  }

  lemma CancelledStays(capacity: nat, s: System, l: Label, j: nat)
    requires j < |s.jobs| && s.jobs[j].cancelled
    ensures j < |Step(capacity, s, l).jobs| && Step(capacity, s, l).jobs[j].cancelled
  {
  }

  lemma {:induction false} CancelledForever(capacity: nat, before: seq<Label>, later: seq<Label>, j: nat)
    requires j < |Execute(capacity, before).jobs| && Execute(capacity, before).jobs[j].cancelled
    ensures j < |Execute(capacity, before + later).jobs| && Execute(capacity, before + later).jobs[j].cancelled
  {
    if later == [] {
      assert before + later == before;
    } else {
      var front := later[..|later| - 1];
      CancelledForever(capacity, before, front, j);
      assert (before + later)[..|before + later| - 1] == before + front;
      CancelledStays(capacity, Execute(capacity, before + front), later[|later| - 1], j);
    }
  }

  /** A job cancelled before it started never runs: its function is never called, however the run goes on. */
  lemma CancelledNeverRuns(capacity: nat, before: seq<Label>, later: seq<Label>, j: nat)
    requires j < |Execute(capacity, before).jobs| && Execute(capacity, before).jobs[j].cancelled
    ensures j < |Execute(capacity, before + later).jobs| && Execute(capacity, before + later).jobs[j].calls == 0
  {
    CancelledForever(capacity, before, later, j);
    ReachableInv(capacity, before + later);
    var s := Execute(capacity, before + later);
    assert JobInv(s.jobs[j], j in s.held, s.loopAlive);
  }

  // ---------- the shared variables of one job ----------

  datatype Side = TheThread | TheWaiter
  datatype Owner = Nobody | Returns(side: Side)

  /**
   The state the two closures share; every method is one section under the lock.  The side
   whose section comes first has to return the token, and the other side finds that out.
   */
  class JobState {
    var started: bool
    var cancelledBeforeStart: bool

    constructor ()
      ensures Valid() && Owner() == Nobody
    {
      started, cancelledBeforeStart := false, false;
    }

    predicate Valid()
      reads this
    {
      !(started && cancelledBeforeStart)
    }

    /** Who has to return the token. */
    function Owner(): Owner
      reads this
    {
      if started then Returns(TheThread) else if cancelledBeforeStart then Returns(TheWaiter) else Nobody
    }

    predicate Represents(job: Job)
      reads this
    {
      started == job.started && cancelledBeforeStart == job.cancelled
    }

    method TryStart(ghost job: Job) returns (run: bool)
      requires Valid() && Represents(job) && job.thread.Queued?
      modifies this
      ensures Valid() && Owner() == if old(Owner()) == Nobody then Returns(TheThread) else old(Owner())
      ensures run <==> Owner() == Returns(TheThread)
      ensures Represents(StartUnderLock(job)) && (run <==> StartUnderLock(job).thread.InFunction?)
    {
      if cancelledBeforeStart {
        return false;
      }
      started := true;
      return true;
    }

    method TryCancel(ghost job: Job) returns (releaseCapacity: bool)
      requires Valid() && Represents(job) && job.waiter.Deciding?
      modifies this
      ensures Valid() && Owner() == if old(Owner()) == Nobody then Returns(TheWaiter) else old(Owner())
      ensures releaseCapacity <==> Owner() == Returns(TheWaiter)
      ensures Represents(DecideUnderLock(job)) && (releaseCapacity <==> DecideUnderLock(job).waiter.Returning?)
    {
      releaseCapacity := !started;
      if releaseCapacity {
        cancelledBeforeStart := true;
      }
    }
  }
}
