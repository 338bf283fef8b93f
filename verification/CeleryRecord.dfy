/**
 One Celery task record and the compare-and-set statements that change it
 (internal/dao/celery_task.py, internal/models/celery_task.py).  Times are whole seconds;
 every statement reads the clock for itself, and nothing assumes the readings agree.
 */
module CeleryRecord {
  import opened Prelude

  datatype Status = Submitting | Queued | Running | Cancelling | Orphaned | Succeeded | Failed | Cancelled

  datatype ErrorCode =
    | BrokerPublishFailed
    | PublishConfirmationTimeout
    | QueueStartTimeout
    | WorkerLostOrTimeout
    | CancelDeadlineExceeded
    | TaskExecutionFailed

  /** The columns of the uniqueness constraint. */
  datatype TaskKey = TaskKey(scope: string, taskName: string, keyHash: string)

  datatype Record = Record(
    key: TaskKey,
    queue: string,
    payloadHash: string,
    status: Status,
    cancelAllowed: bool,
    executionToken: Option<string>,
    attemptCount: int,
    queuedDeadlineAt: Option<int>,
    hardDeadlineAt: Option<int>,
    fenceExpiresAt: Option<int>,
    startedAt: Option<int>,
    finishedAt: Option<int>,
    errorCode: Option<ErrorCode>,
    updatedAt: int)

  predicate IsTerminal(status: Status) {
    status in {Succeeded, Failed, Cancelled}
  }

  function NewRecord(key: TaskKey, queue: string, payloadHash: string, now: int): Record {
    Record(key, queue, payloadHash, Submitting, true, None, 0, None, None, None, None, None, None, now)
  }

  // ---------- statements ----------

  datatype Op =
    | MarkQueued(scope: string, startTimeout: int)
    | MarkDispatchFailed(scope: string)
    | Claim(taskName: string, scope: string, token: string, hardDeadline: int)
    | Finish(token: string, status: Status, code: Option<ErrorCode>)
    | Acknowledge(token: string)
    | RequestCancellation(scope: string)
    | Disallow(token: string)
    | FailStaleSubmitting(stale: int)
    | FailExpiredQueued
    | ReconcileExecution(fence: int)
    | ResolveOrphaned(scope: string, status: Status, code: Option<ErrorCode>)

  /** The statuses two statements may be asked to write; others raise before any statement is sent. */
  predicate WellFormed(op: Op) {
    && (op.Finish? ==> op.status in {Succeeded, Failed})
    && (op.ResolveOrphaned? ==> op.status in {Failed, Cancelled})
  }

  /** SQL's `deadline <= :now`, which no null deadline satisfies. */
  predicate Due(deadline: Option<int>, now: int) {
    deadline.Some? && deadline.value <= now
  }

  /** What a statement writes to a row; None when its `where` clause does not select the row. */
  function Apply(r: Record, op: Op, now: int): Option<Record> {
    match op
    case MarkQueued(scope, startTimeout) =>
      if r.key.scope == scope && r.status == Submitting then
        Some(r.(status := Queued, queuedDeadlineAt := Some(now + startTimeout), updatedAt := now))
      else None
    case MarkDispatchFailed(scope) =>
      if r.key.scope == scope && r.status == Submitting then
        Some(r.(status := Failed, errorCode := Some(BrokerPublishFailed), finishedAt := Some(now), updatedAt := now))
      else None
    case Claim(taskName, scope, token, hardDeadline) =>
      if r.key.taskName == taskName && r.key.scope == scope && r.status in {Submitting, Queued} then
        Some(r.(status := Running, cancelAllowed := true, executionToken := Some(token),
                attemptCount := r.attemptCount + 1,
                startedAt := if r.startedAt.Some? then r.startedAt else Some(now),
                hardDeadlineAt := Some(now + hardDeadline), errorCode := None, updatedAt := now))
      else None
    case Finish(token, status, code) =>
      if r.status == Running && r.executionToken == Some(token) then
        Some(r.(status := status, errorCode := code, finishedAt := Some(now), updatedAt := now))
      else None
    case Acknowledge(token) =>
      if r.status == Cancelling && r.executionToken == Some(token) then
        Some(r.(status := Cancelled, finishedAt := Some(now), updatedAt := now))
      else None
    case RequestCancellation(scope) =>
      if r.key.scope != scope then None else Some(Cancel(r, now))
    case Disallow(token) =>
      if r.status == Running && r.executionToken == Some(token) && r.cancelAllowed then
        Some(r.(cancelAllowed := false, updatedAt := now))
      else None
    case FailStaleSubmitting(stale) =>
      if r.status == Submitting && r.updatedAt < now - stale then
        Some(r.(status := Failed, errorCode := Some(PublishConfirmationTimeout), finishedAt := Some(now), updatedAt := now))
      else None
    case FailExpiredQueued =>
      if r.status == Queued && Due(r.queuedDeadlineAt, now) then
        Some(r.(status := Failed, errorCode := Some(QueueStartTimeout), finishedAt := Some(now), updatedAt := now))
      else None
    case ReconcileExecution(fence) =>
      if r.status in {Running, Cancelling} && Due(r.hardDeadlineAt, now) then
        Some(r.(status := Orphaned,
                errorCode := Some(if r.status == Cancelling then CancelDeadlineExceeded else WorkerLostOrTimeout),
                fenceExpiresAt := Some(now + fence), updatedAt := now))
      else None
    case ResolveOrphaned(scope, status, code) =>
      if r.key.scope == scope && r.status == Orphaned && Due(r.fenceExpiresAt, now) then
        Some(r.(status := status, finishedAt := Some(now), updatedAt := now,
                errorCode := if code.Some? then code else r.errorCode))
      else None
  }

  /** The body of `request_cancellation` on the locked row. */
  function Cancel(r: Record, now: int): Record {
    match r.status
    case Submitting => r.(status := Cancelled, finishedAt := Some(now), updatedAt := now)
    case Queued => r.(status := Cancelled, finishedAt := Some(now), updatedAt := now)
    case Running => if r.cancelAllowed then r.(status := Cancelling, updatedAt := now) else r
    case _ => r
  }

  // ---------- what one record always satisfies ----------

  /** The durations a deployment fixes: timeout plus grace for each task, and the orphan fence. */
  datatype Limits = Limits(execution: string -> int, fence: int)

  predicate Within(limits: Limits, op: Op) {
    && WellFormed(op)
    && (op.Claim? ==> op.hardDeadline == limits.execution(op.taskName))
    && (op.ReconcileExecution? ==> op.fence == limits.fence)
  }

  predicate Before(a: Option<int>, gap: int, b: Option<int>) {
    a.Some? && b.Some? && a.value + gap <= b.value
  }

  predicate RecordInv(limits: Limits, r: Record) {
    && (r.finishedAt.Some? <==> IsTerminal(r.status))
    && r.attemptCount == (if r.executionToken.Some? then 1 else 0)
    && (r.status in {Submitting, Queued} ==> r.executionToken.None?)
    && (r.status in {Running, Cancelling, Orphaned, Succeeded} ==> r.executionToken.Some?)
    && (r.executionToken.None? ==> r.startedAt.None? && r.hardDeadlineAt.None?)
    && (r.executionToken.Some? ==>
          r.startedAt.Some? && r.hardDeadlineAt == Some(r.startedAt.value + limits.execution(r.key.taskName)))
    && (r.status == Orphaned ==> r.fenceExpiresAt.Some?)
    && (r.fenceExpiresAt.Some? ==>
          && r.status in {Orphaned, Failed, Cancelled}
          && Before(r.hardDeadlineAt, limits.fence, r.fenceExpiresAt)
          && (r.finishedAt.Some? ==> Before(r.fenceExpiresAt, 0, r.finishedAt)))
  }

  lemma NewRecordInv(limits: Limits, key: TaskKey, queue: string, payloadHash: string, now: int)
    ensures RecordInv(limits, NewRecord(key, queue, payloadHash, now))
  {
  }

  lemma ApplyKeepsInv(limits: Limits, r: Record, op: Op, now: int)
    requires RecordInv(limits, r) && Within(limits, op) && Apply(r, op, now).Some?
    ensures RecordInv(limits, Apply(r, op, now).value)
  {
  }

  /** An orphan is resolved no earlier than its claim plus timeout, grace and fence, whatever the clocks read. */
  lemma OrphanResolvedLate(limits: Limits, r: Record)
    requires RecordInv(limits, r) && r.fenceExpiresAt.Some? && IsTerminal(r.status)
    ensures Before(r.startedAt, limits.execution(r.key.taskName) + limits.fence, r.finishedAt)
  {
  }

  // ---------- deadlines ----------

  /**
   Each deadline is exactly what the statement that set it says: a submission goes stale
   after its period, a queued record expires after its start timeout, a claimed one after
   its hard deadline, and an orphan can be resolved once its fence has passed.
   */
  lemma DeadlinesAreExact(r: Record, now: int, later: int, period: int, token: string, status: Status,
                          code: Option<ErrorCode>)
    requires r.status == Submitting
    ensures Apply(r.(updatedAt := now), FailStaleSubmitting(period), later).Some? <==> now + period < later
    ensures var queued := Apply(r, MarkQueued(r.key.scope, period), now);
      queued.Some? && (Apply(queued.value, FailExpiredQueued, later).Some? <==> now + period <= later)
    ensures var claimed := Apply(r, Claim(r.key.taskName, r.key.scope, token, period), now);
      claimed.Some? && claimed.value.cancelAllowed && claimed.value.errorCode.None?
      && (Apply(claimed.value, ReconcileExecution(0), later).Some? <==> now + period <= later)
    ensures r.hardDeadlineAt == Some(now) ==>
      var orphan := Apply(r.(status := Running), ReconcileExecution(period), now);
      orphan.Some? && (Apply(orphan.value, ResolveOrphaned(r.key.scope, status, code), later).Some? <==> now + period <= later)
  {
  }

  // ---------- error codes ----------

  /** The codes of records that failed before any worker started. */
  predicate IsEarlyCode(code: Option<ErrorCode>) {
    code in {Some(BrokerPublishFailed), Some(PublishConfirmationTimeout), Some(QueueStartTimeout)}
  }

  predicate CodeInv(r: Record) {
    IsEarlyCode(r.errorCode) ==> r.attemptCount == 0
  }

  predicate WritesEarlyCode(op: Op) {
    (op.Finish? || op.ResolveOrphaned?) && IsEarlyCode(op.code)
  }

  /**
   A publish or queue-timeout code means no worker ever started.  A statement keeps this
   exactly when it is not a worker or an operator writing such a code itself.
   */
  lemma EarlyCodeMeansUnclaimed(limits: Limits, r: Record, op: Op, now: int)
    requires RecordInv(limits, r) && CodeInv(r) && Apply(r, op, now).Some?
    ensures CodeInv(Apply(r, op, now).value) <==> !WritesEarlyCode(op)
  {
  }

  // ---------- how a record may change ----------

  /** Every status change raises this rank. */
  function Rank(status: Status): nat {
    match status
    case Submitting => 0
    case Queued => 1
    case Running => 2
    case Cancelling => 3
    case Orphaned => 4
    case _ => 5
  }

  /** No execution of the record will be recorded as a success. */
  predicate CannotSucceed(r: Record) {
    r.status in {Cancelling, Orphaned, Failed, Cancelled}
  }

  /** A worker has closed the cancellation gate. */
  predicate GateClosed(r: Record) {
    && !r.cancelAllowed
    && r.status in {Running, Orphaned, Succeeded, Failed, Cancelled}
    && r.executionToken.Some?
    && (r.status == Cancelled ==> r.fenceExpiresAt.Some?)
  }

  /** What stays true of a record from any moment to any later one. */
  predicate Later(before: Record, after: Record) {
    && after.key == before.key && after.payloadHash == before.payloadHash && after.queue == before.queue
    && (after.status != before.status ==> Rank(before.status) < Rank(after.status))
    && (IsTerminal(before.status) ==> after == before)
    && (before.executionToken.Some? ==> after.executionToken == before.executionToken)
    && before.attemptCount <= after.attemptCount
    && (before.fenceExpiresAt.Some? ==> after.fenceExpiresAt == before.fenceExpiresAt)
    && (CannotSucceed(before) ==> CannotSucceed(after))
    && (GateClosed(before) ==> GateClosed(after))
  }

  lemma ApplyIsLater(limits: Limits, r: Record, op: Op, now: int)
    requires RecordInv(limits, r) && WellFormed(op) && Apply(r, op, now).Some?
    ensures Later(r, Apply(r, op, now).value)
  {
  }

  lemma LaterTransitive(a: Record, b: Record, c: Record)
    requires Later(a, b) && Later(b, c)
    ensures Later(a, c)
  {
  }

  // ---------- what the holder of a token can rely on ----------

  predicate CarriesToken(op: Op, token: string) {
    (op.Claim? || op.Finish? || op.Acknowledge? || op.Disallow?) && op.token == token
  }

  /** The record is being executed under this token, or was taken away from it as an orphan. */
  predicate Held(r: Record, token: string) {
    && r.executionToken == Some(token)
    && (r.status in {Running, Cancelling} || r.fenceExpiresAt.Some?)
  }

  /** Statements that do not carry the token take a held record away only by orphaning it. */
  lemma HeldByOthers(limits: Limits, r: Record, op: Op, now: int, token: string)
    requires RecordInv(limits, r) && Held(r, token) && WellFormed(op) && !CarriesToken(op, token)
    requires Apply(r, op, now).Some?
    ensures Held(Apply(r, op, now).value, token)
    ensures r.status == Cancelling ==> Apply(r, op, now).value.status == Cancelling || Apply(r, op, now).value.fenceExpiresAt.Some?
  {
  }

  lemma TokenNotForged(r: Record, op: Op, now: int, token: string)
    requires r.executionToken != Some(token) && !CarriesToken(op, token) && Apply(r, op, now).Some?
    ensures Apply(r, op, now).value.executionToken != Some(token)
  {
  }
}
