/**
 The table of task records as its data access object changes it, the service on top, and
 the worker program (internal/dao/celery_task.py, internal/services/celery_task.py,
 internal/tasks/celery_idempotency_demo.py).  Between two transactions of one caller any
 transactions of others may run.
 */
module CeleryTasks {
  import opened Prelude
  import opened CeleryRecord
  import opened CeleryProtocol

  // ---------- transactions of others ----------

  datatype Transaction =
    | Reserve(id: nat, key: TaskKey, queue: string, payloadHash: string, now: int)
    | Statement(id: nat, op: Op, now: int)

  /** A token is known to the worker that drew it and to nobody else. */
  predicate Possible(limits: Limits, t: Transaction, mine: Option<string>) {
    t.Statement? ==> Within(limits, t.op) && (mine.Some? ==> !CarriesToken(t.op, mine.value))
  }

  function After(limits: Limits, rows: Table, t: Transaction, mine: Option<string>): Table {
    if !Possible(limits, t, mine) then rows else
    match t
    case Reserve(id, key, queue, payloadHash, now) =>
      if id in rows || KeyTaken(rows, key) then rows else rows[id := NewRecord(key, queue, payloadHash, now)]
    case Statement(id, op, now) => Updated(rows, id, op, now)
  }

  function AfterAll(limits: Limits, rows: Table, ts: seq<Transaction>, mine: Option<string>): Table {
    if ts == [] then rows
    else After(limits, AfterAll(limits, rows, ts[..|ts| - 1], mine), ts[|ts| - 1], mine)
  }

  predicate Sound(limits: Limits, rows: Table) {
    RowsInv(limits, rows) && UniqueKeys(rows)
  }

  /** What others cannot do to the record a worker holds. */
  predicate KeptFor(token: string, before: Table, after: Table) {
    && (forall id :: id in before && Held(before[id], token) ==>
          && id in after && Held(after[id], token)
          && (before[id].status != Running ==> after[id].status != Running))
    && (forall id :: id in after && after[id].executionToken == Some(token) ==>
          id in before && before[id].executionToken == Some(token))
  }

  predicate EvolvedApart(limits: Limits, mine: Option<string>, before: Table, after: Table) {
    && Sound(limits, after)
    && RowsLater(before, after)
    && (mine.Some? ==> KeptFor(mine.value, before, after))
  }

  lemma ReserveEvolves(limits: Limits, rows: Table, id: nat, r: Record, mine: Option<string>)
    requires Sound(limits, rows) && id !in rows && !KeyTaken(rows, r.key) && RecordInv(limits, r) && r.executionToken.None?
    ensures EvolvedApart(limits, mine, rows, rows[id := r])
  {
    assert forall i :: i in rows ==> rows[id := r][i] == rows[i];
  }

  lemma StatementEvolves(limits: Limits, rows: Table, id: nat, op: Op, now: int, mine: Option<string>)
    requires Sound(limits, rows) && Possible(limits, Statement(id, op, now), mine) && Changes(rows, id, op, now)
    ensures EvolvedApart(limits, mine, rows, Updated(rows, id, op, now))
  {
    UpdatedForward(limits, rows, id, op, now);
    KeysKept(rows, Updated(rows, id, op, now));
    if mine.Some? {
      StatementKept(limits, rows[id], op, now, mine.value);
      assert forall i :: i in rows && i != id ==> Updated(rows, id, op, now)[i] == rows[i];
    }
  }

  lemma AfterEvolves(limits: Limits, rows: Table, t: Transaction, mine: Option<string>)
    requires Sound(limits, rows)
    ensures EvolvedApart(limits, mine, rows, After(limits, rows, t, mine))
  {
    if t.Reserve? && t.id !in rows && !KeyTaken(rows, t.key) {
      NewRecordInv(limits, t.key, t.queue, t.payloadHash, t.now);
      ReserveEvolves(limits, rows, t.id, NewRecord(t.key, t.queue, t.payloadHash, t.now), mine);
    } else if t.Statement? && Possible(limits, t, mine) && Changes(rows, t.id, t.op, t.now) {
      StatementEvolves(limits, rows, t.id, t.op, t.now, mine);
    }
  }

  lemma StatementKept(limits: Limits, r: Record, op: Op, now: int, token: string)
    requires RecordInv(limits, r) && WellFormed(op) && !CarriesToken(op, token) && Apply(r, op, now).Some?
    ensures var after := Apply(r, op, now).value;
      && (Held(r, token) ==> Held(after, token) && (r.status != Running ==> after.status != Running))
      && (after.executionToken == Some(token) ==> r.executionToken == Some(token))
  {
    if Held(r, token) {
      HeldByOthers(limits, r, op, now, token);
    }
    if r.executionToken != Some(token) {
      TokenNotForged(r, op, now, token);
    }
  }

  lemma EvolvedTransitive(limits: Limits, mine: Option<string>, a: Table, b: Table, c: Table)
    requires EvolvedApart(limits, mine, a, b) && EvolvedApart(limits, mine, b, c)
    ensures EvolvedApart(limits, mine, a, c)
  {
    RowsLaterTransitive(a, b, c);
  }

  lemma {:induction false} AfterAllEvolves(limits: Limits, rows: Table, ts: seq<Transaction>, mine: Option<string>)
    requires Sound(limits, rows)
    ensures EvolvedApart(limits, mine, rows, AfterAll(limits, rows, ts, mine))
  {
    if ts != [] {
      var front := AfterAll(limits, rows, ts[..|ts| - 1], mine);
      AfterAllEvolves(limits, rows, ts[..|ts| - 1], mine);
      AfterEvolves(limits, front, ts[|ts| - 1], mine);
      EvolvedTransitive(limits, mine, rows, front, AfterAll(limits, rows, ts, mine));
    }
  }

  // ---------- what a statement leaves to others ----------

  /** No statement of anybody changes the record again. */
  ghost predicate Frozen(rows: Table, id: nat) {
    id in rows && forall op, later :: WellFormed(op) ==> Updated(rows, id, op, later) == rows
  }

  lemma TerminalIsFrozen(rows: Table, id: nat)
    requires id in rows && IsTerminal(rows[id].status)
    ensures Frozen(rows, id)
  {
  }

  /** No delivery can claim the record. */
  ghost predicate Taken(rows: Table, id: nat) {
    forall op: Op, later :: op.Claim? ==> !Changes(rows, id, op, later)
  }

  /** The reconcilers can take the record away from the given second on, and not before. */
  ghost predicate ExpiresAt(rows: Table, id: nat, op: Op, deadline: int) {
    forall later :: Changes(rows, id, op, later) <==> deadline <= later
  }

  /** No request to cancel changes anything. */
  ghost predicate CancelRefused(rows: Table, id: nat) {
    forall scope, later :: Updated(rows, id, RequestCancellation(scope), later) == rows
  }

  /** One transaction by any statement the limits allow. */
  lemma ServiceStep(limits: Limits, rows: Table, id: nat, op: Op, now: int)
    requires Sound(limits, rows) && Within(limits, op)
    ensures Sound(limits, Updated(rows, id, op, now)) && RowsLater(rows, Updated(rows, id, op, now))
  {
    UpdatedForward(limits, rows, id, op, now);
    KeysKept(rows, Updated(rows, id, op, now));
  }

  lemma QueuedOutcome(limits: Limits, rows: Table, id: nat, scope: string, startTimeout: int, now: int)
    requires Sound(limits, rows)
    ensures var after := Updated(rows, id, MarkQueued(scope, startTimeout), now);
      && Sound(limits, after) && RowsLater(rows, after)
      && (id in rows && rows[id].key.scope == scope && rows[id].status == Submitting ==>
            ExpiresAt(after, id, FailExpiredQueued, now + startTimeout))
  {
    ServiceStep(limits, rows, id, MarkQueued(scope, startTimeout), now);
  }

  lemma GateOutcome(limits: Limits, rows: Table, id: nat, token: string, now: int)
    requires Sound(limits, rows) && id in rows && rows[id].status == Running && rows[id].executionToken == Some(token)
    ensures var after := Updated(rows, id, Disallow(token), now);
      && Held(after[id], token) && GateClosed(after[id]) && CancelRefused(after, id)
      && (!rows[id].cancelAllowed ==> after == rows)
  {
  }

  lemma ResolvedOutcome(limits: Limits, rows: Table, id: nat, op: Op, now: int)
    requires Sound(limits, rows) && Within(limits, op) && op.ResolveOrphaned? && Changes(rows, id, op, now)
    ensures var after := Updated(rows, id, op, now);
      && Frozen(after, id)
      && Before(after[id].startedAt, limits.execution(after[id].key.taskName) + limits.fence, after[id].finishedAt)
  {
    ServiceStep(limits, rows, id, op, now);
    var after := Updated(rows, id, op, now);
    TerminalIsFrozen(after, id);
    OrphanResolvedLate(limits, after[id]);
  }

  // ---------- batches of the reconcilers ----------

  predicate IsReconciler(op: Op) {
    op.FailStaleSubmitting? || op.FailExpiredQueued? || op.ReconcileExecution?
  }

  /** The column a reconciler orders its candidates by. */
  function SortColumn(r: Record, op: Op): int {
    var deadline :=
      match op
      case FailStaleSubmitting(_) => Some(r.updatedAt)
      case FailExpiredQueued => r.queuedDeadlineAt
      case _ => r.hardDeadlineAt;
    if deadline.Some? then deadline.value else 0
  }

  predicate Earlier(rows: Table, op: Op, a: nat, b: nat) {
    && a in rows
    && b in rows
    && (SortColumn(rows[a], op) < SortColumn(rows[b], op) || (SortColumn(rows[a], op) == SortColumn(rows[b], op) && a < b))
  }

  lemma EarlierTransitive(rows: Table, op: Op, a: nat, b: nat, c: nat)
    requires Earlier(rows, op, a, b) && Earlier(rows, op, b, c)
    ensures Earlier(rows, op, a, c)
  {
  }

  /** The rows a reconciler takes: due, not locked by others, and the first `batchSize` of those, in order. */
  predicate IsBatch(rows: Table, op: Op, now: int, batchSize: nat, locked: set<nat>, ids: seq<nat>) {
    && |ids| <= batchSize
    && (forall k :: 0 <= k < |ids| ==> Changes(rows, ids[k], op, now) && ids[k] !in locked)
    && (forall j, k :: 0 <= j < k < |ids| ==> Earlier(rows, op, ids[j], ids[k]))
    && (forall id | id in rows && Changes(rows, id, op, now) && id !in locked && id !in ids ::
          |ids| == batchSize && forall k :: 0 <= k < |ids| ==> Earlier(rows, op, ids[k], id))
  }

  function AfterBatch(rows: Table, op: Op, now: int, ids: seq<nat>): Table {
    map id | id in rows :: if id in ids && Changes(rows, id, op, now) then Apply(rows[id], op, now).value else rows[id]
  }

  lemma AfterBatchNext(rows: Table, op: Op, now: int, ids: seq<nat>, id: nat)
    requires id !in ids && Changes(rows, id, op, now)
    ensures Updated(AfterBatch(rows, op, now, ids), id, op, now) == AfterBatch(rows, op, now, ids + [id])
  {
    assert AfterBatch(rows, op, now, ids)[id] == rows[id];
  }

  datatype DaoError = UnsupportedStatus

  /** `CeleryTaskDao`: each method is one transaction. */
  class CeleryTaskDao {
    const limits: Limits
    const elsewhere: nat -> seq<Transaction>
    var rows: Table
    var awaits: nat

    constructor (limits: Limits, elsewhere: nat -> seq<Transaction>)
      ensures this.limits == limits && rows == map[]
    {
      this.limits, this.elsewhere, rows, awaits := limits, elsewhere, map[], 0;
    }

    /** The caller waits, and others get their turn. */
    method Await(mine: Option<string>)
      requires Sound(limits, rows)
      modifies this
      ensures EvolvedApart(limits, mine, old(rows), rows)
    {
      AfterAllEvolves(limits, rows, elsewhere(awaits), mine);
      rows, awaits := AfterAll(limits, rows, elsewhere(awaits), mine), awaits + 1;
    }

    function Visible(id: nat, scope: string): Option<Record>
      reads this
    {
      if id in rows && rows[id].key.scope == scope then Some(rows[id]) else None
    }

    /** Insert, or find the record that already has this key. */
    method ReserveTask(id: nat, key: TaskKey, queue: string, payloadHash: string, now: int)
      returns (found: nat, created: bool)
      requires Sound(limits, rows) && id !in rows
      modifies this`rows
      ensures created <==> !KeyTaken(old(rows), key)
      ensures created ==> found == id && rows == old(rows)[id := NewRecord(key, queue, payloadHash, now)]
      ensures !created ==> rows == old(rows) && found in rows && rows[found].key == key
      ensures Sound(limits, rows) && RowsLater(old(rows), rows)
    {
      if other :| other in rows && rows[other].key == key {
        return other, false;
      }
      AfterEvolves(limits, rows, Reserve(id, key, queue, payloadHash, now), None);
      rows := rows[id := NewRecord(key, queue, payloadHash, now)];
      return id, true;
    }

    /**
     The caller never sees SUBMITTING again: the record is queued now, or somebody was faster and
     nothing changes.
     */
    method MarkQueued(id: nat, scope: string, startTimeout: int, now: int) returns (r: Option<Record>)
      requires Sound(limits, rows)
      modifies this`rows
      ensures Sound(limits, rows) && RowsLater(old(rows), rows)
      ensures rows == Updated(old(rows), id, Op.MarkQueued(scope, startTimeout), now)
      ensures r == Visible(id, scope)
      ensures r.Some? ==> r.value.status != Submitting
      ensures r.Some? && old(rows)[id].status != Submitting ==> rows == old(rows)
      ensures r.Some? && old(rows)[id].status == Submitting ==> ExpiresAt(rows, id, Op.FailExpiredQueued, now + startTimeout)
    {
      ghost var after := Updated(rows, id, Op.MarkQueued(scope, startTimeout), now);
      QueuedOutcome(limits, rows, id, scope, startTimeout, now);
      if id in rows && rows[id].key.scope == scope && rows[id].status == Submitting {
        rows := rows[id := rows[id].(status := Queued, queuedDeadlineAt := Some(now + startTimeout), updatedAt := now)];
        assert rows == after;
        return Some(rows[id]);
      }
      return Visible(id, scope);
    }

    /**
     Marked, the record was never claimed and nobody changes it again; not marked, somebody was
     faster and nothing changes.
     */
    method MarkDispatchFailed(id: nat, scope: string, now: int) returns (r: Option<Record>, marked: bool)
      requires Sound(limits, rows)
      modifies this`rows
      ensures Sound(limits, rows) && RowsLater(old(rows), rows)
      ensures rows == Updated(old(rows), id, Op.MarkDispatchFailed(scope), now)
      ensures r == Visible(id, scope)
      ensures marked ==> Frozen(rows, id) && rows[id].status == Failed && rows[id].attemptCount == 0
      ensures !marked ==> rows == old(rows) && (r.Some? ==> r.value.status != Submitting)
    {
      ServiceStep(limits, rows, id, Op.MarkDispatchFailed(scope), now);
      if id in rows && rows[id].key.scope == scope && rows[id].status == Submitting {
        rows := rows[id := rows[id].(status := Failed, errorCode := Some(BrokerPublishFailed),
                                     finishedAt := Some(now), updatedAt := now)];
        TerminalIsFrozen(rows, id);
        return Some(rows[id]), true;
      }
      return Visible(id, scope), false;
    }

    /**
     A delivery that claims the record holds it, shuts every other delivery out, and keeps it
     from the reconciler until its deadline; one that does not claim it changes nothing.
     */
    method ClaimExecution(id: nat, taskName: string, scope: string, token: string, hardDeadline: int, now: int)
      returns (claimed: bool)
      requires Sound(limits, rows)
      modifies this`rows
      ensures hardDeadline == limits.execution(taskName) ==> Sound(limits, rows) && RowsLater(old(rows), rows)
      ensures rows == Updated(old(rows), id, Op.Claim(taskName, scope, token, hardDeadline), now)
      ensures claimed == Changes(old(rows), id, Op.Claim(taskName, scope, token, hardDeadline), now)
      ensures claimed ==> Held(rows[id], token) && old(rows)[id].executionToken.None? && Taken(rows, id)
      ensures claimed ==> forall fence :: ExpiresAt(rows, id, ReconcileExecution(fence), now + hardDeadline)
      ensures !claimed ==> rows == old(rows)
    {
      if hardDeadline == limits.execution(taskName) {
        ServiceStep(limits, rows, id, Op.Claim(taskName, scope, token, hardDeadline), now);
      }
      claimed := id in rows && rows[id].key.taskName == taskName && rows[id].key.scope == scope
        && rows[id].status in {Submitting, Queued};
      if claimed {
        var r := rows[id];
        rows := rows[id := r.(status := Running, cancelAllowed := true, executionToken := Some(token),
                              attemptCount := r.attemptCount + 1,
                              startedAt := if r.startedAt.Some? then r.startedAt else Some(now),
                              hardDeadlineAt := Some(now + hardDeadline), errorCode := None, updatedAt := now)];
      }
    }

    /** Only the holder of a running record ends it, and then nobody changes it again; otherwise nothing changes. */
    method FinishExecution(id: nat, token: string, status: Status, code: Option<ErrorCode>, now: int)
      returns (r: Result<bool, DaoError>)
      requires Sound(limits, rows)
      modifies this`rows
      ensures Sound(limits, rows) && RowsLater(old(rows), rows)
      ensures r.Err? <==> status !in {Succeeded, Failed}
      ensures r.Ok? ==> rows == Updated(old(rows), id, Op.Finish(token, status, code), now)
      ensures r == Ok(true) ==> id in old(rows) && Held(old(rows)[id], token) && Frozen(rows, id)
      ensures r == Ok(true) ==> rows[id].status == status && rows[id].errorCode == code && rows[id].fenceExpiresAt.None?
      ensures r != Ok(true) ==> rows == old(rows)
      ensures r == Ok(false) && id in rows && Held(rows[id], token) ==> rows[id].status != Running
    {
      if status !in {Succeeded, Failed} {
        return Err(UnsupportedStatus);
      }
      ServiceStep(limits, rows, id, Op.Finish(token, status, code), now);
      if id in rows && rows[id].status == Running && rows[id].executionToken == Some(token) {
        rows := rows[id := rows[id].(status := status, errorCode := code, finishedAt := Some(now), updatedAt := now)];
        TerminalIsFrozen(rows, id);
        return Ok(true);
      }
      return Ok(false);
    }

    method AcknowledgeCancellation(id: nat, token: string, now: int) returns (acknowledged: bool)
      requires Sound(limits, rows)
      modifies this`rows
      ensures Sound(limits, rows) && RowsLater(old(rows), rows)
      ensures rows == Updated(old(rows), id, Op.Acknowledge(token), now)
      ensures acknowledged ==> Frozen(rows, id) && rows[id].status == Cancelled && rows[id].fenceExpiresAt.None?
      ensures !acknowledged ==> rows == old(rows)
      ensures !acknowledged && id in rows && Held(rows[id], token) ==> rows[id].status != Cancelling
    {
      ServiceStep(limits, rows, id, Op.Acknowledge(token), now);
      acknowledged := id in rows && rows[id].status == Cancelling && rows[id].executionToken == Some(token);
      if acknowledged {
        rows := rows[id := rows[id].(status := Cancelled, finishedAt := Some(now), updatedAt := now)];
        TerminalIsFrozen(rows, id);
      }
    }

    /** The row is locked, changed in place, and returned as it then is. */
    method RequestCancellation(id: nat, scope: string, now: int) returns (r: Option<Record>)
      modifies this`rows
      ensures rows == Updated(old(rows), id, Op.RequestCancellation(scope), now)
      ensures r == Visible(id, scope)
    {
      if id !in rows || rows[id].key.scope != scope {
        return None;
      }
      var record := rows[id];
      if record.status in {Cancelling, Cancelled, Orphaned} || IsTerminal(record.status) {
        assert rows[id := record] == rows;
        return Some(record);
      }
      if record.status == Running && !record.cancelAllowed {
        assert rows[id := record] == rows;
        return Some(record);
      }
      if record.status in {Submitting, Queued} {
        record := record.(status := Cancelled);
        record := record.(finishedAt := Some(now));
      } else if record.status == Running {
        record := record.(status := Cancelling);
      }
      record := record.(updatedAt := now);
      rows := rows[id := record];
      return Some(record);
    }

    /**
     With the gate closed no request to cancel changes the record; a running record whose gate
     does not close has it closed already.
     */
    method DisallowCancellation(id: nat, token: string, now: int) returns (closed: bool)
      requires Sound(limits, rows)
      modifies this`rows
      ensures Sound(limits, rows) && RowsLater(old(rows), rows)
      ensures rows == Updated(old(rows), id, Op.Disallow(token), now)
      ensures closed ==> id in rows && Held(rows[id], token) && GateClosed(rows[id]) && CancelRefused(rows, id)
      ensures !closed ==> rows == old(rows)
      ensures !closed && id in rows && Held(rows[id], token) && rows[id].status == Running ==> GateClosed(rows[id])
    {
      ServiceStep(limits, rows, id, Op.Disallow(token), now);
      if id in rows && rows[id].status == Running && rows[id].executionToken == Some(token) {
        GateOutcome(limits, rows, id, token, now);
      }
      closed := id in rows && rows[id].status == Running && rows[id].executionToken == Some(token) && rows[id].cancelAllowed;
      if closed {
        rows := rows[id := rows[id].(cancelAllowed := false, updatedAt := now)];
      }
    }

    /**
     A resolved orphan outlived claim, timeout, grace and fence, and nobody changes it again;
     otherwise nothing changes.
     */
    method ResolveOrphaned(id: nat, scope: string, status: Status, code: Option<ErrorCode>, now: int)
      returns (r: Result<bool, DaoError>)
      requires Sound(limits, rows)
      modifies this`rows
      ensures Sound(limits, rows) && RowsLater(old(rows), rows)
      ensures r.Err? <==> status !in {Failed, Cancelled}
      ensures r.Ok? ==> rows == Updated(old(rows), id, Op.ResolveOrphaned(scope, status, code), now)
      ensures r == Ok(true) ==> Frozen(rows, id) && rows[id].status == status
      ensures r == Ok(true) ==>
                Before(rows[id].startedAt, limits.execution(rows[id].key.taskName) + limits.fence, rows[id].finishedAt)
      ensures r == Ok(true) ==> rows[id].errorCode == if code.Some? then code else old(rows)[id].errorCode
      ensures r != Ok(true) ==> rows == old(rows)
    {
      if status !in {Failed, Cancelled} {
        return Err(UnsupportedStatus);
      }
      ServiceStep(limits, rows, id, Op.ResolveOrphaned(scope, status, code), now);
      if id in rows && rows[id].key.scope == scope && rows[id].status == Orphaned
         && CeleryRecord.Due(rows[id].fenceExpiresAt, now) {
        ResolvedOutcome(limits, rows, id, Op.ResolveOrphaned(scope, status, code), now);
        var values := rows[id].(status := status, finishedAt := Some(now), updatedAt := now);
        if code.Some? {
          values := values.(errorCode := code);
        }
        rows := rows[id := values];
        return Ok(true);
      }
      return Ok(false);
    }

    method First(op: Op, left: set<nat>) returns (first: nat)
      requires left != {} && left <= rows.Keys
      ensures first in left && forall id :: id in left && id != first ==> Earlier(rows, op, first, id)
    {
      first :| first in left;
      var rest := left - {first};
      while rest != {}
        invariant rest <= left && first in left - rest
        invariant forall id :: id in left - rest && id != first ==> Earlier(rows, op, first, id)
        decreases |rest|
      {
        var id :| id in rest;
        if Earlier(rows, op, id, first) {
          forall other | other in left - rest && other != first ensures Earlier(rows, op, id, other) {
            EarlierTransitive(rows, op, id, first, other);
          }
          first := id;
        }
        rest := rest - {id};
      }
    }

    /** `SELECT ... ORDER BY ... FOR UPDATE SKIP LOCKED LIMIT`. */
    method Candidates(op: Op, now: int, batchSize: nat, locked: set<nat>) returns (ids: seq<nat>)
      requires IsReconciler(op)
      ensures IsBatch(rows, op, now, batchSize, locked, ids)
    {
      ids := [];
      var left := set id | id in rows && Changes(rows, id, op, now) && id !in locked;
      while |ids| < batchSize && left != {}
        invariant |ids| <= batchSize && left <= rows.Keys
        invariant forall id :: id in left ==> Changes(rows, id, op, now) && id !in locked
        invariant forall k :: 0 <= k < |ids| ==> Changes(rows, ids[k], op, now) && ids[k] !in locked
        invariant forall j, k :: 0 <= j < k < |ids| ==> Earlier(rows, op, ids[j], ids[k])
        invariant forall k, id :: 0 <= k < |ids| && id in left ==> Earlier(rows, op, ids[k], id)
        invariant forall id | id in rows && Changes(rows, id, op, now) && id !in locked :: id in left || id in ids
        decreases |left|
      {
        var first := First(op, left);
        ids, left := ids + [first], left - {first};
      }
    }

    /** One reconciler statement: the candidates are selected, then each is updated if it is still due. */
    method Reconcile(op: Op, now: int, batchSize: nat, locked: set<nat>) returns (ids: seq<nat>)
      requires IsReconciler(op)
      modifies this`rows
      ensures IsBatch(old(rows), op, now, batchSize, locked, ids)
      ensures rows == AfterBatch(old(rows), op, now, ids)
    {
      ids := Candidates(op, now, batchSize, locked);
      var k := 0;
      while k < |ids|
        invariant 0 <= k <= |ids|
        invariant rows == AfterBatch(old(rows), op, now, ids[..k])
      {
        assert ids[k] !in ids[..k];
        assert ids[..k + 1] == ids[..k] + [ids[k]];
        AfterBatchNext(old(rows), op, now, ids[..k], ids[k]);
        rows := Updated(rows, ids[k], op, now);
        k := k + 1;
      }
      assert ids[..|ids|] == ids;
    }

    method FailStaleSubmitting(batchSize: nat, stale: int, now: int, locked: set<nat>) returns (ids: seq<nat>)
      modifies this`rows
      ensures IsBatch(old(rows), Op.FailStaleSubmitting(stale), now, batchSize, locked, ids)
      ensures rows == AfterBatch(old(rows), Op.FailStaleSubmitting(stale), now, ids)
    {
      ids := Reconcile(Op.FailStaleSubmitting(stale), now, batchSize, locked);
    }

    method FailExpiredQueued(batchSize: nat, now: int, locked: set<nat>) returns (ids: seq<nat>)
      modifies this`rows
      ensures IsBatch(old(rows), Op.FailExpiredQueued, now, batchSize, locked, ids)
      ensures rows == AfterBatch(old(rows), Op.FailExpiredQueued, now, ids)
    {
      ids := Reconcile(Op.FailExpiredQueued, now, batchSize, locked);
    }

    method ReconcileExpiredExecution(batchSize: nat, fence: int, now: int, locked: set<nat>) returns (ids: seq<nat>)
      modifies this`rows
      ensures IsBatch(old(rows), Op.ReconcileExecution(fence), now, batchSize, locked, ids)
      ensures rows == AfterBatch(old(rows), Op.ReconcileExecution(fence), now, ids)
    {
      ids := Reconcile(Op.ReconcileExecution(fence), now, batchSize, locked);
    }
  }

  // ---------- the service ----------

  datatype ServiceError = NotFound | StateConflict | PayloadConflict | PublishFailed | Disappeared | Fenced | BadTimeout

  datatype Dispatch = Dispatch(id: nat, status: Status, created: bool)

  /** The key belongs to a record with a different payload. */
  predicate Clashes(rows: Table, key: TaskKey, payloadHash: string) {
    exists id :: id in rows && rows[id].key == key && rows[id].payloadHash != payloadHash
  }

  /** The answer describes the record of this key and payload; a record this call created is past its publish. */
  predicate Dispatched(rows: Table, d: Dispatch, key: TaskKey, payloadHash: string) {
    && d.id in rows
    && rows[d.id].key == key
    && rows[d.id].payloadHash == payloadHash
    && rows[d.id].status == d.status
    && (d.created ==> d.status != Submitting)
  }

  /** `CeleryTaskService`; `published` lists the messages handed to the broker client. */
  class CeleryTaskService {
    const dao: CeleryTaskDao
    var published: seq<nat>

    constructor (dao: CeleryTaskDao)
      ensures this.dao == dao && published == []
    {
      this.dao, published := dao, [];
    }

    /**
     A message is published exactly when this call created the record; a call that reports a
     publish failure leaves a record no worker ever claimed.
     */
    method SubmitOnce(id: nat, key: TaskKey, queue: string, payloadHash: string, startTimeout: int,
                      brokerAccepts: bool, reservedAt: int, settledAt: int)
      returns (r: Result<Dispatch, ServiceError>)
      requires Sound(dao.limits, dao.rows) && id !in dao.rows
      modifies this, dao
      ensures Sound(dao.limits, dao.rows) && RowsLater(old(dao.rows), dao.rows)
      ensures published == if KeyTaken(old(dao.rows), key) then old(published) else old(published) + [id]
      ensures r == Err(PayloadConflict) <==> Clashes(old(dao.rows), key, payloadHash)
      ensures r.Ok? ==> Dispatched(dao.rows, r.value, key, payloadHash)
      ensures r.Ok? ==> (r.value.created <==> !KeyTaken(old(dao.rows), key))
      ensures r.Err? && r.error != PayloadConflict ==>
                r.error == PublishFailed && !brokerAccepts && id in dao.rows && dao.rows[id].status == Failed && dao.rows[id].attemptCount == 0
    {
      var found, created := dao.ReserveTask(id, key, queue, payloadHash, reservedAt);
      if !created {
        if dao.rows[found].payloadHash != payloadHash {
          return Err(PayloadConflict);
        }
        return Ok(Dispatch(found, dao.rows[found].status, false));
      }
      published := published + [id];
      r := AwaitBroker(id, key, payloadHash, brokerAccepts, startTimeout, settledAt);
      RowsLaterTransitive(old(dao.rows), old(dao.rows)[id := NewRecord(key, queue, payloadHash, reservedAt)], dao.rows);
    }

    /** `async_submit`, during which anything may happen to the record, and the status write after it. */
    method AwaitBroker(id: nat, key: TaskKey, payloadHash: string, brokerAccepts: bool, startTimeout: int,
                       settledAt: int)
      returns (r: Result<Dispatch, ServiceError>)
      requires Sound(dao.limits, dao.rows) && id in dao.rows
      requires dao.rows[id].key == key && dao.rows[id].payloadHash == payloadHash
      modifies dao
      ensures Sound(dao.limits, dao.rows) && RowsLater(old(dao.rows), dao.rows)
      ensures r.Ok? ==> Dispatched(dao.rows, r.value, key, payloadHash) && r.value.created
      ensures r.Err? ==> r.error == PublishFailed && !brokerAccepts
                         && id in dao.rows && dao.rows[id].status == Failed && dao.rows[id].attemptCount == 0
    {
      dao.Await(None);
      ghost var before := dao.rows;
      r := Settle(id, key.scope, brokerAccepts, startTimeout, settledAt);
      RowsLaterTransitive(old(dao.rows), before, dao.rows);
    }

    /** After the publish attempt: mark the record queued, or failed unless a worker was faster. */
    method Settle(id: nat, scope: string, brokerAccepted: bool, startTimeout: int, now: int)
      returns (r: Result<Dispatch, ServiceError>)
      requires Sound(dao.limits, dao.rows) && id in dao.rows && dao.rows[id].key.scope == scope
      modifies dao`rows
      ensures Sound(dao.limits, dao.rows) && RowsLater(old(dao.rows), dao.rows) && id in dao.rows
      ensures r.Ok? ==> r.value == Dispatch(id, dao.rows[id].status, true)
      ensures r.Ok? ==> r.value.status != Submitting
      ensures r.Err? ==> r.error == PublishFailed && !brokerAccepted
                         && dao.rows[id].status == Failed && dao.rows[id].attemptCount == 0
    {
      if !brokerAccepted {
        var current, marked := dao.MarkDispatchFailed(id, scope, now);
        if marked || current.None? {
          return Err(PublishFailed);
        }
        return Ok(Dispatch(id, current.value.status, true));
      }
      var current := dao.MarkQueued(id, scope, startTimeout, now);
      if current.None? {
        return Err(Disappeared);
      }
      return Ok(Dispatch(id, current.value.status, true));
    }

    /** A normal return means the record can no longer succeed; a refusal leaves it as it was. */
    method CancelTask(id: nat, scope: string, now: int) returns (r: Result<Status, ServiceError>)
      requires Sound(dao.limits, dao.rows)
      modifies dao`rows
      ensures Sound(dao.limits, dao.rows) && RowsLater(old(dao.rows), dao.rows)
      ensures r == Err(NotFound) <==> dao.Visible(id, scope).None?
      ensures r == Err(StateConflict) <==> old(dao.Visible(id, scope)).Some? && RefusesCancel(old(dao.rows)[id])
      ensures r.Err? ==> r.error in {NotFound, StateConflict} && dao.rows == old(dao.rows)
      ensures r.Ok? ==> r.value in {Cancelling, Cancelled} && dao.rows[id].status == r.value && CannotSucceed(dao.rows[id])
    {
      ServiceStep(dao.limits, dao.rows, id, Op.RequestCancellation(scope), now);
      var record := dao.RequestCancellation(id, scope, now);
      if record.None? {
        return Err(NotFound);
      }
      CancelAnswer(old(dao.rows)[id], now);
      var status := record.value.status;
      if status in {Succeeded, Failed, Orphaned} || (status == Running && !record.value.cancelAllowed) {
        assert dao.rows == old(dao.rows);
        return Err(StateConflict);
      }
      return Ok(status);
    }

    /**
     A claim holds the record until timeout plus grace have passed, and shuts every other
     delivery out; a delivery that claims nothing changes nothing.
     */
    method Claim(id: nat, taskName: string, scope: string, token: string, executionTimeout: int, grace: int, now: int)
      returns (r: Result<bool, ServiceError>)
      requires Sound(dao.limits, dao.rows)
      modifies dao`rows
      ensures r.Err? <==> executionTimeout <= 0 || grace <= 0
      ensures executionTimeout + grace == dao.limits.execution(taskName) ==>
                Sound(dao.limits, dao.rows) && RowsLater(old(dao.rows), dao.rows)
      ensures r.Ok? ==> dao.rows == Updated(old(dao.rows), id, Op.Claim(taskName, scope, token, executionTimeout + grace), now)
      ensures r == Ok(true) ==> Holds(id, token) && dao.rows[id].status == Running && Taken(dao.rows, id)
      ensures r == Ok(true) ==> forall fence :: ExpiresAt(dao.rows, id, ReconcileExecution(fence), now + executionTimeout + grace)
      ensures r != Ok(true) ==> dao.rows == old(dao.rows)
    {
      if executionTimeout <= 0 || grace <= 0 {
        return Err(BadTimeout);
      }
      var claimed := dao.ClaimExecution(id, taskName, scope, token, executionTimeout + grace, now);
      return Ok(claimed);
    }

    predicate Holds(id: nat, token: string)
      reads dao
    {
      id in dao.rows && Held(dao.rows[id], token)
    }

    /** Others first get their turn; then the worker confirms a cancellation, if there is one. */
    method AcknowledgeCancellation(id: nat, token: string, now: int) returns (acknowledged: bool)
      requires Sound(dao.limits, dao.rows)
      modifies dao
      ensures Sound(dao.limits, dao.rows) && RowsLater(old(dao.rows), dao.rows)
      ensures acknowledged ==> id in dao.rows && dao.rows[id].status == Cancelled && dao.rows[id].fenceExpiresAt.None?
      ensures old(Holds(id, token)) && !acknowledged ==> Holds(id, token) && dao.rows[id].status != Cancelling
      ensures old(Holds(id, token) && dao.rows[id].status != Running) && !acknowledged ==> dao.rows[id].fenceExpiresAt.Some?
    {
      dao.Await(Some(token));
      ghost var before := dao.rows;
      acknowledged := dao.AcknowledgeCancellation(id, token, now);
      RowsLaterTransitive(old(dao.rows), before, dao.rows);
    }

    method TryFinish(id: nat, token: string, status: Status, code: Option<ErrorCode>, now: int) returns (updated: bool)
      requires Sound(dao.limits, dao.rows) && status in {Succeeded, Failed}
      modifies dao
      ensures Sound(dao.limits, dao.rows) && RowsLater(old(dao.rows), dao.rows)
      ensures updated ==> id in dao.rows && dao.rows[id].status == status && dao.rows[id].errorCode == code
                          && dao.rows[id].fenceExpiresAt.None?
      ensures old(Holds(id, token)) && !updated ==> Holds(id, token) && dao.rows[id].status != Running
    {
      dao.Await(Some(token));
      ghost var before := dao.rows;
      var r := dao.FinishExecution(id, token, status, code, now);
      RowsLaterTransitive(old(dao.rows), before, dao.rows);
      return r.value;
    }

    /**
     `succeed` and `fail`: two transactions with others in between.  The holder of the token
     is refused exactly when the record was orphaned.
     */
    method End(id: nat, token: string, status: Status, code: Option<ErrorCode>, finishAt: int, acknowledgeAt: int)
      returns (r: Result<bool, ServiceError>)
      requires Sound(dao.limits, dao.rows) && Holds(id, token) && status in {Succeeded, Failed}
      modifies dao
      ensures Sound(dao.limits, dao.rows) && RowsLater(old(dao.rows), dao.rows) && id in dao.rows
      ensures r == Ok(true) ==> dao.rows[id].status == status && dao.rows[id].errorCode == code
      ensures r == Ok(false) ==> dao.rows[id].status == Cancelled
      ensures r.Err? <==> dao.rows[id].fenceExpiresAt.Some?
      ensures r.Err? ==> r.error == Fenced
    {
      var updated := TryFinish(id, token, status, code, finishAt);
      if updated {
        return Ok(true);
      }
      ghost var before := dao.rows;
      var acknowledged := AcknowledgeCancellation(id, token, acknowledgeAt);
      RowsLaterTransitive(old(dao.rows), before, dao.rows);
      if acknowledged {
        return Ok(false);
      }
      return Err(Fenced);
    }

    method Succeed(id: nat, token: string, finishAt: int, acknowledgeAt: int) returns (r: Result<bool, ServiceError>)
      requires Sound(dao.limits, dao.rows) && Holds(id, token)
      modifies dao
      ensures Sound(dao.limits, dao.rows) && RowsLater(old(dao.rows), dao.rows) && id in dao.rows
      ensures r == Ok(true) ==> dao.rows[id].status == Succeeded
      ensures r == Ok(false) ==> dao.rows[id].status == Cancelled
      ensures r.Err? <==> dao.rows[id].fenceExpiresAt.Some?
    {
      r := End(id, token, Succeeded, None, finishAt, acknowledgeAt);
    }

    method Fail(id: nat, token: string, finishAt: int, acknowledgeAt: int) returns (r: Result<bool, ServiceError>)
      requires Sound(dao.limits, dao.rows) && Holds(id, token)
      modifies dao
      ensures Sound(dao.limits, dao.rows) && RowsLater(old(dao.rows), dao.rows) && id in dao.rows
      ensures r == Ok(true) ==> dao.rows[id].status == Failed && dao.rows[id].errorCode == Some(TaskExecutionFailed)
      ensures r == Ok(false) ==> dao.rows[id].status == Cancelled
      ensures r.Err? <==> dao.rows[id].fenceExpiresAt.Some?
    {
      r := End(id, token, Failed, Some(TaskExecutionFailed), finishAt, acknowledgeAt);
    }
  }

  // ---------- a worker ----------

  const SUM_TASK: string := "internal.tasks.celery_idempotency_demo.sum_numbers"
  const SUM_TIMEOUT: int := 30

  datatype WorkerOutcome = Value(x: int, y: int, sum: int) | Ignored | FencedOff | TaskError

  /**
   `sum_numbers` on one delivery.  A returned value means SUCCEEDED, and it is returned only
   to the delivery that claimed the record; a fencing error means the record was orphaned.
   `broken` says which awaits inside the `try` raise.
   */
  method SumNumbers(service: CeleryTaskService, id: nat, scope: string, x: int, y: int, token: string,
                    grace: int, broken: nat -> bool, clock: nat -> int)
    returns (outcome: WorkerOutcome)
    requires Sound(service.dao.limits, service.dao.rows)
    requires grace > 0 && service.dao.limits.execution(SUM_TASK) == SUM_TIMEOUT + grace
    requires TokenAbsent(service.dao.rows, token)
    modifies service.dao
    ensures Sound(service.dao.limits, service.dao.rows) && RowsLater(old(service.dao.rows), service.dao.rows)
    ensures outcome != Ignored ==> id in service.dao.rows && service.dao.rows[id].executionToken == Some(token)
    ensures outcome.Value? ==> outcome == Value(x, y, x + y) && service.dao.rows[id].status == Succeeded
    ensures outcome == FencedOff ==> service.dao.rows[id].fenceExpiresAt.Some?
    ensures outcome == TaskError ==> service.dao.rows[id].status == Failed
                                     && service.dao.rows[id].errorCode == Some(TaskExecutionFailed)
    ensures outcome == Ignored && id in service.dao.rows ==>
              service.dao.rows[id].executionToken != Some(token) || service.dao.rows[id].status == Cancelled
  {
    var claimed := ClaimDelivery(service, id, scope, token, grace, clock(0));
    if !claimed {
      return Ignored;
    }
    ghost var held := service.dao.rows;
    outcome := RunClaimed(service, id, x, y, token, broken, clock);
    RowsLaterTransitive(old(service.dao.rows), held, service.dao.rows);
  }

  predicate TokenAbsent(rows: Table, token: string) {
    forall i :: i in rows ==> rows[i].executionToken != Some(token)
  }

  /** The claim of a delivery; the token is nowhere before it. */
  method ClaimDelivery(service: CeleryTaskService, id: nat, scope: string, token: string, grace: int,
                       now: int) returns (claimed: bool)
    requires Sound(service.dao.limits, service.dao.rows)
    requires grace > 0 && service.dao.limits.execution(SUM_TASK) == SUM_TIMEOUT + grace
    requires TokenAbsent(service.dao.rows, token)
    modifies service.dao
    ensures Sound(service.dao.limits, service.dao.rows) && RowsLater(old(service.dao.rows), service.dao.rows)
    ensures claimed ==> service.Holds(id, token)
    ensures !claimed ==> TokenAbsent(service.dao.rows, token)
  {
    var dao := service.dao;
    dao.Await(Some(token));
    ghost var before := dao.rows;
    var r := service.Claim(id, SUM_TASK, scope, token, SUM_TIMEOUT, grace, now);
    RowsLaterTransitive(old(dao.rows), before, dao.rows);
    return r.value;
  }

  /** What the end of an execution left in the record. */
  predicate Recorded(r: Record, outcome: WorkerOutcome) {
    match outcome
    case Value(_, _, _) => r.status == Succeeded
    case Ignored => r.status == Cancelled
    case FencedOff => r.fenceExpiresAt.Some?
    case TaskError => r.status == Failed && r.errorCode == Some(TaskExecutionFailed)
  }

  /** The part of `sum_numbers` after a successful claim. */
  method RunClaimed(service: CeleryTaskService, id: nat, x: int, y: int, token: string, broken: nat -> bool,
                    clock: nat -> int)
    returns (outcome: WorkerOutcome)
    requires Sound(service.dao.limits, service.dao.rows) && service.Holds(id, token)
    modifies service.dao
    ensures Sound(service.dao.limits, service.dao.rows) && RowsLater(old(service.dao.rows), service.dao.rows)
    ensures id in service.dao.rows && Recorded(service.dao.rows[id], outcome)
    ensures outcome.Value? ==> outcome == Value(x, y, x + y)
  {
    var ended := Checkpoint(service, id, token, broken(1), clock(1), clock(3), clock(4));
    if ended.Some? {
      return ended.value;
    }
    var result := Value(x, y, x + y);
    ghost var before := service.dao.rows;
    outcome := Conclude(service, id, token, result, broken(2), clock(2), clock(3), clock(4));
    RowsLaterTransitive(old(service.dao.rows), before, service.dao.rows);
  }

  /** The second checkpoint, and the success that follows it. */
  method Conclude(service: CeleryTaskService, id: nat, token: string, result: WorkerOutcome, broken: bool,
                  now: int, finishAt: int, acknowledgeAt: int)
    returns (outcome: WorkerOutcome)
    requires Sound(service.dao.limits, service.dao.rows) && service.Holds(id, token) && result.Value?
    modifies service.dao
    ensures Sound(service.dao.limits, service.dao.rows) && RowsLater(old(service.dao.rows), service.dao.rows)
    ensures id in service.dao.rows && Recorded(service.dao.rows[id], outcome)
    ensures outcome.Value? ==> outcome == result
  {
    var ended := Checkpoint(service, id, token, broken, now, finishAt, acknowledgeAt);
    if ended.Some? {
      return ended.value;
    }
    ghost var before := service.dao.rows;
    var succeeded := service.Succeed(id, token, finishAt, acknowledgeAt);
    RowsLaterTransitive(old(service.dao.rows), before, service.dao.rows);
    return if succeeded.Err? then FencedOff else if succeeded.value then result else Ignored;
  }

  /** A cancellation checkpoint inside the `try`: how the worker ends there, if it does. */
  method Checkpoint(service: CeleryTaskService, id: nat, token: string, broken: bool, now: int, finishAt: int,
                    acknowledgeAt: int)
    returns (ended: Option<WorkerOutcome>)
    requires Sound(service.dao.limits, service.dao.rows) && service.Holds(id, token)
    modifies service.dao
    ensures Sound(service.dao.limits, service.dao.rows) && RowsLater(old(service.dao.rows), service.dao.rows)
    ensures ended.None? ==> service.Holds(id, token)
    ensures ended.Some? ==> !ended.value.Value? && id in service.dao.rows && Recorded(service.dao.rows[id], ended.value)
  {
    if broken {
      var failed := service.Fail(id, token, finishAt, acknowledgeAt);
      return Some(if failed.Err? then FencedOff else if failed.value then TaskError else Ignored);
    }
    var acknowledged := service.AcknowledgeCancellation(id, token, now);
    return if acknowledged then Some(Ignored) else None;
  }
}
