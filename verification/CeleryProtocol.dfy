/**
 The life of Celery task records as a state machine: submitters, duplicate deliveries,
 workers, cancel requests, the three reconcilers and the orphan resolver interleave freely
 over one table (internal/services/celery_task.py, internal/dao/celery_task.py).
 */
module CeleryProtocol {
  import opened Prelude
  import opened CeleryRecord

  type Table = map<nat, Record>

  /** Where `submit_once` stands after its reservation created a record. */
  datatype Submitter =
    | Reserved(id: nat)
    | Publishing(id: nat)
    | Accepted(id: nat)
    | Rejected(id: nat)
    | Left

  /** One delivery of a task message, under the token its worker drew. */
  datatype Worker = Worker(id: nat, token: string)

  /**
   `published` lists the publish attempts and `claims` the successful claims; `cancelled`
   and `gated` are the records for which a cancel request, or closing the gate, returned normally.
   */
  datatype System = System(
    rows: Table,
    submitters: seq<Submitter>,
    published: seq<nat>,
    workers: seq<Worker>,
    claims: seq<Worker>,
    cancelled: set<nat>,
    gated: set<nat>)

  datatype Label =
    | Submit(id: nat, key: TaskKey, queue: string, payloadHash: string, now: int)
    | BeginPublish(s: nat)
    | EndPublish(s: nat, accepted: bool)
    | Settle(s: nat, startTimeout: int, now: int)      // mark_queued or mark_dispatch_failed
    | Abandon(s: nat)                                  // the submitting process dies
    | Deliver(id: nat, token: string)                  // any number of times
    | Work(w: nat, op: Op, now: int)                   // a statement carrying the worker's token
    | CancelTask(id: nat, scope: string, now: int)
    | Maintain(id: nat, op: Op, now: int)              // a reconciler or the orphan resolver

  predicate KeyTaken(rows: Table, key: TaskKey) {
    exists id :: id in rows && rows[id].key == key
  }

  function Updated(rows: Table, id: nat, op: Op, now: int): Table {
    if id in rows && Apply(rows[id], op, now).Some? then rows[id := Apply(rows[id], op, now).value] else rows
  }

  predicate Changes(rows: Table, id: nat, op: Op, now: int) {
    id in rows && Apply(rows[id], op, now).Some?
  }

  predicate IsMaintenance(op: Op) {
    op.FailStaleSubmitting? || op.FailExpiredQueued? || op.ReconcileExecution? || op.ResolveOrphaned?
  }

  /** A new identifier is reserved only for a new key; otherwise the submission ends without publishing. */
  function DoSubmit(s: System, id: nat, key: TaskKey, queue: string, payloadHash: string, now: int): System {
    if id in s.rows || KeyTaken(s.rows, key) then s
    else s.(rows := s.rows[id := NewRecord(key, queue, payloadHash, now)], submitters := s.submitters + [Reserved(id)])
  }

  function DoSettle(s: System, n: nat, startTimeout: int, now: int): System
    requires n < |s.submitters|
  {
    match s.submitters[n]
    case Accepted(id) =>
      if id !in s.rows then s else
      s.(rows := Updated(s.rows, id, MarkQueued(s.rows[id].key.scope, startTimeout), now), submitters := s.submitters[n := Left])
    case Rejected(id) =>
      if id !in s.rows then s else
      s.(rows := Updated(s.rows, id, MarkDispatchFailed(s.rows[id].key.scope), now), submitters := s.submitters[n := Left])
    case _ => s
  }

  /** A worker may send any statement that carries its own token, in any order. */
  function DoWork(s: System, w: nat, op: Op, now: int): System
    requires w < |s.workers|
  {
    var worker := s.workers[w];
    if !CarriesToken(op, worker.token) || !Changes(s.rows, worker.id, op, now) then s
    else s.(rows := Updated(s.rows, worker.id, op, now),
            claims := if op.Claim? then s.claims + [worker] else s.claims,
            gated := if op.Disallow? then s.gated + {worker.id} else s.gated)
  }

  /** `cancel_task` returns normally unless the record is missing, finished, orphaned, or running behind a closed gate. */
  function DoCancel(s: System, id: nat, scope: string, now: int): System {
    if !Changes(s.rows, id, RequestCancellation(scope), now) then s else
    var rows := Updated(s.rows, id, RequestCancellation(scope), now);
    s.(rows := rows, cancelled := if RefusesCancel(rows[id]) then s.cancelled else s.cancelled + {id})
  }

  predicate RefusesCancel(r: Record) {
    r.status in {Succeeded, Failed, Orphaned} || (r.status == Running && !r.cancelAllowed)
  }

  function Step(limits: Limits, s: System, l: Label): System {
    match l
    case Submit(id, key, queue, payloadHash, now) => DoSubmit(s, id, key, queue, payloadHash, now)
    case BeginPublish(n) =>
      if n < |s.submitters| && s.submitters[n].Reserved? then
        s.(submitters := s.submitters[n := Publishing(s.submitters[n].id)], published := s.published + [s.submitters[n].id])
      else s
    case EndPublish(n, accepted) =>
      if n < |s.submitters| && s.submitters[n].Publishing? then
        s.(submitters := s.submitters[n := if accepted then Accepted(s.submitters[n].id) else Rejected(s.submitters[n].id)])
      else s
    case Settle(n, startTimeout, now) => if n < |s.submitters| then DoSettle(s, n, startTimeout, now) else s
    case Abandon(n) => if n < |s.submitters| then s.(submitters := s.submitters[n := Left]) else s
    case Deliver(id, token) =>
      if id in s.published && (forall w :: 0 <= w < |s.workers| ==> s.workers[w].token != token) then
        s.(workers := s.workers + [Worker(id, token)])
      else s
    case Work(w, op, now) => if w < |s.workers| && Within(limits, op) then DoWork(s, w, op, now) else s
    case CancelTask(id, scope, now) => DoCancel(s, id, scope, now)
    case Maintain(id, op, now) =>
      if IsMaintenance(op) && Within(limits, op) then s.(rows := Updated(s.rows, id, op, now)) else s
  }

  function Start(): System {
    System(map[], [], [], [], [], {}, {})
  }

  function Execute(limits: Limits, s: System, labels: seq<Label>): System {
    if labels == [] then s
    else Step(limits, Execute(limits, s, labels[..|labels| - 1]), labels[|labels| - 1])
  }

  // ---------- one step, seen from the rows ----------

  predicate RowsInv(limits: Limits, rows: Table) {
    forall id :: id in rows ==> RecordInv(limits, rows[id])
  }

  /** No record disappears, and every record moves only forward. */
  predicate RowsLater(before: Table, after: Table) {
    forall id :: id in before ==> id in after && Later(before[id], after[id])
  }

  lemma UpdatedForward(limits: Limits, rows: Table, id: nat, op: Op, now: int)
    requires RowsInv(limits, rows) && Within(limits, op)
    ensures RowsInv(limits, Updated(rows, id, op, now)) && RowsLater(rows, Updated(rows, id, op, now))
  {
    if Changes(rows, id, op, now) {
      ApplyKeepsInv(limits, rows[id], op, now);
      ApplyIsLater(limits, rows[id], op, now);
    }
  }

  lemma SettleForward(limits: Limits, s: System, n: nat, startTimeout: int, now: int)
    requires RowsInv(limits, s.rows) && n < |s.submitters|
    ensures RowsInv(limits, DoSettle(s, n, startTimeout, now).rows) && RowsLater(s.rows, DoSettle(s, n, startTimeout, now).rows)
  {
    if (s.submitters[n].Accepted? || s.submitters[n].Rejected?) && s.submitters[n].id in s.rows {
      var id := s.submitters[n].id;
      UpdatedForward(limits, s.rows, id, MarkQueued(s.rows[id].key.scope, startTimeout), now);
      UpdatedForward(limits, s.rows, id, MarkDispatchFailed(s.rows[id].key.scope), now);
    }
  }

  lemma SubmitForward(limits: Limits, s: System, id: nat, key: TaskKey, queue: string, payloadHash: string, now: int)
    requires RowsInv(limits, s.rows)
    ensures var rows := DoSubmit(s, id, key, queue, payloadHash, now).rows; RowsInv(limits, rows) && RowsLater(s.rows, rows)
  {
    NewRecordInv(limits, key, queue, payloadHash, now);
  }

  lemma StepForward(limits: Limits, s: System, l: Label)
    requires RowsInv(limits, s.rows)
    ensures RowsInv(limits, Step(limits, s, l).rows) && RowsLater(s.rows, Step(limits, s, l).rows)
  {
    match l {
      case Submit(id, key, queue, payloadHash, now) => SubmitForward(limits, s, id, key, queue, payloadHash, now);
      case Settle(n, startTimeout, now) =>
        if n < |s.submitters| {
          SettleForward(limits, s, n, startTimeout, now);
        }
      case Work(w, op, now) =>
        if w < |s.workers| && Within(limits, op) {
          UpdatedForward(limits, s.rows, s.workers[w].id, op, now);
        }
      case CancelTask(id, scope, now) => UpdatedForward(limits, s.rows, id, RequestCancellation(scope), now);
      case Maintain(id, op, now) =>
        if Within(limits, op) {
          UpdatedForward(limits, s.rows, id, op, now);
        }
      case _ =>
    }
  }

  // ---------- the invariant ----------

  predicate UniqueKeys(rows: Table) {
    forall i, j | i in rows && j in rows && i != j :: rows[i].key != rows[j].key
  }

  function Target(p: Submitter): Option<nat> {
    match p
    case Left => None
    case Reserved(id) => Some(id)
    case Publishing(id) => Some(id)
    case Accepted(id) => Some(id)
    case Rejected(id) => Some(id)
  }

  /** Each record has one submitter at most, and its publish attempt is behind it exactly when it is listed. */
  predicate SubmitInv(s: System) {
    && (forall n :: 0 <= n < |s.submitters| && s.submitters[n].Reserved? ==>
          s.submitters[n].id in s.rows && s.submitters[n].id !in s.published)
    && (forall m, n | 0 <= m < n < |s.submitters| && Target(s.submitters[n]).Some? ::
          Target(s.submitters[m]) != Target(s.submitters[n]))
    && (forall n :: 0 <= n < |s.submitters| && Target(s.submitters[n]).Some? ==> Target(s.submitters[n]).value in s.rows)
    && (forall k :: 0 <= k < |s.published| ==> s.published[k] in s.rows)
    && (forall j, k :: 0 <= j < k < |s.published| ==> s.published[j] != s.published[k])
  }

  predicate WorkerInv(s: System) {
    && (forall w :: 0 <= w < |s.workers| ==> s.workers[w].id in s.published)
    && (forall v, w :: 0 <= v < w < |s.workers| ==> s.workers[v].token != s.workers[w].token)
  }

  /** The claims are exactly the tokens the rows hold. */
  predicate ClaimInv(s: System) {
    && (forall k :: 0 <= k < |s.claims| ==>
          && s.claims[k] in s.workers
          && s.claims[k].id in s.rows
          && s.rows[s.claims[k].id].executionToken == Some(s.claims[k].token))
    && (forall j, k :: 0 <= j < k < |s.claims| ==> s.claims[j].id != s.claims[k].id)
    && (forall id :: id in s.rows && s.rows[id].executionToken.Some? ==> Worker(id, s.rows[id].executionToken.value) in s.claims)
  }

  predicate PromiseInv(s: System) {
    && (forall id :: id in s.cancelled ==> id in s.rows && CannotSucceed(s.rows[id]))
    && (forall id :: id in s.gated ==> id in s.rows && GateClosed(s.rows[id]))
  }

  predicate Inv(limits: Limits, s: System) {
    && RowsInv(limits, s.rows)
    && UniqueKeys(s.rows)
    && SubmitInv(s)
    && WorkerInv(s)
    && ClaimInv(s)
    && PromiseInv(s)
  }

  lemma PromisesKept(s: System, s': System)
    requires PromiseInv(s) && RowsLater(s.rows, s'.rows) && s'.cancelled == s.cancelled && s'.gated == s.gated
    ensures PromiseInv(s')
  {
  }

  lemma KeysKept(before: Table, after: Table)
    requires UniqueKeys(before) && RowsLater(before, after) && after.Keys == before.Keys
    ensures UniqueKeys(after)
  {
  }

  /** A new row without a token belongs to nobody yet. */
  lemma NewRowKeeps(limits: Limits, s: System, id: nat, r: Record)
    requires Inv(limits, s) && id !in s.rows && !KeyTaken(s.rows, r.key) && RecordInv(limits, r) && r.executionToken.None?
    ensures Inv(limits, s.(rows := s.rows[id := r]))
  {
    assert forall i :: i in s.rows ==> s.rows[id := r][i] == s.rows[i];
  }

  lemma NewSubmitterKeeps(limits: Limits, s: System, id: nat)
    requires Inv(limits, s) && id in s.rows && id !in s.published
    requires forall n :: 0 <= n < |s.submitters| ==> Target(s.submitters[n]) != Some(id)
    ensures Inv(limits, s.(submitters := s.submitters + [Reserved(id)]))
  {
  }

  lemma SubmitKeeps(limits: Limits, s: System, id: nat, key: TaskKey, queue: string, payloadHash: string, now: int)
    requires Inv(limits, s)
    ensures Inv(limits, DoSubmit(s, id, key, queue, payloadHash, now))
  {
    if id !in s.rows && !KeyTaken(s.rows, key) {
      NewRecordInv(limits, key, queue, payloadHash, now);
      NewRowKeeps(limits, s, id, NewRecord(key, queue, payloadHash, now));
      NewSubmitterKeeps(limits, s.(rows := s.rows[id := NewRecord(key, queue, payloadHash, now)]), id);
    }
  }

  /** A statement that is not a claim leaves every token where it is. */
  lemma TokensKept(r: Record, op: Op, now: int)
    requires Apply(r, op, now).Some? && !op.Claim?
    ensures Apply(r, op, now).value.executionToken == r.executionToken
  {
  }

  /** The rows move forward while every token stays where it is. */
  lemma ForwardKeeps(limits: Limits, s: System, rows: Table)
    requires Inv(limits, s) && RowsInv(limits, rows) && RowsLater(s.rows, rows) && rows.Keys == s.rows.Keys
    requires forall id :: id in rows ==> rows[id].executionToken == s.rows[id].executionToken
    ensures Inv(limits, s.(rows := rows))
  {
    KeysKept(s.rows, rows);
    PromisesKept(s, s.(rows := rows));
  }

  lemma RowChangeKeeps(limits: Limits, s: System, id: nat, op: Op, now: int)
    requires Inv(limits, s) && Within(limits, op) && !op.Claim?
    ensures Inv(limits, s.(rows := Updated(s.rows, id, op, now)))
  {
    UpdatedForward(limits, s.rows, id, op, now);
    if Changes(s.rows, id, op, now) {
      TokensKept(s.rows[id], op, now);
    }
    ForwardKeeps(limits, s, Updated(s.rows, id, op, now));
  }

  /** One row that no worker held now carries the token of this worker. */
  lemma NewTokenKeeps(limits: Limits, s: System, rows: Table, worker: Worker)
    requires Inv(limits, s) && RowsInv(limits, rows) && RowsLater(s.rows, rows) && rows.Keys == s.rows.Keys
    requires worker in s.workers && worker.id in rows
    requires s.rows[worker.id].executionToken.None? && rows[worker.id].executionToken == Some(worker.token)
    requires forall id :: id in rows && id != worker.id ==> rows[id].executionToken == s.rows[id].executionToken
    ensures Inv(limits, s.(rows := rows, claims := s.claims + [worker]))
  {
    var s' := s.(rows := rows, claims := s.claims + [worker]);
    KeysKept(s.rows, rows);
    PromisesKept(s, s');
    assert s'.claims[|s.claims|] == worker;
    forall id | id in rows && rows[id].executionToken.Some?
      ensures Worker(id, rows[id].executionToken.value) in s'.claims
    {
    }
    assert ClaimInv(s');
  }

  /** A claim succeeds only on a record that no worker holds. */
  lemma ClaimKeeps(limits: Limits, s: System, w: nat, op: Op, now: int)
    requires Inv(limits, s) && w < |s.workers| && op.Claim? && Within(limits, op)
    ensures Inv(limits, DoWork(s, w, op, now))
  {
    var worker := s.workers[w];
    if CarriesToken(op, worker.token) && Changes(s.rows, worker.id, op, now) {
      UpdatedForward(limits, s.rows, worker.id, op, now);
      NewTokenKeeps(limits, s, Updated(s.rows, worker.id, op, now), worker);
    }
  }

  /** Cancelling, or closing the gate, makes a promise about the record it just changed. */
  lemma CancelPromised(limits: Limits, s: System, id: nat)
    requires Inv(limits, s) && id in s.rows && CannotSucceed(s.rows[id])
    ensures Inv(limits, s.(cancelled := s.cancelled + {id}))
  {
  }

  lemma GatePromised(limits: Limits, s: System, id: nat)
    requires Inv(limits, s) && id in s.rows && GateClosed(s.rows[id])
    ensures Inv(limits, s.(gated := s.gated + {id}))
  {
  }

  lemma WorkKeeps(limits: Limits, s: System, w: nat, op: Op, now: int)
    requires Inv(limits, s) && w < |s.workers| && Within(limits, op)
    ensures Inv(limits, DoWork(s, w, op, now))
  {
    var worker := s.workers[w];
    if op.Claim? {
      ClaimKeeps(limits, s, w, op, now);
    } else if CarriesToken(op, worker.token) && Changes(s.rows, worker.id, op, now) {
      var s1 := s.(rows := Updated(s.rows, worker.id, op, now));
      RowChangeKeeps(limits, s, worker.id, op, now);
      if op.Disallow? {
        GatePromised(limits, s1, worker.id);
      }
    }
  }

  lemma CancelKeeps(limits: Limits, s: System, id: nat, scope: string, now: int)
    requires Inv(limits, s)
    ensures Inv(limits, DoCancel(s, id, scope, now))
  {
    var op := RequestCancellation(scope);
    RowChangeKeeps(limits, s, id, op, now);
    if Changes(s.rows, id, op, now) {
      var s1 := s.(rows := Updated(s.rows, id, op, now));
      CancelAnswer(s.rows[id], now);
      assert s1.rows[id] == Cancel(s.rows[id], now);
      if !RefusesCancel(s1.rows[id]) {
        CancelPromised(limits, s1, id);
        assert DoCancel(s, id, scope, now) == s1.(cancelled := s1.cancelled + {id});
      } else {
        assert DoCancel(s, id, scope, now) == s1;
      }
    }
  }

  /** A cancel request that is not refused leaves a record that cannot succeed. */
  lemma CancelAnswer(r: Record, now: int)
    ensures RefusesCancel(Cancel(r, now)) <==> r.status in {Succeeded, Failed, Orphaned} || (r.status == Running && !r.cancelAllowed)
    ensures RefusesCancel(Cancel(r, now)) ==> Cancel(r, now) == r
    ensures !RefusesCancel(Cancel(r, now)) ==> Cancel(r, now).status in {Cancelling, Cancelled}
  {
  }

  lemma SettleKeeps(limits: Limits, s: System, n: nat, startTimeout: int, now: int)
    requires Inv(limits, s) && n < |s.submitters|
    ensures Inv(limits, DoSettle(s, n, startTimeout, now))
  {
    if (s.submitters[n].Accepted? || s.submitters[n].Rejected?) && s.submitters[n].id in s.rows {
      var id := s.submitters[n].id;
      var op := if s.submitters[n].Accepted? then MarkQueued(s.rows[id].key.scope, startTimeout) else MarkDispatchFailed(s.rows[id].key.scope);
      RowChangeKeeps(limits, s, id, op, now);
      PcKeeps(limits, s.(rows := Updated(s.rows, id, op, now)), n, Left);
    }
  }

  /** A submitter moves on; it never goes back to before its publish attempt. */
  lemma PcKeeps(limits: Limits, s: System, n: nat, p: Submitter)
    requires Inv(limits, s) && n < |s.submitters| && !p.Reserved?
    requires p == Left || Target(p) == Target(s.submitters[n])
    ensures Inv(limits, s.(submitters := s.submitters[n := p]))
  {
  }

  lemma NewAttemptKeeps(limits: Limits, s: System, id: nat)
    requires Inv(limits, s) && id in s.rows && id !in s.published
    requires forall n :: 0 <= n < |s.submitters| ==> s.submitters[n] != Reserved(id)
    ensures Inv(limits, s.(published := s.published + [id]))
  {
  }

  lemma PublishKeeps(limits: Limits, s: System, n: nat)
    requires Inv(limits, s) && n < |s.submitters| && s.submitters[n].Reserved?
    ensures Inv(limits, Step(limits, s, BeginPublish(n)))
  {
    var id := s.submitters[n].id;
    var s1 := s.(submitters := s.submitters[n := Publishing(id)]);
    PcKeeps(limits, s, n, Publishing(id));
    forall m | 0 <= m < |s1.submitters| ensures s1.submitters[m] != Reserved(id) {
      assert m != n ==> Target(s.submitters[m]) != Target(s.submitters[n]);
    }
    NewAttemptKeeps(limits, s1, id);
  }

  lemma StepKeeps(limits: Limits, s: System, l: Label)
    requires Inv(limits, s)
    ensures Inv(limits, Step(limits, s, l))
  {
    match l {
      case Submit(id, key, queue, payloadHash, now) => SubmitKeeps(limits, s, id, key, queue, payloadHash, now);
      case BeginPublish(n) =>
        if n < |s.submitters| && s.submitters[n].Reserved? {
          PublishKeeps(limits, s, n);
        }
      case EndPublish(n, accepted) =>
        if n < |s.submitters| && s.submitters[n].Publishing? {
          PcKeeps(limits, s, n, if accepted then Accepted(s.submitters[n].id) else Rejected(s.submitters[n].id));
        }
      case Settle(n, startTimeout, now) =>
        if n < |s.submitters| {
          SettleKeeps(limits, s, n, startTimeout, now);
        }
      case Abandon(n) =>
        if n < |s.submitters| {
          PcKeeps(limits, s, n, Left);
        }
      case Deliver(id, token) => DeliverKeeps(limits, s, id, token);
      case Work(w, op, now) =>
        if w < |s.workers| && Within(limits, op) {
          WorkKeeps(limits, s, w, op, now);
        }
      case CancelTask(id, scope, now) => CancelKeeps(limits, s, id, scope, now);
      case Maintain(id, op, now) =>
        if IsMaintenance(op) && Within(limits, op) {
          RowChangeKeeps(limits, s, id, op, now);
        }
    }
  }

  lemma DeliverKeeps(limits: Limits, s: System, id: nat, token: string)
    requires Inv(limits, s)
    ensures Inv(limits, Step(limits, s, Deliver(id, token)))
  {
    var s' := Step(limits, s, Deliver(id, token));
    assert forall k :: 0 <= k < |s.claims| ==> s.claims[k] in s'.workers;
  }

  lemma {:induction false} ReachableInv(limits: Limits, labels: seq<Label>)
    ensures Inv(limits, Execute(limits, Start(), labels))
  {
    if labels != [] {
      ReachableInv(limits, labels[..|labels| - 1]);
      StepKeeps(limits, Execute(limits, Start(), labels[..|labels| - 1]), labels[|labels| - 1]);
    }
  }

  // ---------- theorems ----------

  /** One record a key, one publish attempt a record, one successful claim a record, and as many attempts as claims. */
  lemma OnceForEachKey(limits: Limits, labels: seq<Label>)
    ensures var s := Execute(limits, Start(), labels);
      && UniqueKeys(s.rows)
      && (forall j, k :: 0 <= j < k < |s.published| ==> s.published[j] != s.published[k])
      && (forall j, k :: 0 <= j < k < |s.claims| ==> s.claims[j].id != s.claims[k].id)
      && (forall k :: 0 <= k < |s.claims| ==> s.claims[k].id in s.published && s.claims[k].id in s.rows)
      && (forall id :: id in s.rows ==>
            s.rows[id].attemptCount == (if exists k :: 0 <= k < |s.claims| && s.claims[k].id == id then 1 else 0))
  {
    ReachableInv(limits, labels);
    var s := Execute(limits, Start(), labels);
    forall id | id in s.rows
      ensures s.rows[id].executionToken.Some? <==> exists k :: 0 <= k < |s.claims| && s.claims[k].id == id
    {
      if s.rows[id].executionToken.Some? {
        var k :| 0 <= k < |s.claims| && s.claims[k] == Worker(id, s.rows[id].executionToken.value);
      }
    }
  }

  lemma RowsLaterTransitive(a: Table, b: Table, c: Table)
    requires RowsLater(a, b) && RowsLater(b, c)
    ensures RowsLater(a, c)
  {
    forall id | id in a ensures id in c && Later(a[id], c[id]) {
      LaterTransitive(a[id], b[id], c[id]);
    }
  }

  lemma OneMore(limits: Limits, before: seq<Label>, front: seq<Label>, l: Label)
    ensures Execute(limits, Start(), before + (front + [l])) == Step(limits, Execute(limits, Start(), before + front), l)
  {
    assert (before + (front + [l]))[..|before + front|] == before + front;
  }

  /** From any moment of a run to any later one, every record moves only forward. */
  lemma {:induction false} RunsMoveForward(limits: Limits, before: seq<Label>, later: seq<Label>)
    ensures RowsLater(Execute(limits, Start(), before).rows, Execute(limits, Start(), before + later).rows)
  {
    if later == [] {
      assert before + later == before;
    } else {
      var front, l := later[..|later| - 1], later[|later| - 1];
      assert later == front + [l];
      RunsMoveForward(limits, before, front);
      OneMore(limits, before, front, l);
      ReachableInv(limits, before + front);
      StepForward(limits, Execute(limits, Start(), before + front), l);
      RowsLaterTransitive(Execute(limits, Start(), before).rows, Execute(limits, Start(), before + front).rows,
                          Execute(limits, Start(), before + later).rows);
    }
  }

  /** Once `cancel_task` has returned normally, the record is never SUCCEEDED. */
  lemma CancelledNeverSucceeds(limits: Limits, before: seq<Label>, later: seq<Label>, id: nat)
    requires id in Execute(limits, Start(), before).cancelled
    ensures id in Execute(limits, Start(), before + later).rows
    ensures Execute(limits, Start(), before + later).rows[id].status != Succeeded
  {
    ReachableInv(limits, before);
    RunsMoveForward(limits, before, later);
  }

  /**
   Once a worker has closed the gate, the record is never CANCELLING, and it becomes
   CANCELLED only after it was orphaned and its fence expired.
   */
  lemma GateStopsCancellation(limits: Limits, before: seq<Label>, later: seq<Label>, id: nat)
    requires id in Execute(limits, Start(), before).gated
    ensures id in Execute(limits, Start(), before + later).rows
    ensures var r := Execute(limits, Start(), before + later).rows[id];
      r.status != Cancelling && (r.status == Cancelled ==> Before(r.fenceExpiresAt, 0, r.finishedAt))
  {
    ReachableInv(limits, before);
    ReachableInv(limits, before + later);
    RunsMoveForward(limits, before, later);
  }

  /** `finished_at` is set exactly in terminal states, and a resolved orphan finished after claim, timeout, grace and fence. */
  lemma FinishTimes(limits: Limits, labels: seq<Label>, id: nat)
    requires id in Execute(limits, Start(), labels).rows
    ensures var r := Execute(limits, Start(), labels).rows[id];
      && (r.finishedAt.Some? <==> IsTerminal(r.status))
      && (r.fenceExpiresAt.Some? && IsTerminal(r.status) ==>
            Before(r.startedAt, limits.execution(r.key.taskName) + limits.fence, r.finishedAt))
  {
    ReachableInv(limits, labels);
    var r := Execute(limits, Start(), labels).rows[id];
    if r.fenceExpiresAt.Some? && IsTerminal(r.status) {
      OrphanResolvedLate(limits, r);
    }
  }

  // ---------- counting status changes ----------

  function Changed(before: Table, after: Table, id: nat): nat {
    if id in before && id in after && before[id].status != after[id].status then 1 else 0
  }

  /** How often the status of a record changed during a run. */
  function StatusChanges(limits: Limits, labels: seq<Label>, id: nat): nat {
    if labels == [] then 0 else
    var front := labels[..|labels| - 1];
    StatusChanges(limits, front, id)
      + Changed(Execute(limits, Start(), front).rows, Execute(limits, Start(), labels).rows, id)
  }

  /** A record changes its status at most five times, and never again once it is terminal. */
  lemma {:induction false} AtMostFiveChanges(limits: Limits, labels: seq<Label>, id: nat)
    ensures id in Execute(limits, Start(), labels).rows ==>
      StatusChanges(limits, labels, id) <= Rank(Execute(limits, Start(), labels).rows[id].status) <= 5
    ensures id !in Execute(limits, Start(), labels).rows ==> StatusChanges(limits, labels, id) == 0
  {
    if labels != [] {
      var front := labels[..|labels| - 1];
      AtMostFiveChanges(limits, front, id);
      ReachableInv(limits, front);
      StepForward(limits, Execute(limits, Start(), front), labels[|labels| - 1]);
    }
  }

  /** Whatever happens after a record became terminal, it stays as it is, to the last column. */
  lemma TerminalForever(limits: Limits, before: seq<Label>, later: seq<Label>, id: nat)
    requires id in Execute(limits, Start(), before).rows && IsTerminal(Execute(limits, Start(), before).rows[id].status)
    ensures id in Execute(limits, Start(), before + later).rows
    ensures Execute(limits, Start(), before + later).rows[id] == Execute(limits, Start(), before).rows[id]
  {
    RunsMoveForward(limits, before, later);
  }

  // ---------- error codes ----------

  /** The statement a label sends to a record, with the clock it reads. */
  function StatementOn(limits: Limits, s: System, l: Label, id: nat): Option<(Op, int)> {
    match l
    case Settle(n, startTimeout, now) =>
      if id !in s.rows || n >= |s.submitters| then None
      else if s.submitters[n] == Accepted(id) then Some((MarkQueued(s.rows[id].key.scope, startTimeout), now))
      else if s.submitters[n] == Rejected(id) then Some((MarkDispatchFailed(s.rows[id].key.scope), now))
      else None
    case Work(w, op, now) =>
      if w < |s.workers| && s.workers[w].id == id && Within(limits, op) && CarriesToken(op, s.workers[w].token)
      then Some((op, now)) else None
    case CancelTask(other, scope, now) => if other == id then Some((RequestCancellation(scope), now)) else None
    case Maintain(other, op, now) =>
      if other == id && IsMaintenance(op) && Within(limits, op) then Some((op, now)) else None
    case _ => None
  }

  /** A record is changed by the statement that is sent to it, and by nothing else. */
  lemma RowAfterStep(limits: Limits, s: System, l: Label, id: nat)
    requires id in s.rows
    ensures var statement := StatementOn(limits, s, l, id);
      id in Step(limits, s, l).rows && Step(limits, s, l).rows[id] ==
        if statement.Some? then Updated(s.rows, id, statement.value.0, statement.value.1)[id] else s.rows[id]
  {
  }

  /** With this step a worker or the orphan resolver writes a code of the early failures to the record. */
  predicate WritesEarly(limits: Limits, s: System, l: Label, id: nat) {
    var statement := StatementOn(limits, s, l, id);
    statement.Some? && WritesEarlyCode(statement.value.0) && Changes(s.rows, id, statement.value.0, statement.value.1)
  }

  predicate EverWroteEarly(limits: Limits, labels: seq<Label>, id: nat) {
    labels != []
    && var front := labels[..|labels| - 1];
       EverWroteEarly(limits, front, id) || WritesEarly(limits, Execute(limits, Start(), front), labels[|labels| - 1], id)
  }

  lemma StatementCodes(limits: Limits, r: Record, op: Op, now: int)
    requires RecordInv(limits, r) && WellFormed(op) && (!CodeInv(r) ==> IsTerminal(r.status)) && Apply(r, op, now).Some?
    ensures var after := Apply(r, op, now).value;
      && (CodeInv(after) <==> CodeInv(r) && !WritesEarlyCode(op))
      && (!CodeInv(after) ==> IsTerminal(after.status))
  {
    ApplyIsLater(limits, r, op, now);
    if CodeInv(r) {
      EarlyCodeMeansUnclaimed(limits, r, op, now);
    }
  }

  lemma StepCodes(limits: Limits, s: System, l: Label, id: nat)
    requires RowsInv(limits, s.rows) && id in s.rows && (!CodeInv(s.rows[id]) ==> IsTerminal(s.rows[id].status))
    ensures id in Step(limits, s, l).rows
    ensures var after := Step(limits, s, l).rows[id];
      && (CodeInv(after) <==> CodeInv(s.rows[id]) && !WritesEarly(limits, s, l, id))
      && (!CodeInv(after) ==> IsTerminal(after.status))
  {
    RowAfterStep(limits, s, l, id);
    var statement := StatementOn(limits, s, l, id);
    if statement.Some? && Changes(s.rows, id, statement.value.0, statement.value.1) {
      StatementCodes(limits, s.rows[id], statement.value.0, statement.value.1);
    }
  }

  lemma NewRowCodes(limits: Limits, s: System, l: Label, id: nat)
    requires id !in s.rows
    ensures !WritesEarly(limits, s, l, id)
    ensures id in Step(limits, s, l).rows ==> CodeInv(Step(limits, s, l).rows[id])
  {
  }

  /**
   A record that carries a publish or queue-timeout code was never claimed, in exactly the runs
   in which no worker and no resolver wrote such a code to it.
   */
  lemma {:induction false} EarlyCodesUnclaimed(limits: Limits, labels: seq<Label>, id: nat)
    ensures var rows := Execute(limits, Start(), labels).rows;
      && (id !in rows ==> !EverWroteEarly(limits, labels, id))
      && (id in rows ==> (CodeInv(rows[id]) <==> !EverWroteEarly(limits, labels, id)))
      && (id in rows && !CodeInv(rows[id]) ==> IsTerminal(rows[id].status))
  {
    if labels != [] {
      var front := labels[..|labels| - 1];
      var s, l := Execute(limits, Start(), front), labels[|labels| - 1];
      EarlyCodesUnclaimed(limits, front, id);
      ReachableInv(limits, front);
      if id in s.rows {
        StepCodes(limits, s, l, id);
      } else {
        NewRowCodes(limits, s, l, id);
      }
    }
  }
}
