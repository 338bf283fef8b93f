/**
 Confirming an invoice request (`confirm_invoice_request`, internal/services/order.py)
 as a state machine: any number of confirmations interleave, and each may fail, or its
 process may die, at every await.  Locks exclude and stored entries do not expire.
 */
module InvoiceConfirm {
  import opened Prelude

  const INVOICE_ACTION: string := "submit_invoice_request"
  const ACCEPTED: string := "accepted"  // stands for the fixed text shown to the user

  /** A prepared action as the server stored it; the fields are what a reader finds under each name. */
  datatype Pending = Pending(action: string, user: string, orderId: string, title: string, taxNo: Option<string>, email: Option<string>)

  /** The accepted request. */
  datatype Invoice = Invoice(
    token: string, orderId: string, title: string, taxNo: Option<string>, email: Option<string>,
    traceId: string, taskId: string, status: string, message: string)

  /** A stored result: who confirmed, under which retry key, and the request. */
  datatype Payload = Payload(user: string, key: string, invoice: Invoice)

  datatype Failure = BadRequest | NotAllowed | ServerError | Unavailable

  type Outcome = Result<Invoice, Failure>

  // ---------- reading stored fields ----------

  function Required(value: string): Result<string, Failure> {
    if value == "" then Err(ServerError) else Ok(value)
  }

  /** An empty optional field reads as none. */
  function Optional(value: Option<string>): Option<string> {
    if value == Some("") then None else value
  }

  /** `_invoice_request_from_payload`. */
  function FromPayload(p: Payload, user: string, token: string, key: string): Outcome {
    if p.user != user then Err(NotAllowed) else
    var storedToken :- Required(p.invoice.token);
    if storedToken != token then Err(BadRequest) else
    var storedKey :- Required(p.key);
    if storedKey != key then Err(BadRequest) else
    var orderId :- Required(p.invoice.orderId);
    var title :- Required(p.invoice.title);
    var traceId :- Required(p.invoice.traceId);
    var taskId :- Required(p.invoice.taskId);
    var status :- Required(p.invoice.status);
    var message :- Required(p.invoice.message);
    Ok(Invoice(storedToken, orderId, title, Optional(p.invoice.taxNo), Optional(p.invoice.email), traceId, taskId, status, message))
  }

  /** `_validate_pending_invoice_action`, the order lookup, and the new request built from the prepared action. */
  function FromPending(owns: (string, string) -> bool, p: Pending, user: string, token: string, traceId: string,
                       taskId: string): Outcome {
    if p.action != INVOICE_ACTION then Err(BadRequest)
    else if p.user != user then Err(NotAllowed) else
    var orderId :- Required(p.orderId);
    if !owns(user, orderId) then Err(NotAllowed) else
    var title :- Required(p.title);
    Ok(Invoice(token, orderId, title, Optional(p.taxNo), Optional(p.email), traceId, "task_" + taskId, "queued", ACCEPTED))
  }

  /** The bounds on the two strings a caller sends. */
  predicate WellFormed(token: string, key: string) {
    1 <= |token| <= 128 && 8 <= |key| <= 128
  }

  /** What was stored for a new request reads back as that request, exactly when it carries a trace identifier. */
  lemma StoredReadsBack(owns: (string, string) -> bool, p: Pending, user: string, token: string, key: string,
                        traceId: string, taskId: string)
    requires FromPending(owns, p, user, token, traceId, taskId).Ok? && WellFormed(token, key)
    ensures var invoice := FromPending(owns, p, user, token, traceId, taskId).value;
      FromPayload(Payload(user, key, invoice), user, token, key) == Ok(invoice) <==> traceId != ""
  {
  }

  /**
   A request accepted under an empty trace identifier: its stored result is rejected when a
   retry reads it, although nothing about the retry differs.
   */
  lemma EmptyTraceLosesResult()
    ensures var p := Pending(INVOICE_ACTION, "user", "order", "title", None, None);
      var accepted := FromPending((user, order) => true, p, "user", "token", "", "1");
      && accepted.Ok?
      && WellFormed("token", "retry-key")
      && FromPayload(Payload("user", "retry-key", accepted.value), "user", "token", "retry-key") == Err(ServerError)
  {
  }

  // ---------- the system ----------

  datatype Pc =
    | WantLock
    | CheckConfirmation
    | CheckIdempotency
    | ReadPending
    | SaveConfirmation(invoice: Invoice)
    | SaveIdempotency(invoice: Invoice)
    | DeletePending(invoice: Invoice)
    | Releasing(outcome: Outcome)
    | Ended

  datatype Attempt = Attempt(user: string, token: string, key: string, pc: Pc)

  /** `prepared` remembers every prepared action, `answers` every request a caller was given. */
  datatype System = System(
    locks: map<string, nat>,
    pending: map<string, Pending>,
    confirmations: map<string, Payload>,
    idempotency: map<(string, string), Payload>,
    attempts: seq<Attempt>,
    prepared: map<string, Pending>,
    answers: seq<(Attempt, Invoice)>)

  datatype Label =
    | Prepare(token: string, action: Pending)       // tokens are never issued twice
    | Confirm(user: string, token: string, key: string)
    | Lock(i: nat)
    | Look(i: nat, traceId: string, taskId: string) // the next read, and what follows it up to the next await
    | Save(i: nat, stored: bool, reported: bool)    // a reported save was stored; a silent one may have been
    | Delete(i: nat)
    | Release(i: nat)
    | Fail(i: nat)                                  // an await raises
    | Die(i: nat)                                   // the process dies, and its lock runs out

  function Put(s: System, i: nat, pc: Pc): System
    requires i < |s.attempts|
  {
    s.(attempts := s.attempts[i := s.attempts[i].(pc := pc)])
  }

  function DoLook(owns: (string, string) -> bool, s: System, i: nat, traceId: string, taskId: string): System
    requires i < |s.attempts|
  {
    var a := s.attempts[i];
    match a.pc
    case CheckConfirmation =>
      if a.token in s.confirmations then Put(s, i, Releasing(FromPayload(s.confirmations[a.token], a.user, a.token, a.key)))
      else Put(s, i, CheckIdempotency)
    case CheckIdempotency =>
      if (a.user, a.key) in s.idempotency then
        Put(s, i, Releasing(FromPayload(s.idempotency[(a.user, a.key)], a.user, a.token, a.key)))
      else Put(s, i, ReadPending)
    case ReadPending =>
      if a.token !in s.pending then Put(s, i, Releasing(Err(BadRequest))) else
      var invoice := FromPending(owns, s.pending[a.token], a.user, a.token, traceId, taskId);
      Put(s, i, if invoice.Ok? then SaveConfirmation(invoice.value) else Releasing(invoice))
    case _ => s
  }

  function DoSave(s: System, i: nat, stored: bool, reported: bool): System
    requires i < |s.attempts|
  {
    var a := s.attempts[i];
    if reported && !stored then s else
    match a.pc
    case SaveConfirmation(invoice) =>
      var s' := Put(s, i, if reported then SaveIdempotency(invoice) else Releasing(Err(Unavailable)));
      if stored then s'.(confirmations := s.confirmations[a.token := Payload(a.user, a.key, invoice)]) else s'
    case SaveIdempotency(invoice) =>
      var s' := Put(s, i, if reported then DeletePending(invoice) else Releasing(Err(Unavailable)));
      if stored then s'.(idempotency := s.idempotency[(a.user, a.key) := Payload(a.user, a.key, invoice)]) else s'
    case _ => s
  }

  predicate HoldsLock(pc: Pc) {
    !pc.WantLock? && !pc.Ended?
  }

  function DoRelease(s: System, i: nat): System
    requires i < |s.attempts|
  {
    var a := s.attempts[i];
    if !a.pc.Releasing? then s else
    Put(s, i, Ended).(locks := s.locks - {a.token},
                      answers := if a.pc.outcome.Ok? then s.answers + [(a, a.pc.outcome.value)] else s.answers)
  }

  function Step(owns: (string, string) -> bool, s: System, l: Label): System {
    match l
    case Prepare(token, action) =>
      if token in s.prepared then s else s.(pending := s.pending[token := action], prepared := s.prepared[token := action])
    case Confirm(user, token, key) =>
      if WellFormed(token, key) then s.(attempts := s.attempts + [Attempt(user, token, key, WantLock)]) else s
    case Lock(i) =>
      if i < |s.attempts| && s.attempts[i].pc.WantLock? && s.attempts[i].token !in s.locks then
        Put(s, i, CheckConfirmation).(locks := s.locks[s.attempts[i].token := i])
      else s
    case Look(i, traceId, taskId) => if i < |s.attempts| then DoLook(owns, s, i, traceId, taskId) else s
    case Save(i, stored, reported) => if i < |s.attempts| then DoSave(s, i, stored, reported) else s
    case Delete(i) =>
      if i < |s.attempts| && s.attempts[i].pc.DeletePending? then
        Put(s, i, Releasing(Ok(s.attempts[i].pc.invoice))).(pending := s.pending - {s.attempts[i].token})
      else s
    case Release(i) => if i < |s.attempts| then DoRelease(s, i) else s
    case Fail(i) =>
      if i < |s.attempts| && HoldsLock(s.attempts[i].pc) && !s.attempts[i].pc.Releasing? then Put(s, i, Releasing(Err(ServerError)))
      else if i < |s.attempts| && s.attempts[i].pc.WantLock? then Put(s, i, Ended)
      else s
    case Die(i) =>
      if i < |s.attempts| && HoldsLock(s.attempts[i].pc) then Put(s, i, Ended).(locks := s.locks - {s.attempts[i].token})
      else if i < |s.attempts| then Put(s, i, Ended)
      else s
  }

  function Start(): System {
    System(map[], map[], map[], map[], [], map[], [])
  }

  function Execute(owns: (string, string) -> bool, labels: seq<Label>): System {
    if labels == [] then Start()
    else Step(owns, Execute(owns, labels[..|labels| - 1]), labels[|labels| - 1])
  }

  // ---------- the invariant ----------

  /** The request is the prepared action, confirmed by the user it was prepared for. */
  predicate IsPrepared(s: System, user: string, token: string, invoice: Invoice) {
    && token in s.prepared
    && s.prepared[token].action == INVOICE_ACTION
    && s.prepared[token].user == user
    && invoice.token == token
    && invoice.orderId == s.prepared[token].orderId
    && invoice.title == s.prepared[token].title
    && invoice.taxNo == Optional(s.prepared[token].taxNo)
    && invoice.email == Optional(s.prepared[token].email)
  }

  /** The request is the stored result of the token, for this user and retry key. */
  predicate Committed(s: System, user: string, token: string, key: string, invoice: Invoice) {
    token in s.confirmations && s.confirmations[token] == Payload(user, key, invoice)
  }

  predicate AttemptInv(s: System, i: nat)
    requires i < |s.attempts|
  {
    var a := s.attempts[i];
    && (HoldsLock(a.pc) ==> a.token in s.locks && s.locks[a.token] == i)
    && match a.pc
       case CheckIdempotency => a.token !in s.confirmations
       case ReadPending => a.token !in s.confirmations
       case SaveConfirmation(invoice) => a.token !in s.confirmations && IsPrepared(s, a.user, a.token, invoice)
       case SaveIdempotency(invoice) => Committed(s, a.user, a.token, a.key, invoice)
       case DeletePending(invoice) => Committed(s, a.user, a.token, a.key, invoice)
       case Releasing(outcome) => outcome.Ok? ==> Committed(s, a.user, a.token, a.key, outcome.value)
       case _ => true
  }

  predicate StoresInv(s: System) {
    && (forall t :: t in s.pending ==> t in s.prepared && s.prepared[t] == s.pending[t])
    && (forall t :: t in s.confirmations ==>
          s.confirmations[t].key != "" && IsPrepared(s, s.confirmations[t].user, t, s.confirmations[t].invoice))
    && (forall k :: k in s.idempotency ==>
          var p := s.idempotency[k]; Committed(s, p.user, p.invoice.token, p.key, p.invoice))
  }

  predicate AnswersInv(s: System) {
    forall k :: 0 <= k < |s.answers| ==>
      var (a, invoice) := s.answers[k]; Committed(s, a.user, a.token, a.key, invoice)
  }

  predicate Inv(s: System) {
    && (forall i :: 0 <= i < |s.attempts| ==> AttemptInv(s, i) && WellFormed(s.attempts[i].token, s.attempts[i].key))
    && StoresInv(s)
    && AnswersInv(s)
  }

  /** Stored results and prepared actions are never changed. */
  predicate Extends(before: System, after: System) {
    && (forall t :: t in before.confirmations ==> t in after.confirmations && after.confirmations[t] == before.confirmations[t])
    && (forall t :: t in before.prepared ==> t in after.prepared && after.prepared[t] == before.prepared[t])
  }

  /** What a stored payload reads back as is what is stored, given its optional fields are normalised. */
  lemma ReadBack(p: Payload, user: string, token: string, key: string)
    requires FromPayload(p, user, token, key).Ok?
    requires p.invoice.taxNo == Optional(p.invoice.taxNo) && p.invoice.email == Optional(p.invoice.email)
    ensures p.user == user && p.key == key && p.invoice.token == token
    ensures FromPayload(p, user, token, key) == Ok(p.invoice)
  {
  }

  // ---------- every step keeps the invariant ----------

  lemma PutKeeps(s: System, i: nat, pc: Pc)
    requires Inv(s) && i < |s.attempts| && AttemptInv(Put(s, i, pc), i)
    ensures Inv(Put(s, i, pc))
  {
    forall j | 0 <= j < |s.attempts| && j != i ensures AttemptInv(Put(s, i, pc), j) {
      assert AttemptInv(s, j);
    }
  }

  /** Two attempts that hold locks hold different ones. */
  lemma LocksExclude(s: System, i: nat, j: nat)
    requires Inv(s) && i < |s.attempts| && j < |s.attempts| && i != j
    requires HoldsLock(s.attempts[i].pc) && HoldsLock(s.attempts[j].pc)
    ensures s.attempts[i].token != s.attempts[j].token
  {
    assert AttemptInv(s, i) && AttemptInv(s, j);
  }

  lemma LockKeeps(owns: (string, string) -> bool, s: System, i: nat)
    requires Inv(s) && i < |s.attempts|
    ensures Inv(Step(owns, s, Lock(i)))
  {
    var s' := Step(owns, s, Lock(i));
    forall j | 0 <= j < |s.attempts| ensures AttemptInv(s', j) {
      assert AttemptInv(s, j);
    }
  }

  /** Giving up a lock is safe once its holder has ended. */
  lemma UnlockKeeps(s: System, i: nat, token: string)
    requires Inv(s) && i < |s.attempts| && s.attempts[i].pc.Ended?
    requires token in s.locks ==> s.locks[token] == i
    ensures Inv(s.(locks := s.locks - {token}))
  {
    var s' := s.(locks := s.locks - {token});
    forall j | 0 <= j < |s.attempts| ensures AttemptInv(s', j) {
      assert AttemptInv(s, j);
    }
  }

  lemma ConfirmationLookKeeps(owns: (string, string) -> bool, s: System, i: nat, traceId: string, taskId: string)
    requires Inv(s) && i < |s.attempts| && s.attempts[i].pc.CheckConfirmation?
    ensures Inv(DoLook(owns, s, i, traceId, taskId))
  {
    var a := s.attempts[i];
    assert AttemptInv(s, i);
    if a.token in s.confirmations {
      var outcome := FromPayload(s.confirmations[a.token], a.user, a.token, a.key);
      if outcome.Ok? {
        ReadBack(s.confirmations[a.token], a.user, a.token, a.key);
      }
      PutKeeps(s, i, Releasing(outcome));
    } else {
      PutKeeps(s, i, CheckIdempotency);
    }
  }

  lemma IdempotencyLookKeeps(owns: (string, string) -> bool, s: System, i: nat, traceId: string, taskId: string)
    requires Inv(s) && i < |s.attempts| && s.attempts[i].pc.CheckIdempotency?
    ensures Inv(DoLook(owns, s, i, traceId, taskId))
  {
    var a := s.attempts[i];
    assert AttemptInv(s, i);
    if (a.user, a.key) in s.idempotency {
      var p := s.idempotency[(a.user, a.key)];
      assert Committed(s, p.user, p.invoice.token, p.key, p.invoice);
      var outcome := FromPayload(p, a.user, a.token, a.key);
      if outcome.Ok? {
        ReadBack(p, a.user, a.token, a.key);
      }
      PutKeeps(s, i, Releasing(outcome));
    } else {
      PutKeeps(s, i, ReadPending);
    }
  }

  lemma PendingLookKeeps(owns: (string, string) -> bool, s: System, i: nat, traceId: string, taskId: string)
    requires Inv(s) && i < |s.attempts| && s.attempts[i].pc.ReadPending?
    ensures Inv(DoLook(owns, s, i, traceId, taskId))
  {
    var a := s.attempts[i];
    assert AttemptInv(s, i);
    if a.token !in s.pending {
      PutKeeps(s, i, Releasing(Err(BadRequest)));
    } else {
      var invoice := FromPending(owns, s.pending[a.token], a.user, a.token, traceId, taskId);
      PutKeeps(s, i, if invoice.Ok? then SaveConfirmation(invoice.value) else Releasing(invoice));
    }
  }

  /** The first result stored for a token; nobody else is at work on it, and nothing refers to it yet. */
  lemma StoreConfirmationKeeps(s: System, i: nat, invoice: Invoice, pc: Pc)
    requires Inv(s) && i < |s.attempts| && s.attempts[i].pc == SaveConfirmation(invoice)
    requires pc == SaveIdempotency(invoice) || pc == Releasing(Err(Unavailable))
    ensures var a := s.attempts[i];
      Inv(Put(s, i, pc).(confirmations := s.confirmations[a.token := Payload(a.user, a.key, invoice)]))
  {
    var a := s.attempts[i];
    assert AttemptInv(s, i);
    var s' := Put(s, i, pc).(confirmations := s.confirmations[a.token := Payload(a.user, a.key, invoice)]);
    forall j | 0 <= j < |s.attempts| ensures AttemptInv(s', j) {
      assert AttemptInv(s, j);
      if j != i && HoldsLock(s.attempts[j].pc) {
        LocksExclude(s, i, j);
      }
    }
  }

  lemma StoreIdempotencyKeeps(s: System, i: nat, invoice: Invoice, pc: Pc)
    requires Inv(s) && i < |s.attempts| && s.attempts[i].pc == SaveIdempotency(invoice)
    requires pc == DeletePending(invoice) || pc == Releasing(Err(Unavailable))
    ensures var a := s.attempts[i];
      Inv(Put(s, i, pc).(idempotency := s.idempotency[(a.user, a.key) := Payload(a.user, a.key, invoice)]))
  {
    var a := s.attempts[i];
    assert AttemptInv(s, i);
    var s' := Put(s, i, pc).(idempotency := s.idempotency[(a.user, a.key) := Payload(a.user, a.key, invoice)]);
    forall j | 0 <= j < |s.attempts| ensures AttemptInv(s', j) {
      assert AttemptInv(s, j);
    }
  }

  lemma SaveKeeps(s: System, i: nat, stored: bool, reported: bool)
    requires Inv(s) && i < |s.attempts|
    ensures Inv(DoSave(s, i, stored, reported))
  {
    assert AttemptInv(s, i);
    match s.attempts[i].pc {
      case SaveConfirmation(invoice) =>
        if stored {
          StoreConfirmationKeeps(s, i, invoice, if reported then SaveIdempotency(invoice) else Releasing(Err(Unavailable)));
        } else if !reported {
          PutKeeps(s, i, Releasing(Err(Unavailable)));
        }
      case SaveIdempotency(invoice) =>
        if stored {
          StoreIdempotencyKeeps(s, i, invoice, if reported then DeletePending(invoice) else Releasing(Err(Unavailable)));
        } else if !reported {
          PutKeeps(s, i, Releasing(Err(Unavailable)));
        }
      case _ =>
    }
  }

  lemma DeleteKeeps(owns: (string, string) -> bool, s: System, i: nat)
    requires Inv(s) && i < |s.attempts|
    ensures Inv(Step(owns, s, Delete(i)))
  {
    assert AttemptInv(s, i);
    if s.attempts[i].pc.DeletePending? {
      PutKeeps(s, i, Releasing(Ok(s.attempts[i].pc.invoice)));
      FewerPendingKeeps(Put(s, i, Releasing(Ok(s.attempts[i].pc.invoice))), s.attempts[i].token);
    }
  }

  lemma FewerPendingKeeps(s: System, token: string)
    requires Inv(s)
    ensures Inv(s.(pending := s.pending - {token}))
  {
    forall j | 0 <= j < |s.attempts| ensures AttemptInv(s.(pending := s.pending - {token}), j) {
      assert AttemptInv(s, j);
    }
  }

  lemma AnswerKeeps(s: System, a: Attempt, invoice: Invoice)
    requires Inv(s) && Committed(s, a.user, a.token, a.key, invoice)
    ensures Inv(s.(answers := s.answers + [(a, invoice)]))
  {
    forall j | 0 <= j < |s.attempts| ensures AttemptInv(s.(answers := s.answers + [(a, invoice)]), j) {
      assert AttemptInv(s, j);
    }
  }

  lemma ReleaseKeeps(s: System, i: nat)
    requires Inv(s) && i < |s.attempts|
    ensures Inv(DoRelease(s, i))
  {
    var a := s.attempts[i];
    assert AttemptInv(s, i);
    if a.pc.Releasing? {
      var s1 := Put(s, i, Ended);
      PutKeeps(s, i, Ended);
      UnlockKeeps(s1, i, a.token);
      var s2 := s1.(locks := s.locks - {a.token});
      if a.pc.outcome.Ok? {
        AnswerKeeps(s2, a, a.pc.outcome.value);
        assert DoRelease(s, i) == s2.(answers := s2.answers + [(a, a.pc.outcome.value)]);
      }
    }
  }

  lemma EndKeeps(owns: (string, string) -> bool, s: System, i: nat)
    requires Inv(s) && i < |s.attempts|
    ensures Inv(Step(owns, s, Fail(i))) && Inv(Step(owns, s, Die(i)))
  {
    var a := s.attempts[i];
    assert AttemptInv(s, i);
    PutKeeps(s, i, Ended);
    if HoldsLock(a.pc) {
      PutKeeps(s, i, Releasing(Err(ServerError)));
      UnlockKeeps(Put(s, i, Ended), i, a.token);
    }
  }

  lemma PrepareKeeps(owns: (string, string) -> bool, s: System, token: string, action: Pending)
    requires Inv(s)
    ensures Inv(Step(owns, s, Prepare(token, action)))
  {
    var s' := Step(owns, s, Prepare(token, action));
    forall j | 0 <= j < |s.attempts| ensures AttemptInv(s', j) {
      assert AttemptInv(s, j);
    }
  }

  lemma ConfirmKeeps(owns: (string, string) -> bool, s: System, user: string, token: string, key: string)
    requires Inv(s)
    ensures Inv(Step(owns, s, Confirm(user, token, key)))
  {
    var s' := Step(owns, s, Confirm(user, token, key));
    forall j | 0 <= j < |s.attempts| ensures AttemptInv(s', j) {
      assert AttemptInv(s, j);
    }
  }

  lemma StepKeeps(owns: (string, string) -> bool, s: System, l: Label)
    requires Inv(s)
    ensures Inv(Step(owns, s, l))
  {
    match l {
      case Prepare(token, action) => PrepareKeeps(owns, s, token, action);
      case Confirm(user, token, key) => ConfirmKeeps(owns, s, user, token, key);
      case Lock(i) => if i < |s.attempts| { LockKeeps(owns, s, i); }
      case Look(i, traceId, taskId) => if i < |s.attempts| { LookKeeps(owns, s, i, traceId, taskId); }
      case Save(i, stored, reported) => if i < |s.attempts| { SaveKeeps(s, i, stored, reported); }
      case Delete(i) => if i < |s.attempts| { DeleteKeeps(owns, s, i); }
      case Release(i) => if i < |s.attempts| { ReleaseKeeps(s, i); }
      case Fail(i) => if i < |s.attempts| { EndKeeps(owns, s, i); }
      case Die(i) => if i < |s.attempts| { EndKeeps(owns, s, i); }
    }
  }

  lemma LookKeeps(owns: (string, string) -> bool, s: System, i: nat, traceId: string, taskId: string)
    requires Inv(s) && i < |s.attempts|
    ensures Inv(DoLook(owns, s, i, traceId, taskId))
  {
    match s.attempts[i].pc {
      case CheckConfirmation => ConfirmationLookKeeps(owns, s, i, traceId, taskId);
      case CheckIdempotency => IdempotencyLookKeeps(owns, s, i, traceId, taskId);
      case ReadPending => PendingLookKeeps(owns, s, i, traceId, taskId);
      case _ =>
    }
  }

  lemma {:induction false} ReachableInv(owns: (string, string) -> bool, labels: seq<Label>)
    ensures Inv(Execute(owns, labels))
  {
    if labels != [] {
      ReachableInv(owns, labels[..|labels| - 1]);
      StepKeeps(owns, Execute(owns, labels[..|labels| - 1]), labels[|labels| - 1]);
    }
  }

  // ---------- theorems ----------

  /**
   However confirmations interleave, fail or die, all callers that get an answer for one
   token get the same request, and they are one user with one retry key.
   */
  lemma OneTokenOneTask(owns: (string, string) -> bool, labels: seq<Label>, j: nat, k: nat)
    requires j < |Execute(owns, labels).answers| && k < |Execute(owns, labels).answers|
    requires Execute(owns, labels).answers[j].0.token == Execute(owns, labels).answers[k].0.token
    ensures var answers := Execute(owns, labels).answers;
      && answers[j].1 == answers[k].1
      && answers[j].0.user == answers[k].0.user
      && answers[j].0.key == answers[k].0.key
  {
    ReachableInv(owns, labels);
  }

  /** What a caller is given is the action the server prepared for that user, field by field. */
  lemma AnswersArePrepared(owns: (string, string) -> bool, labels: seq<Label>, k: nat)
    requires k < |Execute(owns, labels).answers|
    ensures var s := Execute(owns, labels); IsPrepared(s, s.answers[k].0.user, s.answers[k].0.token, s.answers[k].1)
  {
    ReachableInv(owns, labels);
    var s := Execute(owns, labels);
    var (a, invoice) := s.answers[k];
    assert Committed(s, a.user, a.token, a.key, invoice);
  }

  lemma SaveExtends(s: System, i: nat, stored: bool, reported: bool)
    requires Inv(s) && i < |s.attempts|
    ensures Extends(s, DoSave(s, i, stored, reported))
  {
    assert AttemptInv(s, i);
  }

  lemma OthersExtend(owns: (string, string) -> bool, s: System, l: Label)
    requires !l.Save?
    ensures Extends(s, Step(owns, s, l))
  {
  }

  lemma StepExtends(owns: (string, string) -> bool, s: System, l: Label)
    requires Inv(s)
    ensures Extends(s, Step(owns, s, l))
  {
    if !l.Save? {
      OthersExtend(owns, s, l);
    } else if l.i < |s.attempts| {
      SaveExtends(s, l.i, l.stored, l.reported);
    }
  }

  lemma ExtendsTransitive(a: System, b: System, c: System)
    requires Extends(a, b) && Extends(b, c)
    ensures Extends(a, c)
  {
  }

  lemma Later(owns: (string, string) -> bool, before: seq<Label>, front: seq<Label>, l: Label)
    ensures Execute(owns, before + (front + [l])) == Step(owns, Execute(owns, before + front), l)
  {
    assert (before + (front + [l]))[..|before + (front + [l])| - 1] == before + front;
  }

  /** A stored confirmation result is never replaced. */
  lemma {:induction false} ResultsAreFinal(owns: (string, string) -> bool, before: seq<Label>, later: seq<Label>)
    ensures Extends(Execute(owns, before), Execute(owns, before + later))
  {
    if later == [] {
      assert before + later == before;
    } else {
      var front, l := later[..|later| - 1], later[|later| - 1];
      assert later == front + [l];
      ResultsAreFinal(owns, before, front);
      ReachableInv(owns, before + front);
      StepExtends(owns, Execute(owns, before + front), l);
      Later(owns, before, front, l);
      ExtendsTransitive(Execute(owns, before), Execute(owns, before + front), Execute(owns, before + later));
    }
  }
}
