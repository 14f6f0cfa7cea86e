/** The generic store calls, which are meant for unmanaged applications only. */
module GenericCalls {
  import opened Outcomes
  import opened WriteOperations
  import opened ExecutionRecords
  import opened ExecutionTables

  /** A generic call with its arguments.  `refusal` is what the live runtime answers about the
      artifact: nothing, or the code it refuses with. */
  datatype GenericCall =
    | SaveExecution(state: ExecutionState)
    | SaveAttempt(attempt: Attempt)
    | CreateAttemptIfAbsent(attempt: Attempt)
    | TransitionAttempt(expectedAttempt: Attempt, attempt: Attempt)
    | TransitionExecution(expectedState: ExecutionState, state: ExecutionState)
    | RecordOperationReceipt(receipt: OperationReceipt)
    | RecordApplicationReceipt(applicationReceipt: ApplicationReceipt)
  {
    function Application(): ApplicationId {
      match this
      case SaveExecution(s) => s.application
      case SaveAttempt(x) => x.application
      case CreateAttemptIfAbsent(x) => x.application
      case TransitionAttempt(_, x) => x.application
      case TransitionExecution(_, s) => s.application
      case RecordOperationReceipt(r) => r.application
      case RecordApplicationReceipt(r) => r.application
    }
  }

  /** `_reject_durable_managed`. */
  function RejectManaged(t: Tables, a: ApplicationId): Guard {
    Need(a in t.executions ==> !t.executions[a].managed, "applier_orchestration_required")
  }

  /** One generic call on the store.  `orchestrated` says whether the calling store instance
      belongs to a service that orchestrates writes. */
  function Perform(t: Tables, call: GenericCall, orchestrated: bool, refusal: Option<string>): Result<Tables> {
    if orchestrated then Err(ValueError("applier_orchestration_required")) else
    :- Need(call.SaveExecution? ==> !call.state.managed, "applier_orchestration_required");
    :- Need(call.CreateAttemptIfAbsent? ==> call.attempt.phase.Applying? && call.attempt.failure.None?,
            "operation_attempt_claim_state_invalid");
    :- RejectManaged(t, call.Application());
    match call
    case SaveExecution(s) => PerformSaveExecution(t, s, refusal)
    case SaveAttempt(x) => PerformSaveAttempt(t, x, refusal)
    case CreateAttemptIfAbsent(x) =>
      :- Need(x.Id() !in t.attempts, "operation_attempt_already_exists");
      :- Accept(refusal);
      Ok(t.(attempts := t.attempts[x.Id() := x]))
    case TransitionAttempt(expected, x) => PerformTransitionAttempt(t, expected, x, refusal)
    case TransitionExecution(expected, s) => PerformTransitionExecution(t, expected, s, refusal)
    case RecordOperationReceipt(r) =>
      if r.Id() in t.receipts then
        :- Need(t.receipts[r.Id()] == r, "receipt_binding_conflict");
        Ok(t)
      else
        :- Accept(refusal);
        Ok(t.(receipts := t.receipts[r.Id() := r]))
    case RecordApplicationReceipt(r) =>
      if r.application in t.applicationReceipts then
        :- Need(t.applicationReceipts[r.application] == r, "receipt_binding_conflict");
        Ok(t)
      else
        :- Accept(refusal);
        Ok(t.(applicationReceipts := t.applicationReceipts[r.application := r]))
  }

  function PerformSaveExecution(t: Tables, s: ExecutionState, refusal: Option<string>): Result<Tables> {
    if s.application in t.executions && t.executions[s.application] == s then Ok(t) else
    :- Need(s.application in t.executions ==>
              t.executions[s.application].application == s.application
              && t.executions[s.application].anchor == s.anchor, "application_binding_conflict");
    :- Accept(refusal);
    Ok(t.(executions := t.executions[s.application := s]))
  }

  function PerformSaveAttempt(t: Tables, x: Attempt, refusal: Option<string>): Result<Tables> {
    if x.Id() in t.attempts && t.attempts[x.Id()] == x then Ok(t) else
    :- Need(x.Id() in t.attempts ==> SameAttemptBinding(t.attempts[x.Id()], x), "operation_attempt_binding_conflict");
    :- Accept(refusal);
    Ok(t.(attempts := t.attempts[x.Id() := x]))
  }

  predicate SameAttemptBinding(x: Attempt, y: Attempt) {
    x.application == y.application && x.index == y.index && x.operation == y.operation && x.provenance == y.provenance
  }

  function PerformTransitionAttempt(t: Tables, expected: Attempt, x: Attempt, refusal: Option<string>): Result<Tables> {
    if x.Id() !in t.attempts then Err(ValueError("operation_attempt_not_found")) else
    var previous := t.attempts[x.Id()];
    :- Need(previous == expected, "attempt_state_stale");
    :- Need(x.phase in SuccessorAttemptPhases(previous.phase), "attempt_state_transition_invalid");
    :- Accept(refusal);
    :- Need(SameAttemptBinding(previous, x) && previous.startedAt == x.startedAt, "operation_attempt_binding_conflict");
    Ok(t.(attempts := t.attempts[x.Id() := x]))
  }

  function PerformTransitionExecution(t: Tables, expected: ExecutionState, s: ExecutionState, refusal: Option<string>)
    : Result<Tables>
  {
    var a := s.application;
    :- Need(a in t.executions, "application_not_found");
    var previous := t.executions[a];
    :- Need(previous == expected, "application_state_stale");
    :- Need(!s.phase.Applied?, "application_finalization_required");
    :- ValidateApplicationTransition(previous, s);
    :- Accept(refusal);
    :- Need(s.next == previous.next + 1 ==> AppendedReceiptStored(t, previous, s), "application_progress_invalid");
    Ok(t.(executions := t.executions[a := s]))
  }

  /** The receipt that a generic progress step appends is stored, for the operation at that index. */
  predicate AppendedReceiptStored(t: Tables, previous: ExecutionState, s: ExecutionState) {
    && s.refs != []
    && previous.next < |s.application.operations|
    && var id := OperationAt(s.application, previous.next);
    && id in t.receipts
    && ReceiptId(id) == s.refs[|s.refs| - 1]
    && t.receipts[id].application == s.application && t.receipts[id].index == previous.next
  }
}
