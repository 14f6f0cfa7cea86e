/** The four durable tables of one workspace, and every store call as one atomic step on them.
    A call that raises commits nothing, so a step is either the new tables or an error. */
module ExecutionTables {
  import opened Outcomes
  import opened Sequences
  import opened WriteOperations
  import opened ExecutionRecords

  datatype Tables = Tables(
    executions: map<ApplicationId, ExecutionState>,
    attempts: map<OperationId, Attempt>,
    receipts: map<OperationId, OperationReceipt>,
    applicationReceipts: map<ApplicationId, ApplicationReceipt>)

  const EmptyTables := Tables(map[], map[], map[], map[])

  /** Where the live runtime may refuse inside a call: validating the context, and validating the
      artifacts about to be written. */
  datatype Guards = Guards(context: Option<string>, artifact: Option<string>)

  const IntegrityError := Fault("IntegrityError")

  // ---- managed calls ----

  datatype Created = Created(tables: Tables, state: ExecutionState)

  predicate InitialState(s: ExecutionState) {
    s.phase.Pending? && s.next == 0 && s.owner.None? && s.attempt.None? && s.recovery.None?
    && s.refs == [] && s.completedAt.None?
  }

  /** `create_execution_if_absent`. */
  function Create(t: Tables, s: ExecutionState, guards: Guards): Result<Created> {
    var a := s.application;
    :- Accept(guards.context);
    :- Need(InitialState(s), "application_initial_state_invalid");
    :- Accept(guards.artifact);
    if a in t.executions then
      var existing := t.executions[a];
      :- Need(existing.application == a && existing.anchor == s.anchor, "application_binding_conflict");
      :- Need(existing.managed, "application_orchestration_policy_mismatch");
      Ok(Created(t, existing))
    else
      Ok(Created(t.(executions := t.executions[a := s]), s))
  }

  datatype Claimed = Claimed(tables: Tables, state: ExecutionState, attempt: Attempt)

  const OWNER_PREFIX := "execution-owner-"

  predicate ValidOwner(owner: string) {
    OWNER_PREFIX <= owner && |owner| == 48
  }

  /** The row checks of a claim. */
  function ClaimableRow(t: Tables, a: ApplicationId, expected: ExecutionState, now: Stamp): Guard {
    if a !in t.executions then Fail(ValueError("application_not_found")) else
    var previous := t.executions[a];
    if !previous.managed then Fail(ValueError("application_orchestration_policy_mismatch"))
    else if previous != expected then Fail(ValueError("application_state_stale"))
    else if !(previous.phase.Pending? || previous.phase.PartiallyApplied?)
         || previous.owner.Some? || previous.attempt.Some? then Fail(ValueError("application_claim_unavailable"))
    else if previous.next >= |a.operations| then Fail(ValueError("application_already_complete"))
    else Need(ClockNotBefore(now, [previous.startedAt, previous.updatedAt]), "execution_clock_invalid")
  }

  /** `claim_next_operation`. */
  function Claim(t: Tables, ctx: Context, expected: ExecutionState, owner: string, now: Stamp, guards: Guards)
    : Result<Claimed>
  {
    var a := ctx.application;
    :- Need(ValidOwner(owner), "application_coordination_invalid");
    :- Accept(guards.context);
    :- ClaimableRow(t, a, expected, now);
    var previous := t.executions[a];
    var attempt := NewAttempt(ctx, previous.next, now);
    :- Need(previous.anchor == ctx.Anchor(), "credential_continuity_mismatch");
    var state := previous.(phase := Applying, owner := Some(owner), attempt := Some(attempt.Id()), updatedAt := now);
    :- Accept(guards.artifact);
    if attempt.Id() in t.attempts then Err(IntegrityError) else
    Ok(Claimed(t.(attempts := t.attempts[attempt.Id() := attempt], executions := t.executions[a := state]),
               state, attempt))
  }

  function NewAttempt(ctx: Context, i: nat, now: Stamp): Attempt
    requires i < |ctx.application.operations|
  {
    Attempt(ctx.application, i, ctx.application.operations[i], ctx.provenance, Applying, now, now, None)
  }

  /** `validate_claim`: reads only. */
  function ValidateClaim(t: Tables, ctx: Context, state: ExecutionState, attempt: Attempt, owner: string,
                         guards: Guards): Guard
  {
    if guards.context.Some? then Fail(ValueError(guards.context.value)) else
    var stored := GetUnchecked(t, ctx.application);
    if stored.Err? then Fail(stored.error) else
    if attempt.Id() !in t.attempts then Fail(ValueError("operation_attempt_not_found")) else
    if !stored.value.managed then Fail(ValueError("application_orchestration_policy_mismatch")) else
    Need(HoldsClaim(stored.value, t.attempts[attempt.Id()], state, attempt, owner), "application_claim_stale")
  }

  /** The compare-and-swap guard of every call on a claimed operation. */
  predicate HoldsClaim(storedState: ExecutionState, storedAttempt: Attempt, state: ExecutionState, attempt: Attempt,
                       owner: string)
  {
    && storedState == state && state.phase.Applying? && state.owner == Some(owner)
    && state.attempt == Some(attempt.Id()) && storedAttempt == attempt && attempt.phase.Applying?
  }

  /** The guards shared by completing and settling a claimed operation. */
  function ClaimedRow(t: Tables, ctx: Context, state: ExecutionState, attempt: Attempt, owner: string): Result<()> {
    var a, id := ctx.application, attempt.Id();
    :- Need(a in t.executions && id in t.attempts, "application_claim_stale");
    :- Need(t.executions[a].managed, "application_orchestration_policy_mismatch");
    :- Need(HoldsClaim(t.executions[a], t.attempts[id], state, attempt, owner), "application_claim_stale");
    Ok(())
  }

  /** The checks the runtime makes before it continues a stored attempt. */
  function AttemptContinues(ctx: Context, attempt: Attempt): Guard {
    if attempt.application != ctx.application || attempt.index >= |ctx.application.operations|
    || attempt.operation != ctx.application.operations[attempt.index] then
      Fail(ValueError("operation_attempt_binding_invalid"))
    else
      Need(AnchorOf(attempt.provenance) == ctx.Anchor() && attempt.provenance.driver == ctx.provenance.driver
           && attempt.provenance.remoteAuthority == ctx.provenance.remoteAuthority, "credential_continuity_mismatch")
  }

  function StateContinues(ctx: Context, state: ExecutionState): Guard {
    Need(state.application == ctx.application && state.anchor == ctx.Anchor(), "credential_continuity_mismatch")
  }

  datatype Updated = Updated(tables: Tables, state: ExecutionState)

  /** `complete_operation_success`. */
  function Complete(t: Tables, ctx: Context, state: ExecutionState, attempt: Attempt, owner: string,
                    receipt: OperationReceipt, now: Stamp, guards: Guards): Result<Updated>
  {
    var a := ctx.application;
    :- Accept(guards.context);
    var _ :- ClaimedRow(t, ctx, state, attempt, owner);
    :- Need(receipt.application == a && receipt.index == attempt.index && receipt.Id() == attempt.Id(),
            "receipt_binding_conflict");
    :- Need(ClockNotBefore(now, [state.startedAt, state.updatedAt, attempt.startedAt, attempt.updatedAt]),
            "execution_clock_invalid");
    :- Need(ClockNotBefore(now, [receipt.startedAt, receipt.completedAt]), "execution_clock_invalid");
    :- AttemptContinues(ctx, attempt);
    :- StateContinues(ctx, state);
    var nextState := state.(phase := PartiallyApplied, next := state.next + 1,
                            refs := state.refs + [ReceiptId(receipt.Id())],
                            owner := None, attempt := None, updatedAt := now);
    :- Accept(guards.artifact);
    if receipt.Id() in t.receipts then Err(IntegrityError) else
    Ok(Updated(t.(receipts := t.receipts[receipt.Id() := receipt],
                  attempts := t.attempts[attempt.Id() := attempt.(phase := Applied, updatedAt := now)],
                  executions := t.executions[a := nextState]),
               nextState))
  }

  /** `settle_operation`. */
  function Settle(t: Tables, ctx: Context, state: ExecutionState, attempt: Attempt, owner: string,
                  target: Phase, code: string, now: Stamp, guards: Guards): Result<Updated>
  {
    var a := ctx.application;
    :- Need(target.Failed? || target.Blocked? || target.OutcomeUnknown?, "application_state_transition_invalid");
    :- Accept(guards.context);
    var _ :- ClaimedRow(t, ctx, state, attempt, owner);
    :- AttemptContinues(ctx, attempt);
    :- StateContinues(ctx, state);
    var nextState := state.(phase := target, owner := None, recovery := Some(code), updatedAt := now);
    :- Accept(guards.artifact);
    Ok(Updated(t.(attempts := t.attempts[attempt.Id() := attempt.(phase := target, updatedAt := now, failure := Some(code))],
                  executions := t.executions[a := nextState]),
               nextState))
  }

  /** The receipts that finalisation loads, in operation order, after those already loaded. */
  function LoadReceipts(t: Tables, a: ApplicationId, now: Stamp, done: seq<OperationReceipt>)
    : Result<seq<OperationReceipt>>
    requires |done| <= |a.operations|
    decreases |a.operations| - |done|
  {
    var i := |done|;
    if i == |a.operations| then Ok(done) else
    :- Need(OperationAt(a, i) in t.receipts, "application_receipt_incomplete");
    var receipt := t.receipts[OperationAt(a, i)];
    :- Need(receipt.index == i, "application_receipt_integrity_invalid");
    :- Need(ClockNotBefore(now, [receipt.completedAt]) && receipt.startedAt.At?, "execution_clock_invalid");
    LoadReceipts(t, a, now, done + [receipt])
  }

  function RefOf(receipt: OperationReceipt): ReceiptRef {
    ReceiptRef(ReceiptId(receipt.Id()), receipt)
  }

  function RefsOf(receipts: seq<OperationReceipt>): (refs: seq<ReceiptRef>)
    ensures |refs| == |receipts|
  {
    seq(|receipts|, i requires 0 <= i < |receipts| => RefOf(receipts[i]))
  }

  /** The row checks of finalising. */
  function FinalizableRow(t: Tables, a: ApplicationId, state: ExecutionState): Guard {
    if a !in t.executions then Fail(ValueError("application_not_found")) else
    var previous := t.executions[a];
    if !previous.managed then Fail(ValueError("application_orchestration_policy_mismatch"))
    else if previous != state || !previous.phase.PartiallyApplied? || previous.next != |a.operations|
         || previous.owner.Some? || previous.attempt.Some? then Fail(ValueError("application_finalization_invalid"))
    else Need(previous.startedAt.At? && previous.updatedAt.At?, "execution_clock_invalid")
  }

  /** `finalize_application`. */
  function Finalize(t: Tables, ctx: Context, state: ExecutionState, now: Stamp, guards: Guards): Result<Updated> {
    var a := ctx.application;
    :- Accept(guards.context);
    :- FinalizableRow(t, a, state);
    var receipts :- LoadReceipts(t, a, now, []);
    :- Need(ClockNotBefore(now, [state.startedAt, state.updatedAt]), "execution_clock_invalid");
    :- Need(receipts != [] && NoDuplicates(RefsOf(receipts)), "application_receipt_invalid");
    :- StateContinues(ctx, state);
    :- Accept(guards.artifact);
    var nextState := state.(phase := Applied, completedAt := Some(now), updatedAt := now);
    if a in t.applicationReceipts then Err(IntegrityError) else
    Ok(Updated(t.(applicationReceipts := t.applicationReceipts[a := ApplicationReceipt(a, a.operations, RefsOf(receipts), now, now)],
                  executions := t.executions[a := nextState]),
               nextState))
  }

  // ---- reads ----

  /** The receipts that a replay loads and compares with the application receipt. */
  function LoadReplay(t: Tables, a: ApplicationId, operations: seq<Operation>, receipt: ApplicationReceipt,
                      done: seq<OperationReceipt>): Result<seq<OperationReceipt>>
    requires |done| <= |operations| == |receipt.refs|
    decreases |operations| - |done|
  {
    var i := |done|;
    if i == |operations| then Ok(done) else
    var id := OperationId(a, i, operations[i]);
    :- Need(id in t.receipts, "operation_receipt_not_found");
    :- Need(t.receipts[id] == receipt.refs[i].digest, "application_receipt_integrity_invalid");
    LoadReplay(t, a, operations, receipt, done + [t.receipts[id]])
  }

  /** `get_execution` with the expected operations. */
  function GetReplay(t: Tables, a: ApplicationId, operations: seq<Operation>): Result<ExecutionState> {
    if a !in t.executions then Err(ValueError("application_not_found")) else
    var state := t.executions[a];
    :- Need(state.application == a, "application_binding_conflict");
    if !state.phase.Applied? then Ok(state) else
    :- Need(a in t.applicationReceipts, "application_receipt_not_found");
    var receipt := t.applicationReceipts[a];
    :- Need(receipt.application == a, "application_receipt_integrity_invalid");
    :- Need(seq(|receipt.refs|, i requires 0 <= i < |receipt.refs| => receipt.refs[i].id) == state.refs,
            "application_receipt_integrity_invalid");
    :- Need(|operations| == |receipt.refs|, "application_receipt_integrity_invalid");
    var receipts :- LoadReplay(t, a, operations, receipt, []);
    :- Need(forall i :: 0 <= i < |receipts| ==> receipts[i].index == i, "application_receipt_integrity_invalid");
    :- Need(receipt.Matches(operations, receipts), "application_replay_binding_invalid");
    Ok(state)
  }

  /** `get_execution` without expected operations. */
  function GetUnchecked(t: Tables, a: ApplicationId): Result<ExecutionState> {
    if a !in t.executions then Err(ValueError("application_not_found")) else
    :- Need(t.executions[a].application == a, "application_binding_conflict");
    :- Need(!t.executions[a].phase.Applied?, "application_replay_validation_required");
    Ok(t.executions[a])
  }
}
