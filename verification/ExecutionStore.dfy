/** The execution store: four tables, updated row by row.  Each method commits exactly the step that
    `ExecutionTables` or `GenericCalls` gives for the tables it found, or raises and commits nothing. */
module ExecutionStore {
  import opened Outcomes
  import opened Sequences
  import opened WriteOperations
  import opened ExecutionRecords
  import opened ExecutionTables
  import opened GenericCalls

  class Store {
    var executions: map<ApplicationId, ExecutionState>
    var attempts: map<OperationId, Attempt>
    var receipts: map<OperationId, OperationReceipt>
    var applicationReceipts: map<ApplicationId, ApplicationReceipt>

    function Snapshot(): Tables
      reads this
    {
      Tables(executions, attempts, receipts, applicationReceipts)
    }

    constructor ()
      ensures Snapshot() == EmptyTables
    {
      executions, attempts, receipts, applicationReceipts := map[], map[], map[], map[];
    }

    method CreateExecutionIfAbsent(state: ExecutionState, guards: Guards) returns (r: Result<ExecutionState>)
      modifies this
      ensures var c := Create(old(Snapshot()), state, guards);
        && Snapshot() == (if c.Ok? then c.value.tables else old(Snapshot()))
        && r == (if c.Ok? then Ok(c.value.state) else Err(c.error))
    {
      if guards.context.Some? {
        return Err(ValueError(guards.context.value));
      }
      if !InitialState(state) {
        return Err(ValueError("application_initial_state_invalid"));
      }
      if guards.artifact.Some? {
        return Err(ValueError(guards.artifact.value));
      }
      if state.application in executions {
        var existing := executions[state.application];
        if existing.application != state.application || existing.anchor != state.anchor {
          return Err(ValueError("application_binding_conflict"));
        }
        if !existing.managed {
          return Err(ValueError("application_orchestration_policy_mismatch"));
        }
        return Ok(existing);
      }
      executions := executions[state.application := state];
      return Ok(state);
    }

    method CheckClaimable(a: ApplicationId, expected: ExecutionState, now: Stamp) returns (g: Guard)
      ensures g == ClaimableRow(Snapshot(), a, expected, now)
    {
      if a !in executions {
        return Fail(ValueError("application_not_found"));
      }
      var previous := executions[a];
      if !previous.managed {
        return Fail(ValueError("application_orchestration_policy_mismatch"));
      }
      if previous != expected {
        return Fail(ValueError("application_state_stale"));
      }
      if (previous.phase != Pending && previous.phase != PartiallyApplied) || previous.owner.Some? || previous.attempt.Some? {
        return Fail(ValueError("application_claim_unavailable"));
      }
      if previous.next >= |a.operations| {
        return Fail(ValueError("application_already_complete"));
      }
      return Need(ClockNotBefore(now, [previous.startedAt, previous.updatedAt]), "execution_clock_invalid");
    }

    method ClaimNextOperation(ctx: Context, expected: ExecutionState, owner: string, now: Stamp, guards: Guards)
      returns (r: Result<(ExecutionState, Attempt)>)
      modifies this
      ensures var c := Claim(old(Snapshot()), ctx, expected, owner, now, guards);
        && Snapshot() == (if c.Ok? then c.value.tables else old(Snapshot()))
        && r == (if c.Ok? then Ok((c.value.state, c.value.attempt)) else Err(c.error))
    {
      if !ValidOwner(owner) {
        return Err(ValueError("application_coordination_invalid"));
      }
      if guards.context.Some? {
        return Err(ValueError(guards.context.value));
      }
      var g := CheckClaimable(ctx.application, expected, now);
      if g.Fail? {
        return Err(g.error);
      }
      var previous := executions[ctx.application];
      var attempt := NewAttempt(ctx, previous.next, now);
      if previous.anchor != ctx.Anchor() {
        return Err(ValueError("credential_continuity_mismatch"));
      }
      var candidate := previous.(phase := Applying, owner := Some(owner), attempt := Some(attempt.Id()), updatedAt := now);
      if guards.artifact.Some? {
        return Err(ValueError(guards.artifact.value));
      }
      if attempt.Id() in attempts {
        return Err(IntegrityError);
      }
      attempts := attempts[attempt.Id() := attempt];
      executions := executions[ctx.application := candidate];
      return Ok((candidate, attempt));
    }

    /** `validate_claim`. */
    method CheckHeldClaim(ctx: Context, state: ExecutionState, attempt: Attempt, owner: string, guards: Guards)
      returns (g: Guard)
      ensures g == ValidateClaim(Snapshot(), ctx, state, attempt, owner, guards)
    {
      if guards.context.Some? {
        return Fail(ValueError(guards.context.value));
      }
      if ctx.application !in executions {
        return Fail(ValueError("application_not_found"));
      }
      var stored := executions[ctx.application];
      if stored.application != ctx.application {
        return Fail(ValueError("application_binding_conflict"));
      }
      if stored.phase == Applied {
        return Fail(ValueError("application_replay_validation_required"));
      }
      if attempt.Id() !in attempts {
        return Fail(ValueError("operation_attempt_not_found"));
      }
      if !stored.managed {
        return Fail(ValueError("application_orchestration_policy_mismatch"));
      }
      return Need(HoldsClaim(stored, attempts[attempt.Id()], state, attempt, owner), "application_claim_stale");
    }

    /** The row checks shared by completing and settling. */
    method CheckClaim(ctx: Context, state: ExecutionState, attempt: Attempt, owner: string) returns (g: Guard)
      ensures g == (var c := ClaimedRow(Snapshot(), ctx, state, attempt, owner);
                    if c.Ok? then Pass else Fail(c.error))
    {
      if ctx.application !in executions || attempt.Id() !in attempts {
        return Fail(ValueError("application_claim_stale"));
      }
      if !executions[ctx.application].managed {
        return Fail(ValueError("application_orchestration_policy_mismatch"));
      }
      return Need(HoldsClaim(executions[ctx.application], attempts[attempt.Id()], state, attempt, owner),
                  "application_claim_stale");
    }

    method CompleteOperationSuccess(ctx: Context, state: ExecutionState, attempt: Attempt, owner: string,
                                    receipt: OperationReceipt, now: Stamp, guards: Guards)
      returns (r: Result<ExecutionState>)
      modifies this
      ensures var c := Complete(old(Snapshot()), ctx, state, attempt, owner, receipt, now, guards);
        && Snapshot() == (if c.Ok? then c.value.tables else old(Snapshot()))
        && r == (if c.Ok? then Ok(c.value.state) else Err(c.error))
    {
      hide AttemptContinues, StateContinues, ClaimedRow, HoldsClaim;
      if guards.context.Some? {
        return Err(ValueError(guards.context.value));
      }
      var g := CheckClaim(ctx, state, attempt, owner);
      if g.Fail? {
        return Err(g.error);
      }
      if receipt.application != ctx.application || receipt.index != attempt.index || receipt.Id() != attempt.Id() {
        return Err(ValueError("receipt_binding_conflict"));
      }
      if !ClockNotBefore(now, [state.startedAt, state.updatedAt, attempt.startedAt, attempt.updatedAt])
      || !ClockNotBefore(now, [receipt.startedAt, receipt.completedAt]) {
        return Err(ValueError("execution_clock_invalid"));
      }
      g := AttemptContinues(ctx, attempt);
      if g.Fail? {
        return Err(g.error);
      }
      g := StateContinues(ctx, state);
      if g.Fail? {
        return Err(g.error);
      }
      if guards.artifact.Some? {
        return Err(ValueError(guards.artifact.value));
      }
      if receipt.Id() in receipts {
        return Err(IntegrityError);
      }
      receipts := receipts[receipt.Id() := receipt];
      attempts := attempts[attempt.Id() := attempt.(phase := Applied, updatedAt := now)];
      var nextState := state.(phase := PartiallyApplied, next := state.next + 1,
                              refs := state.refs + [ReceiptId(receipt.Id())],
                              owner := None, attempt := None, updatedAt := now);
      executions := executions[ctx.application := nextState];
      return Ok(nextState);
    }

    method SettleOperation(ctx: Context, state: ExecutionState, attempt: Attempt, owner: string,
                           target: Phase, code: string, now: Stamp, guards: Guards)
      returns (r: Result<ExecutionState>)
      modifies this
      ensures var c := Settle(old(Snapshot()), ctx, state, attempt, owner, target, code, now, guards);
        && Snapshot() == (if c.Ok? then c.value.tables else old(Snapshot()))
        && r == (if c.Ok? then Ok(c.value.state) else Err(c.error))
    {
      hide AttemptContinues, StateContinues, ClaimedRow, HoldsClaim;
      if target != Failed && target != Blocked && target != OutcomeUnknown {
        return Err(ValueError("application_state_transition_invalid"));
      }
      if guards.context.Some? {
        return Err(ValueError(guards.context.value));
      }
      var g := CheckClaim(ctx, state, attempt, owner);
      if g.Fail? {
        return Err(g.error);
      }
      g := AttemptContinues(ctx, attempt);
      if g.Fail? {
        return Err(g.error);
      }
      g := StateContinues(ctx, state);
      if g.Fail? {
        return Err(g.error);
      }
      if guards.artifact.Some? {
        return Err(ValueError(guards.artifact.value));
      }
      attempts := attempts[attempt.Id() := attempt.(phase := target, updatedAt := now, failure := Some(code))];
      var nextState := state.(phase := target, owner := None, recovery := Some(code), updatedAt := now);
      executions := executions[ctx.application := nextState];
      return Ok(nextState);
    }

    method CheckFinalizable(a: ApplicationId, state: ExecutionState) returns (g: Guard)
      ensures g == FinalizableRow(Snapshot(), a, state)
    {
      if a !in executions {
        return Fail(ValueError("application_not_found"));
      }
      var previous := executions[a];
      if !previous.managed {
        return Fail(ValueError("application_orchestration_policy_mismatch"));
      }
      if previous != state || previous.phase != PartiallyApplied || previous.next != |a.operations|
      || previous.owner.Some? || previous.attempt.Some? {
        return Fail(ValueError("application_finalization_invalid"));
      }
      return Need(previous.startedAt.At? && previous.updatedAt.At?, "execution_clock_invalid");
    }

    /** The loop of finalisation that loads every operation's receipt. */
    method LoadAllReceipts(a: ApplicationId, now: Stamp) returns (r: Result<seq<OperationReceipt>>)
      ensures r == LoadReceipts(Snapshot(), a, now, [])
    {
      var loaded: seq<OperationReceipt> := [];
      for index := 0 to |a.operations|
        invariant |loaded| == index
        invariant LoadReceipts(Snapshot(), a, now, []) == LoadReceipts(Snapshot(), a, now, loaded)
      {
        var id := OperationAt(a, index);
        if id !in receipts {
          return Err(ValueError("application_receipt_incomplete"));
        }
        var receipt := receipts[id];
        if receipt.index != index {
          return Err(ValueError("application_receipt_integrity_invalid"));
        }
        if !ClockNotBefore(now, [receipt.completedAt]) || !receipt.startedAt.At? {
          return Err(ValueError("execution_clock_invalid"));
        }
        loaded := loaded + [receipt];
      }
      return Ok(loaded);
    }

    method FinalizeApplication(ctx: Context, state: ExecutionState, now: Stamp, guards: Guards)
      returns (r: Result<ExecutionState>)
      modifies this
      ensures var c := Finalize(old(Snapshot()), ctx, state, now, guards);
        && Snapshot() == (if c.Ok? then c.value.tables else old(Snapshot()))
        && r == (if c.Ok? then Ok(c.value.state) else Err(c.error))
    {
      if guards.context.Some? {
        return Err(ValueError(guards.context.value));
      }
      var a := ctx.application;
      var g := CheckFinalizable(a, state);
      if g.Fail? {
        return Err(g.error);
      }
      var loaded := LoadAllReceipts(a, now);
      if loaded.Err? {
        return Err(loaded.error);
      }
      if !ClockNotBefore(now, [state.startedAt, state.updatedAt]) {
        return Err(ValueError("execution_clock_invalid"));
      }
      var refs := RefsOf(loaded.value);
      if loaded.value == [] || !NoDuplicates(refs) {
        return Err(ValueError("application_receipt_invalid"));
      }
      g := StateContinues(ctx, state);
      if g.Fail? {
        return Err(g.error);
      }
      if guards.artifact.Some? {
        return Err(ValueError(guards.artifact.value));
      }
      if a in applicationReceipts {
        return Err(IntegrityError);
      }
      applicationReceipts := applicationReceipts[a := ApplicationReceipt(a, a.operations, refs, now, now)];
      var nextState := state.(phase := Applied, completedAt := Some(now), updatedAt := now);
      executions := executions[a := nextState];
      return Ok(nextState);
    }

    /** `get_execution` with the expected operations: the replay check. */
    method GetExecution(a: ApplicationId, operations: seq<Operation>) returns (r: Result<ExecutionState>)
      ensures r == GetReplay(Snapshot(), a, operations)
    {
      if a !in executions {
        return Err(ValueError("application_not_found"));
      }
      var state := executions[a];
      if state.application != a {
        return Err(ValueError("application_binding_conflict"));
      }
      if state.phase != Applied {
        return Ok(state);
      }
      if a !in applicationReceipts {
        return Err(ValueError("application_receipt_not_found"));
      }
      var receipt := applicationReceipts[a];
      if receipt.application != a
      || seq(|receipt.refs|, i requires 0 <= i < |receipt.refs| => receipt.refs[i].id) != state.refs
      || |operations| != |receipt.refs| {
        return Err(ValueError("application_receipt_integrity_invalid"));
      }
      var loaded: seq<OperationReceipt> := [];
      for index := 0 to |operations|
        invariant |loaded| == index
        invariant LoadReplay(Snapshot(), a, operations, receipt, []) == LoadReplay(Snapshot(), a, operations, receipt, loaded)
      {
        var id := OperationId(a, index, operations[index]);
        if id !in receipts {
          return Err(ValueError("operation_receipt_not_found"));
        }
        if receipts[id] != receipt.refs[index].digest {
          return Err(ValueError("application_receipt_integrity_invalid"));
        }
        loaded := loaded + [receipts[id]];
      }
      if exists i :: 0 <= i < |loaded| && loaded[i].index != i {
        return Err(ValueError("application_receipt_integrity_invalid"));
      }
      var valid := receipt.ValidateAgainst(operations, loaded);
      if !valid {
        return Err(ValueError("application_replay_binding_invalid"));
      }
      return Ok(state);
    }

    // ---- the generic calls ----

    method SaveExecution(s: ExecutionState, orchestrated: bool, refusal: Option<string>) returns (g: Guard)
      modifies this
      ensures var c := Perform(old(Snapshot()), GenericCall.SaveExecution(s), orchestrated, refusal);
        && Snapshot() == (if c.Ok? then c.value else old(Snapshot()))
        && g == (if c.Ok? then Pass else Fail(c.error))
    {
      if orchestrated || s.managed {
        return Fail(ValueError("applier_orchestration_required"));
      }
      if s.application in executions && executions[s.application].managed {
        return Fail(ValueError("applier_orchestration_required"));
      }
      if s.application in executions {
        var existing := executions[s.application];
        if existing == s {
          return Pass;
        }
        if existing.application != s.application || existing.anchor != s.anchor {
          return Fail(ValueError("application_binding_conflict"));
        }
      }
      if refusal.Some? {
        return Fail(ValueError(refusal.value));
      }
      executions := executions[s.application := s];
      return Pass;
    }

    method SaveAttempt(x: Attempt, orchestrated: bool, refusal: Option<string>) returns (g: Guard)
      modifies this
      ensures var c := Perform(old(Snapshot()), GenericCall.SaveAttempt(x), orchestrated, refusal);
        && Snapshot() == (if c.Ok? then c.value else old(Snapshot()))
        && g == (if c.Ok? then Pass else Fail(c.error))
    {
      if orchestrated {
        return Fail(ValueError("applier_orchestration_required"));
      }
      if x.application in executions && executions[x.application].managed {
        return Fail(ValueError("applier_orchestration_required"));
      }
      if x.Id() in attempts {
        if attempts[x.Id()] == x {
          return Pass;
        }
        if !SameAttemptBinding(attempts[x.Id()], x) {
          return Fail(ValueError("operation_attempt_binding_conflict"));
        }
      }
      if refusal.Some? {
        return Fail(ValueError(refusal.value));
      }
      attempts := attempts[x.Id() := x];
      return Pass;
    }

    method CreateAttemptIfAbsent(x: Attempt, orchestrated: bool, refusal: Option<string>) returns (g: Guard)
      modifies this
      ensures var c := Perform(old(Snapshot()), GenericCall.CreateAttemptIfAbsent(x), orchestrated, refusal);
        && Snapshot() == (if c.Ok? then c.value else old(Snapshot()))
        && g == (if c.Ok? then Pass else Fail(c.error))
    {
      if orchestrated {
        return Fail(ValueError("applier_orchestration_required"));
      }
      if x.phase != Applying || x.failure.Some? {
        return Fail(ValueError("operation_attempt_claim_state_invalid"));
      }
      if x.application in executions && executions[x.application].managed {
        return Fail(ValueError("applier_orchestration_required"));
      }
      if x.Id() in attempts {
        return Fail(ValueError("operation_attempt_already_exists"));
      }
      if refusal.Some? {
        return Fail(ValueError(refusal.value));
      }
      attempts := attempts[x.Id() := x];
      return Pass;
    }

    method TransitionAttempt(expected: Attempt, x: Attempt, orchestrated: bool,
                             refusal: Option<string>) returns (g: Guard)
      modifies this
      ensures var c := Perform(old(Snapshot()), GenericCall.TransitionAttempt(expected, x), orchestrated, refusal);
        && Snapshot() == (if c.Ok? then c.value else old(Snapshot()))
        && g == (if c.Ok? then Pass else Fail(c.error))
    {
      hide SuccessorAttemptPhases, SameAttemptBinding;
      if orchestrated {
        return Fail(ValueError("applier_orchestration_required"));
      }
      if x.application in executions && executions[x.application].managed {
        return Fail(ValueError("applier_orchestration_required"));
      }
      if x.Id() !in attempts {
        return Fail(ValueError("operation_attempt_not_found"));
      }
      var previous := attempts[x.Id()];
      if previous != expected {
        return Fail(ValueError("attempt_state_stale"));
      }
      if x.phase !in SuccessorAttemptPhases(previous.phase) {
        return Fail(ValueError("attempt_state_transition_invalid"));
      }
      if refusal.Some? {
        return Fail(ValueError(refusal.value));
      }
      if !SameAttemptBinding(previous, x) || previous.startedAt != x.startedAt {
        return Fail(ValueError("operation_attempt_binding_conflict"));
      }
      attempts := attempts[x.Id() := x];
      return Pass;
    }

    method TransitionExecution(expected: ExecutionState, s: ExecutionState, orchestrated: bool,
                               refusal: Option<string>) returns (g: Guard)
      modifies this
      ensures var c := Perform(old(Snapshot()), GenericCall.TransitionExecution(expected, s), orchestrated, refusal);
        && Snapshot() == (if c.Ok? then c.value else old(Snapshot()))
        && g == (if c.Ok? then Pass else Fail(c.error))
    {
      hide ValidateApplicationTransition, AppendedReceiptStored;
      if orchestrated {
        return Fail(ValueError("applier_orchestration_required"));
      }
      if s.application in executions && executions[s.application].managed {
        return Fail(ValueError("applier_orchestration_required"));
      }
      if s.application !in executions {
        return Fail(ValueError("application_not_found"));
      }
      var previous := executions[s.application];
      if previous != expected {
        return Fail(ValueError("application_state_stale"));
      }
      if s.phase == Applied {
        return Fail(ValueError("application_finalization_required"));
      }
      g := ValidateApplicationTransition(previous, s);
      if g.Fail? {
        return;
      }
      if refusal.Some? {
        return Fail(ValueError(refusal.value));
      }
      if s.next == previous.next + 1 && !AppendedReceiptStored(Snapshot(), previous, s) {
        return Fail(ValueError("application_progress_invalid"));
      }
      executions := executions[s.application := s];
      return Pass;
    }

    method RecordOperationReceipt(x: OperationReceipt, orchestrated: bool, refusal: Option<string>) returns (g: Guard)
      modifies this
      ensures var c := Perform(old(Snapshot()), GenericCall.RecordOperationReceipt(x), orchestrated, refusal);
        && Snapshot() == (if c.Ok? then c.value else old(Snapshot()))
        && g == (if c.Ok? then Pass else Fail(c.error))
    {
      if orchestrated {
        return Fail(ValueError("applier_orchestration_required"));
      }
      if x.application in executions && executions[x.application].managed {
        return Fail(ValueError("applier_orchestration_required"));
      }
      if x.Id() in receipts {
        return Need(receipts[x.Id()] == x, "receipt_binding_conflict");
      }
      if refusal.Some? {
        return Fail(ValueError(refusal.value));
      }
      receipts := receipts[x.Id() := x];
      return Pass;
    }

    method RecordApplicationReceipt(x: ApplicationReceipt, orchestrated: bool,
                                    refusal: Option<string>) returns (g: Guard)
      modifies this
      ensures var c := Perform(old(Snapshot()), GenericCall.RecordApplicationReceipt(x), orchestrated, refusal);
        && Snapshot() == (if c.Ok? then c.value else old(Snapshot()))
        && g == (if c.Ok? then Pass else Fail(c.error))
    {
      if orchestrated {
        return Fail(ValueError("applier_orchestration_required"));
      }
      if x.application in executions && executions[x.application].managed {
        return Fail(ValueError("applier_orchestration_required"));
      }
      if x.application in applicationReceipts {
        return Need(applicationReceipts[x.application] == x, "receipt_binding_conflict");
      }
      if refusal.Some? {
        return Fail(ValueError(refusal.value));
      }
      applicationReceipts := applicationReceipts[x.application := x];
      return Pass;
    }
  }
}
