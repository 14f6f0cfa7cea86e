/** What the generic calls keep of the applications they are meant for: over every sequence of them, receipts never
    change and an attempt stays bound to its operation; a transition follows the transition table, and only saving
    an attempt outright goes past it. */
module GenericRuns {
  import opened Outcomes
  import opened WriteOperations
  import opened ExecutionRecords
  import opened ExecutionTables
  import opened GenericCalls
  import opened ManagedRows

  /** Every receipt stored is stored still, and is the same. */
  ghost predicate KeepsReceipts(t: Tables, u: Tables) {
    && (forall id :: id in t.receipts ==> id in u.receipts && u.receipts[id] == t.receipts[id])
    && (forall a :: a in t.applicationReceipts ==>
          a in u.applicationReceipts && u.applicationReceipts[a] == t.applicationReceipts[a])
  }

  /** Every attempt stored is stored still, for the same operation under the same provenance. */
  ghost predicate KeepsBindings(t: Tables, u: Tables) {
    forall id :: id in t.attempts ==>
      && id in u.attempts && u.attempts[id].application == t.attempts[id].application
      && u.attempts[id].index == t.attempts[id].index && u.attempts[id].operation == t.attempts[id].operation
      && u.attempts[id].provenance == t.attempts[id].provenance
  }

  /** The steps that an attempt may take. */
  ghost predicate AttemptStep(before: Phase, after: Phase) {
    || (before == Pending && after in {Applying, Failed, Blocked})
    || (before == Applying && after in {Applied, Failed, Blocked, OutcomeUnknown})
  }

  /** The steps that an application may take by generic calls. */
  ghost predicate ApplicationStep(before: Phase, after: Phase) {
    || (before == Pending && after in {Applying, Failed, Blocked})
    || (before == Applying && after in {PartiallyApplied, Failed, Blocked, OutcomeUnknown})
    || (before == PartiallyApplied && after in {Applying, Failed, Blocked})
  }

  ghost predicate Keeps(t: Tables, u: Tables) {
    KeepsReceipts(t, u) && KeepsBindings(t, u)
  }

  lemma SavingExecutionKeeps(t: Tables, s: ExecutionState, refusal: Option<string>)
    requires PerformSaveExecution(t, s, refusal).Ok?
    ensures var u := PerformSaveExecution(t, s, refusal).value;
      Keeps(t, u) && u.attempts == t.attempts
  {
  }

  lemma SavingAttemptKeeps(t: Tables, x: Attempt, refusal: Option<string>)
    requires PerformSaveAttempt(t, x, refusal).Ok?
    ensures var u := PerformSaveAttempt(t, x, refusal).value;
      Keeps(t, u) && u.attempts == t.attempts[x.Id() := x] && u.executions == t.executions
  {
    if x.Id() in t.attempts && t.attempts[x.Id()] == x {
      assert t.attempts[x.Id() := x] == t.attempts;
    }
  }

  lemma AttemptTransitionKeeps(t: Tables, expected: Attempt, x: Attempt, refusal: Option<string>)
    requires PerformTransitionAttempt(t, expected, x, refusal).Ok?
    ensures var u := PerformTransitionAttempt(t, expected, x, refusal).value;
      && Keeps(t, u) && u.attempts == t.attempts[x.Id() := x] && u.executions == t.executions
      && x.Id() in t.attempts && t.attempts[x.Id()] == expected && AttemptStep(expected.phase, x.phase)
      && x.startedAt == expected.startedAt
  {
  }

  lemma ExecutionTransitionKeeps(t: Tables, expected: ExecutionState, s: ExecutionState, refusal: Option<string>)
    requires PerformTransitionExecution(t, expected, s, refusal).Ok?
    ensures var u := PerformTransitionExecution(t, expected, s, refusal).value;
      Keeps(t, u) && u.attempts == t.attempts
  {
    hide ValidateApplicationTransition, AppendedReceiptStored;
  }

  /** The calls that only insert what is not there. */
  ghost predicate OnlyInserts(call: GenericCall) {
    call.CreateAttemptIfAbsent? || call.RecordOperationReceipt? || call.RecordApplicationReceipt?
  }

  /** No row of `t` is missing or different in `u`. */
  ghost predicate Within(t: Tables, u: Tables) {
    && u.executions == t.executions && KeepsReceipts(t, u)
    && forall id :: id in t.attempts ==> id in u.attempts && u.attempts[id] == t.attempts[id]
  }

  lemma CreationKeeps(t: Tables, x: Attempt, orchestrated: bool, refusal: Option<string>)
    requires Perform(t, CreateAttemptIfAbsent(x), orchestrated, refusal).Ok?
    ensures Within(t, Perform(t, CreateAttemptIfAbsent(x), orchestrated, refusal).value)
  {
    hide RejectManaged;
  }

  lemma ReceiptInsertionKeeps(t: Tables, r: OperationReceipt, orchestrated: bool, refusal: Option<string>)
    requires Perform(t, RecordOperationReceipt(r), orchestrated, refusal).Ok?
    ensures Within(t, Perform(t, RecordOperationReceipt(r), orchestrated, refusal).value)
  {
    hide RejectManaged;
  }

  lemma FinalReceiptInsertionKeeps(t: Tables, r: ApplicationReceipt, orchestrated: bool, refusal: Option<string>)
    requires Perform(t, RecordApplicationReceipt(r), orchestrated, refusal).Ok?
    ensures Within(t, Perform(t, RecordApplicationReceipt(r), orchestrated, refusal).value)
  {
    hide RejectManaged;
  }

  lemma InsertionKeeps(t: Tables, call: GenericCall, orchestrated: bool, refusal: Option<string>)
    requires OnlyInserts(call) && Perform(t, call, orchestrated, refusal).Ok?
    ensures Within(t, Perform(t, call, orchestrated, refusal).value)
  {
    hide Perform, Within;
    match call
    case CreateAttemptIfAbsent(x) => CreationKeeps(t, x, orchestrated, refusal);
    case RecordOperationReceipt(r) => ReceiptInsertionKeeps(t, r, orchestrated, refusal);
    case RecordApplicationReceipt(r) => FinalReceiptInsertionKeeps(t, r, orchestrated, refusal);
  }

  lemma CallKeeps(t: Tables, call: GenericCall, orchestrated: bool, refusal: Option<string>)
    requires Perform(t, call, orchestrated, refusal).Ok?
    ensures Keeps(t, Perform(t, call, orchestrated, refusal).value)
  {
    hide PerformSaveExecution, PerformSaveAttempt, PerformTransitionAttempt, PerformTransitionExecution, RejectManaged;
    hide KeepsReceipts;
    if OnlyInserts(call) {
      InsertionKeeps(t, call, orchestrated, refusal);
    } else {
      match call
      case SaveExecution(s) => SavingExecutionKeeps(t, s, refusal);
      case SaveAttempt(x) => SavingAttemptKeeps(t, x, refusal);
      case TransitionAttempt(expected, x) => AttemptTransitionKeeps(t, expected, x, refusal);
      case TransitionExecution(expected, s) => ExecutionTransitionKeeps(t, expected, s, refusal);
    }
  }

  /** Over every sequence of generic calls, whoever makes them: no receipt is lost or changed, and no attempt is
      lost or bound to another operation. */
  lemma {:induction false} ReceiptsNeverChange(t: Tables, steps: seq<GenericStep>)
    ensures KeepsReceipts(t, PerformAll(t, steps)) && KeepsBindings(t, PerformAll(t, steps))
    decreases |steps|
  {
    hide Perform;
    if steps != [] {
      var step := steps[0];
      if Perform(t, step.call, step.orchestrated, step.refusal).Ok? {
        CallKeeps(t, step.call, step.orchestrated, step.refusal);
      }
      ReceiptsNeverChange(PerformOne(t, step), steps[1..]);
    }
  }

  /** From one set of tables to the next, a stored attempt is the same or was changed by this call: by a step of the
      table from exactly the attempt expected, keeping its start, or by saving it outright. */
  ghost predicate AttemptFollows(t: Tables, u: Tables, call: GenericCall, id: OperationId)
    requires id in t.attempts
  {
    && id in u.attempts
    && (u.attempts[id] == t.attempts[id]
        || (call.SaveAttempt? && call.attempt.Id() == id && u.attempts[id] == call.attempt)
        || (call.TransitionAttempt? && call.attempt.Id() == id && u.attempts[id] == call.attempt
            && t.attempts[id] == call.expectedAttempt && AttemptStep(t.attempts[id].phase, u.attempts[id].phase)
            && u.attempts[id].startedAt == t.attempts[id].startedAt))
  }

  lemma AttemptsFollowTable(t: Tables, call: GenericCall, orchestrated: bool, refusal: Option<string>, id: OperationId)
    requires Perform(t, call, orchestrated, refusal).Ok? && id in t.attempts
    ensures AttemptFollows(t, Perform(t, call, orchestrated, refusal).value, call, id)
  {
    hide PerformSaveExecution, PerformSaveAttempt, PerformTransitionAttempt, PerformTransitionExecution, RejectManaged;
    hide Keeps, KeepsReceipts, AttemptStep;
    if OnlyInserts(call) {
      InsertionKeeps(t, call, orchestrated, refusal);
    } else {
      match call
      case SaveExecution(s) => SavingExecutionKeeps(t, s, refusal);
      case SaveAttempt(x) => SavingAttemptKeeps(t, x, refusal);
      case TransitionAttempt(expected, x) => AttemptTransitionKeeps(t, expected, x, refusal);
      case TransitionExecution(expected, s) => ExecutionTransitionKeeps(t, expected, s, refusal);
    }
  }

  /** From one set of tables to the next, a stored application is the same, or it is unmanaged and was changed by this
      call, under the same anchor: by a step of the table from exactly the state expected, or by saving it
      outright. */
  ghost predicate ApplicationFollows(t: Tables, u: Tables, call: GenericCall, a: ApplicationId)
    requires a in t.executions
  {
    && a in u.executions
    && (u.executions[a] == t.executions[a]
        || (&& call.Application() == a && !t.executions[a].managed && !u.executions[a].managed
            && u.executions[a].anchor == t.executions[a].anchor
            && (call.SaveExecution? || (call.TransitionExecution? && FollowsTable(t, u, call.expectedState, a)))))
  }

  lemma ApplicationsFollowTable(t: Tables, call: GenericCall, orchestrated: bool, refusal: Option<string>,
                                a: ApplicationId)
    requires Perform(t, call, orchestrated, refusal).Ok? && a in t.executions
    ensures ApplicationFollows(t, Perform(t, call, orchestrated, refusal).value, call, a)
  {
    hide PerformSaveExecution, PerformSaveAttempt, PerformTransitionAttempt, PerformTransitionExecution;
    hide Keeps, KeepsReceipts, AttemptStep, FollowsTable;
    if OnlyInserts(call) {
      InsertionKeeps(t, call, orchestrated, refusal);
    } else {
      match call
      case SaveExecution(s) => SavedFollows(t, s, refusal, a);
      case SaveAttempt(x) => SavingAttemptKeeps(t, x, refusal);
      case TransitionAttempt(expected, x) => AttemptTransitionKeeps(t, expected, x, refusal);
      case TransitionExecution(expected, s) => TransitionFollows(t, expected, s, refusal);
    }
  }

  lemma SavedFollows(t: Tables, s: ExecutionState, refusal: Option<string>, a: ApplicationId)
    requires PerformSaveExecution(t, s, refusal).Ok? && a in t.executions
    ensures var u := PerformSaveExecution(t, s, refusal).value;
      && a in u.executions
      && (s.application != a ==> u.executions[a] == t.executions[a])
      && (s.application == a ==> u.executions[a] == s && s.anchor == t.executions[a].anchor)
  {
  }

  ghost predicate FollowsTable(t: Tables, u: Tables, expected: ExecutionState, a: ApplicationId)
    requires a in t.executions && a in u.executions
  {
    var before, after := t.executions[a], u.executions[a];
    && before == expected && ApplicationStep(before.phase, after.phase) && after.startedAt == before.startedAt
    && before.refs <= after.refs && |after.refs| <= |before.refs| + 1
    && (after.refs != before.refs ==>
          before.phase == Applying && after.phase == PartiallyApplied
          && before.next < |a.operations| && after.refs[|before.refs|] == ReceiptId(OperationAt(a, before.next))
          && OperationAt(a, before.next) in t.receipts)
    && Hands(before, after)
  }

  /** Who holds the claim before and after a step: nobody while nothing is applied, the claimant while something is, and a
      step that ends the application leaves the attempt it ended at. */
  ghost predicate Hands(before: ExecutionState, after: ExecutionState) {
    && (before.phase == Pending || before.phase == PartiallyApplied ==> before.owner == None && before.attempt == None)
    && (after.phase == Applying ==> after.owner.Some? && after.owner != Some("") && after.attempt.Some?)
    && (after.phase == PartiallyApplied ==>
          after.owner == None && after.attempt == None && |after.refs| == |before.refs| + 1)
    && (after.phase in {Failed, Blocked, OutcomeUnknown} ==>
          after.attempt == before.attempt && (after.owner == None || after.owner == before.owner))
    && after.next == |after.refs|
  }

  lemma TransitionFollows(t: Tables, expected: ExecutionState, s: ExecutionState, refusal: Option<string>)
    requires PerformTransitionExecution(t, expected, s, refusal).Ok?
    ensures var u := PerformTransitionExecution(t, expected, s, refusal).value;
      && s.application in t.executions && u.executions == t.executions[s.application := s]
      && FollowsTable(t, u, expected, s.application)
      && s.managed == expected.managed && s.anchor == expected.anchor
  {
    var before := t.executions[s.application];
    if s.next == before.next + 1 {
      assert s.refs[..|s.refs| - 1] == before.refs;
    }
  }

  /** Saving outright does go past the table: an applied attempt of an unmanaged application becomes pending again. */
  lemma SavingGoesPastTable() returns (t: Tables, attempt: Attempt, u: Tables)
    ensures attempt.Id() in t.attempts && t.attempts[attempt.Id()].phase == Applied
    ensures Perform(t, SaveAttempt(attempt), false, None) == Ok(u)
    ensures u.attempts[attempt.Id()].phase == Pending && !AttemptStep(Applied, Pending)
  {
    var op := CreateOf("item");
    var a := ApplicationId("r", [op], "");
    attempt := Attempt(a, 0, op, Provenance("p", "i", "c", "d", "r", "a"), Pending, At(0), At(0), None);
    t := EmptyTables.(attempts := map[attempt.Id() := attempt.(phase := Applied)]);
    u := EmptyTables.(attempts := map[attempt.Id() := attempt]);
    assert t.attempts[attempt.Id() := attempt] == u.attempts;
  }

  /** Saving an attempt outright over a stored one succeeds or fails whatever the two phases are. */
  lemma SavingIgnoresTable(t: Tables, x: Attempt, orchestrated: bool, refusal: Option<string>)
    requires x.Id() in t.attempts
    ensures Perform(t, SaveAttempt(x), orchestrated, refusal).Ok? <==>
              && !orchestrated && (x.application in t.executions ==> !t.executions[x.application].managed)
              && (t.attempts[x.Id()] == x || (SameAttemptBinding(t.attempts[x.Id()], x) && refusal.None?))
  {
  }

  /** Short of saving it outright, an ended attempt stays as it is over every sequence of generic calls. */
  lemma {:induction false} EndedAttemptIsFinal(t: Tables, steps: seq<GenericStep>, id: OperationId)
    requires id in t.attempts && t.attempts[id].phase in {Applied, Failed, Blocked, OutcomeUnknown}
    requires forall k :: 0 <= k < |steps| && steps[k].call.SaveAttempt? ==> steps[k].call.attempt.Id() != id
    ensures var u := PerformAll(t, steps);
      id in u.attempts && u.attempts[id] == t.attempts[id]
    decreases |steps|
  {
    hide Perform;
    if steps != [] {
      var step := steps[0];
      if Perform(t, step.call, step.orchestrated, step.refusal).Ok? {
        AttemptsFollowTable(t, step.call, step.orchestrated, step.refusal, id);
      }
      EndedAttemptIsFinal(PerformOne(t, step), steps[1..], id);
    }
  }

  /** Short of saving it outright, an ended application stays as it is over every sequence of generic calls. */
  lemma {:induction false} EndedApplicationIsFinal(t: Tables, steps: seq<GenericStep>, a: ApplicationId)
    requires a in t.executions && t.executions[a].phase in {Applied, Failed, Blocked, OutcomeUnknown}
    requires forall k :: 0 <= k < |steps| && steps[k].call.SaveExecution? ==> steps[k].call.state.application != a
    ensures var u := PerformAll(t, steps);
      a in u.executions && u.executions[a] == t.executions[a]
    decreases |steps|
  {
    hide Perform;
    if steps != [] {
      var step := steps[0];
      if Perform(t, step.call, step.orchestrated, step.refusal).Ok? {
        ApplicationsFollowTable(t, step.call, step.orchestrated, step.refusal, a);
      }
      EndedApplicationIsFinal(PerformOne(t, step), steps[1..], a);
    }
  }
}
