/** The durable records of a managed application and the checks on single records.
    A digest is modelled by the value it digests, so equality of digests is equality of records. */
module ExecutionRecords {
  import opened Outcomes
  import opened WriteOperations

  /** The logical identity of an application.  It holds the digest of its operation set, hence the set. */
  datatype ApplicationId = ApplicationId(repository: string, operations: seq<Operation>, bindings: string)

  datatype OperationId = OperationId(application: ApplicationId, index: nat, operation: Operation)

  datatype ReceiptId = ReceiptId(operation: OperationId)

  /** The identity of the operation that an application runs at an index. */
  function OperationAt(a: ApplicationId, index: nat): OperationId
    requires index < |a.operations|
  {
    OperationId(a, index, a.operations[index])
  }

  /** A timestamp column: a normalised UTC instant, or text the clock parser rejects. */
  datatype Stamp = At(time: int) | Malformed(text: string)

  /** `_require_clock_not_before`: every stamp parses and none of the prior ones is later. */
  predicate ClockNotBefore(candidate: Stamp, prior: seq<Stamp>) {
    candidate.At? && forall i :: 0 <= i < |prior| ==> NotBefore(candidate, prior[i])
  }

  predicate NotBefore(candidate: Stamp, prior: Stamp) {
    candidate.At? && prior.At? && prior.time <= candidate.time
  }

  datatype Provenance = Provenance(principal: string, issuer: string, credentialInstance: string,
                                   driver: string, remoteAuthority: string, authority: string)

  datatype Anchor = Principal(id: string) | LegacyInstance(issuer: string, credentialInstance: string)

  /** The continuity anchor that a provenance stands for. */
  function AnchorOf(p: Provenance): Anchor {
    if p.principal != "" then Principal(p.principal) else LegacyInstance(p.issuer, p.credentialInstance)
  }

  datatype Phase = Pending | Applying | PartiallyApplied | Failed | Blocked | OutcomeUnknown | Applied

  datatype ExecutionState = ExecutionState(
    application: ApplicationId,
    phase: Phase,
    next: nat,
    owner: Option<string>,
    attempt: Option<OperationId>,
    recovery: Option<string>,
    refs: seq<ReceiptId>,
    startedAt: Stamp,
    updatedAt: Stamp,
    completedAt: Option<Stamp>,
    anchor: Anchor,
    managed: bool)
  {
    /** What the constructor of the record enforces. */
    ghost predicate Constructed() {
      && (forall i, j :: 0 <= i < j < |refs| ==> refs[i] != refs[j])
      && (phase.Pending? || phase.PartiallyApplied? ==> owner.None? && attempt.None?)
    }
  }

  datatype Attempt = Attempt(
    application: ApplicationId,
    index: nat,
    operation: Operation,
    provenance: Provenance,
    phase: Phase,
    startedAt: Stamp,
    updatedAt: Stamp,
    failure: Option<string>)
  {
    function Id(): OperationId {
      OperationId(application, index, operation)
    }
  }

  datatype Field = Text(text: string) | Number(number: int)

  datatype RemoteResult = RemoteResult(kind: string, identity: string, payload: map<string, Field>)

  datatype OperationReceipt = OperationReceipt(
    application: ApplicationId,
    index: nat,
    operation: Operation,
    provenance: Provenance,
    remote: RemoteResult,
    startedAt: Stamp,
    completedAt: Stamp)
  {
    function Id(): OperationId {
      OperationId(application, index, operation)
    }
  }

  /** A reference from an application receipt: an operation receipt id and the receipt's digest. */
  datatype ReceiptRef = ReceiptRef(id: ReceiptId, digest: OperationReceipt)

  datatype ApplicationReceiptId = ApplicationReceiptId(application: ApplicationId)

  datatype ApplicationReceipt = ApplicationReceipt(
    application: ApplicationId,
    operationSet: seq<Operation>,
    refs: seq<ReceiptRef>,
    startedAt: Stamp,
    completedAt: Stamp)
  {
    function Id(): ApplicationReceiptId {
      ApplicationReceiptId(application)
    }

    /** What `validate_against` demands of the expected operations and the loaded receipts. */
    predicate Matches(operations: seq<Operation>, receipts: seq<OperationReceipt>) {
      && operationSet == application.operations
      && |operations| == |receipts| == |refs|
      && forall i :: 0 <= i < |refs| ==> MatchesAt(i, operations[i], receipts[i])
    }

    predicate MatchesAt(i: nat, operation: Operation, receipt: OperationReceipt)
      requires i < |refs|
    {
      && receipt.application == application
      && receipt.index == i
      && receipt.Id() == OperationId(application, i, operation)
      && receipt.operation == operation
      && refs[i] == ReceiptRef(ReceiptId(receipt.Id()), receipt)
    }

    method ValidateAgainst(operations: seq<Operation>, receipts: seq<OperationReceipt>) returns (valid: bool)
      ensures valid <==> Matches(operations, receipts)
    {
      if operationSet != application.operations || |operations| != |receipts| || |receipts| != |refs| {
        return false;
      }
      for i := 0 to |refs|
        invariant forall j :: 0 <= j < i ==> MatchesAt(j, operations[j], receipts[j])
      {
        if !MatchesAt(i, operations[i], receipts[i]) {
          return false;
        }
      }
      return true;
    }
  }

  /** The live context an applier works with.  `items` is the sealed item projection: the rendered
      title and body of each item, or the error rendering it raises. */
  datatype Context = Context(
    application: ApplicationId,
    provenance: Provenance,
    typedEndpoints: bool,
    items: map<string, Result<Draft>>,
    existing: map<string, Result<IssueReference>>)
  {
    function Anchor(): Anchor {
      AnchorOf(provenance)
    }

    function Operations(): seq<Operation> {
      application.operations
    }
  }

  datatype Draft = Draft(title: string, body: string)

  datatype IssueReference = IssueReference(repository: string, number: int, numericId: string, nodeId: string)

  /** The transition table of applications. */
  function SuccessorPhases(phase: Phase): set<Phase> {
    match phase
    case Pending => {Applying, Failed, Blocked}
    case Applying => {PartiallyApplied, Failed, Blocked, OutcomeUnknown}
    case PartiallyApplied => {Applying, Failed, Blocked}
    case _ => {}
  }

  /** The transition table of attempts. */
  function SuccessorAttemptPhases(phase: Phase): set<Phase> {
    match phase
    case Pending => {Applying, Failed, Blocked}
    case Applying => {Applied, Failed, Blocked, OutcomeUnknown}
    case _ => {}
  }

  predicate Terminal(phase: Phase) {
    phase in {Failed, Blocked, OutcomeUnknown, Applied}
  }

  /** `validate_application_transition`: passes exactly when it raises nothing. */
  function ValidateApplicationTransition(previous: ExecutionState, candidate: ExecutionState): Guard {
    if candidate.phase !in SuccessorPhases(previous.phase) then
      Fail(ValueError("application_state_transition_invalid"))
    else if previous.application != candidate.application || previous.anchor != candidate.anchor
         || previous.startedAt != candidate.startedAt then
      Fail(ValueError("application_binding_conflict"))
    else if previous.managed != candidate.managed then
      Fail(ValueError("application_orchestration_policy_invalid"))
    else if previous.completedAt.Some? && candidate.completedAt != previous.completedAt then
      Fail(ValueError("application_coordination_invalid"))
    else if previous.next != |previous.refs| || candidate.next != |candidate.refs| then
      Fail(ValueError("application_progress_invalid"))
    else
      var delta := candidate.next - previous.next;
      if delta != 0 && delta != 1 then
        Fail(ValueError("application_progress_invalid"))
      else if !(previous.phase.Applying? && candidate.phase.PartiallyApplied?)
           && (delta != 0 || candidate.refs != previous.refs) then
        Fail(ValueError("application_progress_invalid"))
      else if delta == 0 && candidate.refs != previous.refs then
        Fail(ValueError("application_progress_invalid"))
      else if delta == 1 && candidate.refs[..|candidate.refs| - 1] != previous.refs then
        Fail(ValueError("application_progress_invalid"))
      else
        Need(Coordinated(previous, candidate, delta), "application_coordination_invalid")
  }

  predicate Coordinated(previous: ExecutionState, candidate: ExecutionState, delta: int) {
    if previous.phase.Pending? || previous.phase.PartiallyApplied? then
      && previous.owner.None? && previous.attempt.None?
      && (candidate.phase.Applying? ==>
            candidate.owner.Some? && candidate.owner.value != "" && candidate.attempt.Some?)
      && (candidate.phase.Failed? || candidate.phase.Blocked? ==>
            candidate.owner.None? && candidate.attempt.None?)
    else if previous.phase.Applying? then
      if candidate.phase.PartiallyApplied? then
        delta == 1 && candidate.owner.None? && candidate.attempt.None?
      else if candidate.phase.Failed? || candidate.phase.Blocked? || candidate.phase.OutcomeUnknown? then
        && delta == 0 && candidate.refs == previous.refs
        && candidate.attempt == previous.attempt
        && (candidate.owner.None? || candidate.owner == previous.owner)
      else true
    else true
  }
}
