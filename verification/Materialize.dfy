/** Turning a claimed operation into a remote command, and a remote reply into durable evidence. */
module Materialize {
  import opened Outcomes
  import opened WriteOperations
  import opened ExecutionRecords
  import opened ExecutionTables
  import opened Characters

  datatype Command =
    | CreateIssue(repository: string, clientRef: string, draft: Draft, request: OperationId)
    | Relationship(repository: string, first: IssueReference, second: IssueReference)

  const EXECUTOR := "delivery-system:github-rest-write-v1"
  const CREATE_RESULT := "github.create_issue.v1"

  predicate IsCreateOf(op: Operation, ref: string) {
    op.kind == "create_issue" && op.clientRefs == [ref]
  }

  /** `_reference_from_receipt`, looking at the operations from an index on. */
  function ReferenceFrom(ctx: Context, t: Tables, ref: string, i: nat): Result<IssueReference>
    requires i <= |ctx.application.operations|
    decreases |ctx.application.operations| - i
  {
    var a := ctx.application;
    if i == |a.operations| then Err(ValueError("write_reference_unavailable"))
    else if !IsCreateOf(a.operations[i], ref) then ReferenceFrom(ctx, t, ref, i + 1)
    else if OperationAt(a, i) !in t.receipts then Err(ValueError("operation_receipt_not_found"))
    else
      var remote := t.receipts[OperationAt(a, i)].remote;
      if remote.kind != CREATE_RESULT || "repository_identity" !in remote.payload
      || remote.payload["repository_identity"] != Text(a.repository) then
        Err(ValueError("write_reference_unavailable"))
      else
        ReferenceOf(a.repository, remote.payload)
  }

  /** `RemoteIssueReference` built from a result payload. */
  function ReferenceOf(repository: string, payload: map<string, Field>): Result<IssueReference> {
    if "issue_number" !in payload || "numeric_issue_id" !in payload || "node_id" !in payload then
      Err(Fault("KeyError"))
    else
      var number, numericId, nodeId := payload["issue_number"], payload["numeric_issue_id"], payload["node_id"];
      if number.Number? && number.number >= 1 && numericId.Text? && !Blank(numericId.text)
      && nodeId.Text? && !Blank(nodeId.text) then
        Ok(IssueReference(repository, number.number, numericId.text, nodeId.text))
      else
        Err(ValueError("write_reference_invalid"))
  }

  const WORK_ITEM := "work_item:"
  const EXISTING_ISSUE := "existing_issue:"

  /** One operand of a relationship: a plain item reference, or a tagged one when endpoints are typed. */
  function Operand(ctx: Context, t: Tables, ref: string): Result<IssueReference> {
    if !ctx.typedEndpoints then
      ReferenceFrom(ctx, t, ref, 0)
    else if WORK_ITEM <= ref then
      ReferenceFrom(ctx, t, ref[|WORK_ITEM|..], 0)
    else if EXISTING_ISSUE <= ref then
      var name := ref[|EXISTING_ISSUE|..];
      if name in ctx.existing then ctx.existing[name] else Err(ValueError("write_reference_unavailable"))
    else
      Err(ValueError("write_reference_unavailable"))
  }

  function Operands(ctx: Context, t: Tables, refs: seq<string>): Result<seq<IssueReference>> {
    if refs == [] then Ok([]) else
    var first :- Operand(ctx, t, refs[0]);
    var rest :- Operands(ctx, t, refs[1..]);
    Ok([first] + rest)
  }

  /** `_materialize`.  `revalidation` is what re-reading an existing endpoint raises, if anything. */
  function Materialized(ctx: Context, t: Tables, attempt: Attempt, revalidation: Option<string>): Result<Command> {
    var op := attempt.operation;
    if op.kind == "create_issue" then
      if op.clientRefs == [] then Err(Fault("IndexError")) else
      if op.clientRefs[0] !in ctx.items then Err(Fault("KeyError")) else
      var draft :- ctx.items[op.clientRefs[0]];
      Ok(CreateIssue(ctx.application.repository, op.clientRefs[0], draft, attempt.Id()))
    else if op.kind == "add_sub_issue" || op.kind == "add_dependency" then
      :- Need(ctx.typedEndpoints || forall i :: 0 <= i < |op.clientRefs| ==> op.clientRefs[i] in ctx.items,
              "write_reference_unavailable");
      var references :- Operands(ctx, t, op.clientRefs);
      if |references| < 2 then Err(Fault("IndexError")) else
      :- Need(ctx.typedEndpoints ==> references[0] != references[1], "write_reference_unavailable");
      :- Need(ctx.typedEndpoints && revalidation.Some?
              ==> forall i :: 0 <= i < |op.clientRefs| ==> !(EXISTING_ISSUE <= op.clientRefs[i]),
              revalidation.GetOr(""));
      :- Need(references[0] != references[1], "write_command_invalid");
      Ok(Relationship(ctx.application.repository, references[0], references[1]))
    else
      Err(ValueError("write_operation_kind_invalid"))
  }

  /** Where an operation that could not be materialised ends. */
  function MaterializeTarget(code: string): Phase {
    if code in {"existing_endpoint_not_found", "existing_endpoint_repository_mismatch",
                "existing_endpoint_identity_mismatch", "existing_endpoint_write_address_invalid",
                "existing_endpoint_semantic_stale", "relationship_already_exists", "remote_observation_unavailable",
                "write_reference_unavailable", "write_executor_invalid", "runtime_authority_required"}
    then Blocked else Failed
  }

  /** The credential refusals that a dispatch raises before it writes. */
  predicate CredentialRefusal(code: string) {
    code in {"credential_capability_unregistered", "credential_principal_mismatch", "credential_instance_mismatch",
             "credential_repository_mismatch", "credential_scope_mismatch", "credential_capability_mismatch",
             "credential_currentness_mismatch", "credential_expired"}
  }

  datatype Observation =
    | Success(identity: string, payload: Option<map<string, Field>>)
    | Rejected(code: string)
    | Ambiguous(code: string)

  /** Where an operation whose write was rejected or left open ends. */
  function SettleTarget(o: Observation): Phase
    requires !o.Success?
  {
    if o.Ambiguous? then OutcomeUnknown
    else if SettleCode(o) in {"github_write_authority_rejected", "github_write_target_unavailable",
                              "github_write_conflict", "github_write_rate_limited", "github_write_redirect_rejected"}
    then Blocked
    else Failed
  }

  function SettleCode(o: Observation): string
    requires !o.Success?
  {
    if o.code != "" then o.code
    else if o.Rejected? then "github_write_rejected"
    else "github_write_transport_ambiguous"
  }

  predicate NumericIssueId(s: string) {
    1 <= |s| <= 20 && s[0] != '0' && forall i :: 0 <= i < |s| ==> IsDigit(s[i])
  }

  predicate TrustedCreate(repository: string, payload: map<string, Field>) {
    && payload.Keys == {"repository_identity", "issue_number", "numeric_issue_id", "node_id",
                        "executor_identity", "contract_version", "response_status"}
    && TrustedRelationship(repository, payload)
    && payload["issue_number"].Number? && payload["issue_number"].number > 0
    && payload["numeric_issue_id"].Text? && NumericIssueId(payload["numeric_issue_id"].text)
    && payload["node_id"].Text? && payload["node_id"].text != ""
  }

  predicate TrustedRelationship(repository: string, payload: map<string, Field>) {
    && Get(payload, "repository_identity") == Some(Text(repository))
    && Get(payload, "executor_identity") == Some(Text(EXECUTOR))
    && Get(payload, "contract_version").Some? && payload["contract_version"].Text?
    && Get(payload, "response_status") == Some(Number(201))
  }

  function Get(m: map<string, Field>, k: string): Option<Field> {
    if k in m then Some(m[k]) else None
  }

  /** `_trusted_success_result`. */
  function TrustedSuccess(ctx: Context, attempt: Attempt, o: Observation): Result<RemoteResult>
    requires o.Success?
  {
    var kind := attempt.operation.kind;
    :- Need(o.payload.Some?, "write_observation_invalid");
    var payload := o.payload.value;
    :- Need(kind == "create_issue" ==> TrustedCreate(ctx.application.repository, payload), "write_observation_invalid");
    :- Need(kind == "add_sub_issue" || kind == "add_dependency" ==>
              TrustedRelationship(ctx.application.repository, payload), "write_observation_invalid");
    :- Need(kind in {"create_issue", "add_sub_issue", "add_dependency"}, "write_operation_kind_invalid");
    :- Need(o.identity != "", "write_observation_invalid");
    Ok(RemoteResult("github." + kind + ".v1", o.identity, payload))
  }

  function NewReceipt(ctx: Context, attempt: Attempt, remote: RemoteResult, completedAt: Stamp): OperationReceipt
    requires attempt.index < |ctx.application.operations|
  {
    OperationReceipt(ctx.application, attempt.index, ctx.application.operations[attempt.index], ctx.provenance,
                     remote, attempt.startedAt, completedAt)
  }
}
