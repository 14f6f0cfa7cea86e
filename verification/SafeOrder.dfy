/** The compiled order is safe to run: whenever an operation of an eligible list has been claimed, the
    references it needs come from creates below it whose evidence is stored. */
module SafeOrder {
  import opened Outcomes
  import opened Sequences
  import opened Characters
  import opened WriteOperations
  import V2 = WriteOperationsV2
  import opened ExecutionRecords
  import opened ExecutionTables
  import opened GenericCalls
  import opened ManagedRows
  import opened Materialize
  import opened ApplyProtocol

  // ---- the evidence behind every finished operation ----

  /** Evidence that passed the applier's check for an operation of this kind. */
  predicate TrustedRemote(repository: string, kind: string, remote: RemoteResult) {
    && remote.kind == "github." + kind + ".v1" && remote.identity != ""
    && (kind == CREATE ==> TrustedCreate(repository, remote.payload))
    && (IsRelationshipKind(kind) ==> TrustedRelationship(repository, remote.payload))
  }

  ghost predicate EvidenceRow(t: Tables, a: ApplicationId)
    requires Managed(t, a)
  {
    forall k :: 0 <= k < t.executions[a].next && k < |a.operations| ==> EvidenceAt(t, a, k)
  }

  ghost predicate EvidenceAt(t: Tables, a: ApplicationId, k: nat)
    requires k < |a.operations|
  {
    var id := OperationAt(a, k);
    id in t.receipts && TrustedRemote(a.repository, a.operations[k].kind, t.receipts[id].remote)
  }

  ghost predicate EvidenceInv(t: Tables) {
    forall a :: Managed(t, a) ==> EvidenceRow(t, a)
  }

  lemma EvidenceFrame(t: Tables, u: Tables, a: ApplicationId)
    requires Managed(t, a) && EvidenceRow(t, a) && SameRows(t, u, a)
    ensures Managed(u, a) && EvidenceRow(u, a)
  {
    assert SameAt(t.executions, u.executions, a);
    forall k | 0 <= k < u.executions[a].next && k < |a.operations|
      ensures EvidenceAt(u, a, k)
    {
      assert EvidenceAt(t, a, k);
      assert SameAt(t.receipts, u.receipts, OperationAt(a, k));
    }
  }

  /** A table change that leaves every application but `a` alone. */
  lemma EvidenceMove(t: Tables, u: Tables, a: ApplicationId)
    requires EvidenceInv(t) && (Managed(u, a) ==> EvidenceRow(u, a))
    requires forall b :: b != a ==> SameRows(t, u, b)
    ensures EvidenceInv(u)
  {
    forall b | Managed(u, b)
      ensures EvidenceRow(u, b)
    {
      if b != a {
        assert SameRows(t, u, b);
        assert SameAt(t.executions, u.executions, b);
        EvidenceFrame(t, u, b);
      }
    }
  }

  lemma StartKeepsEvidence(t: Tables, ctx: Context, input: Input)
    requires TablesInv(t) && EvidenceInv(t)
    ensures EvidenceInv(Start(t, ctx, input).tables)
  {
    var s := InitialFor(ctx, input.now);
    if Create(t, s, input.guards).Ok? {
      CreateKeeps(t, s, input.guards);
      if s.application !in t.executions {
        EvidenceMove(t, Start(t, ctx, input).tables, s.application);
      }
    }
  }

  lemma ProceedKeepsEvidence(t: Tables, ctx: Context, s: ExecutionState, input: Input)
    requires TablesInv(t) && EvidenceInv(t)
    ensures EvidenceInv(Proceed(t, ctx, s, input).tables)
  {
    var a := ctx.application;
    var u := Proceed(t, ctx, s, input).tables;
    if s.next < |a.operations| {
      if Claim(t, ctx, s, input.owner, input.now, input.guards).Ok? {
        ClaimKeeps(t, ctx, s, input.owner, input.now, input.guards);
        EvidenceSameReceipts(t, u, a);
      }
    } else if Finalize(t, ctx, s, input.now, input.guards).Ok? {
      FinalizeKeeps(t, ctx, s, input.now, input.guards);
      EvidenceSameReceipts(t, u, a);
    }
  }

  lemma EvidenceSameReceipts(t: Tables, u: Tables, a: ApplicationId)
    requires EvidenceInv(t) && Managed(t, a) && Managed(u, a)
    requires u.receipts == t.receipts && u.executions[a].next == t.executions[a].next
    requires forall b :: b != a ==> SameRows(t, u, b)
    ensures EvidenceInv(u)
  {
    assert EvidenceRow(t, a);
    forall k | 0 <= k < u.executions[a].next && k < |a.operations|
      ensures EvidenceAt(u, a, k)
    {
      assert EvidenceAt(t, a, k);
    }
    EvidenceMove(t, u, a);
  }

  lemma TrustedSuccessIsTrusted(ctx: Context, attempt: Attempt, o: Observation)
    requires o.Success? && TrustedSuccess(ctx, attempt, o).Ok?
    ensures TrustedRemote(ctx.application.repository, attempt.operation.kind, TrustedSuccess(ctx, attempt, o).value)
  {
  }

  /** Completing an operation with checked evidence. */
  lemma EvidenceGrows(t: Tables, u: Tables, a: ApplicationId, receipt: OperationReceipt)
    requires EvidenceInv(t) && Managed(t, a) && Managed(u, a)
    requires var i := t.executions[a].next;
      && i < |a.operations| && u.executions[a].next == i + 1
      && u.receipts == t.receipts[OperationAt(a, i) := receipt]
      && TrustedRemote(a.repository, a.operations[i].kind, receipt.remote)
    requires forall b :: b != a ==> SameRows(t, u, b)
    ensures EvidenceInv(u)
  {
    var i := t.executions[a].next;
    assert EvidenceRow(t, a);
    forall k | 0 <= k < i + 1 && k < |a.operations|
      ensures EvidenceAt(u, a, k)
    {
      if k < i {
        assert EvidenceAt(t, a, k);
      }
    }
    EvidenceMove(t, u, a);
  }

  lemma RecordKeepsEvidence(t: Tables, h: Client, input: Input)
    requires TablesInv(t) && EvidenceInv(t) && h.Holding? && h.stage.Sent?
    ensures EvidenceInv(Record(t, h, input).0)
  {
    var o := h.stage.observation;
    if input.current.None? && o.Success? && Evidence(t, h, o, input).Ok? {
      EvidencedCompletion(t, h.ctx, h.state, h.attempt, h.owner, o, input);
      assert Record(t, h, input).0 == Evidence(t, h, o, input).value.tables;
    }
  }

  lemma EvidencedCompletion(t: Tables, ctx: Context, state: ExecutionState, attempt: Attempt, owner: string,
                            o: Observation, input: Input)
    requires TablesInv(t) && EvidenceInv(t) && o.Success? && TrustedSuccess(ctx, attempt, o).Ok?
    requires attempt.index < |ctx.application.operations|
    requires var receipt := NewReceipt(ctx, attempt, TrustedSuccess(ctx, attempt, o).value, input.then_);
      Complete(t, ctx, state, attempt, owner, receipt, input.now, input.guards).Ok?
    ensures var receipt := NewReceipt(ctx, attempt, TrustedSuccess(ctx, attempt, o).value, input.then_);
      EvidenceInv(Complete(t, ctx, state, attempt, owner, receipt, input.now, input.guards).value.tables)
  {
    var receipt := NewReceipt(ctx, attempt, TrustedSuccess(ctx, attempt, o).value, input.then_);
    CompleteKeeps(t, ctx, state, attempt, owner, receipt, input.now, input.guards);
    CompletesClaimed(t, ctx, state, attempt, owner, receipt, input.now, input.guards);
    TrustedSuccessIsTrusted(ctx, attempt, o);
    var u := Complete(t, ctx, state, attempt, owner, receipt, input.now, input.guards).value.tables;
    EvidenceGrows(t, u, ctx.application, receipt);
  }

  lemma CompletesClaimed(t: Tables, ctx: Context, state: ExecutionState, attempt: Attempt, owner: string,
                         receipt: OperationReceipt, now: Stamp, guards: Guards)
    requires TablesInv(t) && Complete(t, ctx, state, attempt, owner, receipt, now, guards).Ok?
    ensures state.next < |ctx.application.operations| && attempt.operation == ctx.application.operations[state.next]
  {
    ClaimedRowIsCurrent(t, ctx, state, attempt, owner);
  }

  lemma FinishKeepsEvidence(t: Tables, h: Client, input: Input)
    requires TablesInv(t) && EvidenceInv(t) && h.Holding? && h.stage.Settling?
    ensures EvidenceInv(Finish(t, h, input).0)
  {
    if Settle(t, h.ctx, h.state, h.attempt, h.owner, h.stage.target, h.stage.code, input.now, input.guards).Ok? {
      SettleKeeps(t, h.ctx, h.state, h.attempt, h.owner, h.stage.target, h.stage.code, input.now, input.guards);
      EvidenceSameReceipts(t, Finish(t, h, input).0, h.ctx.application);
    }
  }

  lemma NextKeepsEvidence(w: World, e: Event)
    requires WorldInv(w) && EvidenceInv(w.tables)
    ensures EvidenceInv(Next(w, e).tables)
  {
    hide EvidenceRow, LogInv, OneHolder, ClientInv, Create, Claim, Complete, Settle, Finalize,
         Materialized, TrustedSuccess, Perform;
    var t, u := w.tables, Next(w, e).tables;
    match e
    case GenericStore(step) =>
      if Perform(t, step.call, step.orchestrated, step.refusal).Ok? {
        GenericNonInterference(t, step.call, step.orchestrated, step.refusal);
        forall a | Managed(u, a)
          ensures EvidenceRow(u, a)
        {
          EvidenceFrame(t, u, a);
        }
      }
    case Advance(c, input) =>
      if c in w.clients {
        match w.clients[c]
        case Starting(ctx) => StartKeepsEvidence(t, ctx, input);
        case Ready(ctx, s) => ProceedKeepsEvidence(t, ctx, s, input);
        case Holding(_, _, _, _, stage) =>
          if stage.Sent? {
            RecordKeepsEvidence(t, w.clients[c], input);
          } else if stage.Settling? {
            FinishKeepsEvidence(t, w.clients[c], input);
          }
        case _ =>
      }
    case _ =>
  }

  /** In every run, the receipt of each finished operation of a managed application carries evidence
      that was checked for that operation's kind and repository. */
  lemma {:induction false} FinishedOperationsAreEvidenced(w: World, events: seq<Event>)
    requires WorldInv(w) && EvidenceInv(w.tables)
    ensures EvidenceInv(Run(w, events).tables)
    decreases |events|
  {
    if events != [] {
      NextKeeps(w, events[0]);
      NextKeepsEvidence(w, events[0]);
      FinishedOperationsAreEvidenced(Next(w, events[0]), events[1..]);
    }
  }

  // ---- lookups ----

  /** The reference that the stored evidence of a create stands for. */
  function CreatedIssue(repository: string, payload: map<string, Field>): IssueReference
    requires TrustedCreate(repository, payload)
  {
    IssueReference(repository, payload["issue_number"].number, payload["numeric_issue_id"].text, payload["node_id"].text)
  }

  /** Checked evidence still fails to be a reference in one case: a node id of blanks only. */
  lemma TrustedCreateReference(repository: string, payload: map<string, Field>)
    requires TrustedCreate(repository, payload)
    ensures ReferenceOf(repository, payload) ==
              if Blank(payload["node_id"].text) then Err(ValueError("write_reference_invalid"))
              else Ok(CreatedIssue(repository, payload))
  {
    var numericId := payload["numeric_issue_id"].text;
    assert IsDigit(numericId[0]);
  }

  /** The creates of the items come first, and nothing else creates. */
  ghost predicate CreatesFirst(ops: seq<Operation>, items: seq<string>) {
    && |items| <= |ops|
    && (forall k :: 0 <= k < |items| ==> ops[k] == CreateOf(items[k]))
    && (forall k :: |items| <= k < |ops| ==> IsRelationshipKind(ops[k].kind))
  }

  lemma CreateEvidence(t: Tables, a: ApplicationId, k: nat)
    requires k < |a.operations| && a.operations[k].kind == CREATE && EvidenceAt(t, a, k)
    ensures var id := OperationAt(a, k);
      && id in t.receipts && t.receipts[id].remote.kind == CREATE_RESULT
      && "repository_identity" in t.receipts[id].remote.payload
      && t.receipts[id].remote.payload["repository_identity"] == Text(a.repository)
      && TrustedCreate(a.repository, t.receipts[id].remote.payload)
  {
    assert "github." + CREATE + ".v1" == CREATE_RESULT;
  }

  lemma {:induction false} LookupReaches(ctx: Context, t: Tables, items: seq<string>, k: nat, i: nat)
    requires var ops := ctx.application.operations;
      CreatesFirst(ops, items) && NoDuplicates(items) && i <= k < |items|
      && EvidenceAt(t, ctx.application, k)
    ensures ReferenceFrom(ctx, t, items[k], i) ==
              ReferenceOf(ctx.application.repository, t.receipts[OperationAt(ctx.application, k)].remote.payload)
    decreases k - i
  {
    hide TrustedRemote, TrustedCreate, TrustedRelationship, ReferenceOf;
    var ops := ctx.application.operations;
    assert ops[i] == CreateOf(items[i]) && ops[k] == CreateOf(items[k]);
    CreateEvidence(t, ctx.application, k);
    if i < k {
      assert items[i] != items[k];
      assert [items[i]][0] != [items[k]][0];
      LookupReaches(ctx, t, items, k, i + 1);
    }
  }

  /** What a lookup of a created item returns once the create's evidence is stored. */
  function Looked(a: ApplicationId, t: Tables, k: nat): Result<IssueReference>
    requires k < |a.operations| && OperationAt(a, k) in t.receipts
    requires TrustedCreate(a.repository, t.receipts[OperationAt(a, k)].remote.payload)
  {
    var payload := t.receipts[OperationAt(a, k)].remote.payload;
    if Blank(payload["node_id"].text) then Err(ValueError("write_reference_invalid"))
    else Ok(CreatedIssue(a.repository, payload))
  }

  /** Whenever an applier holds a claim in a run, looking up any item whose create lies below the
      claimed operation finds that create's stored receipt; no lookup reports a missing receipt. */
  lemma LookupsFindStoredReceipts(events: seq<Event>, c: nat, items: seq<string>, k: nat)
    requires var w := Run(Init, events); c in w.clients && w.clients[c].Holding?
    requires var h := Run(Init, events).clients[c];
      && CreatesFirst(h.ctx.application.operations, items) && NoDuplicates(items)
      && k < |items| && k < h.attempt.index
    ensures var w := Run(Init, events); var h := w.clients[c]; var a := h.ctx.application;
      && k < |a.operations| && OperationAt(a, k) in w.tables.receipts
      && TrustedCreate(a.repository, w.tables.receipts[OperationAt(a, k)].remote.payload)
      && ReferenceFrom(h.ctx, w.tables, items[k], 0) == Looked(a, w.tables, k)
  {
    var w := Run(Init, events);
    InitInv();
    RunKeeps(Init, events);
    FinishedOperationsAreEvidenced(Init, events);
    var h := w.clients[c];
    var a := h.ctx.application;
    assert ClientInv(w.tables, w.log, h);
    assert EvidenceRow(w.tables, a) && EvidenceAt(w.tables, a, k);
    assert a.operations[k] == CreateOf(items[k]);
    LookupReaches(h.ctx, w.tables, items, k, 0);
    TrustedCreateReference(a.repository, w.tables.receipts[OperationAt(a, k)].remote.payload);
  }

  // ---- materialising an eligible list ----

  lemma CompiledCreatesFirst(items: seq<string>, planned: seq<Planned>)
    ensures CreatesFirst(Compile(items, planned), items)
  {
  }

  /** What materialising a relationship between two looked-up operands gives. */
  function Joined(repository: string, first: Result<IssueReference>, second: Result<IssueReference>,
                  same: string): Result<Command>
  {
    var x :- first;
    var y :- second;
    :- Need(x != y, same);
    Ok(Relationship(repository, x, y))
  }

  lemma OperandsOfTwo(ctx: Context, t: Tables, x: string, y: string)
    ensures Operands(ctx, t, [x, y]) ==
              if Operand(ctx, t, x).Err? then Err(Operand(ctx, t, x).error)
              else if Operand(ctx, t, y).Err? then Err(Operand(ctx, t, y).error)
              else Ok([Operand(ctx, t, x).value, Operand(ctx, t, y).value])
  {
    assert [x, y][1..] == [y];
    assert [y][1..] == [];
    assert Operands(ctx, t, []) == Ok([]);
    var first, last := Operand(ctx, t, x), Operand(ctx, t, y);
    assert Operands(ctx, t, [y]) == if last.Err? then Err(last.error) else Ok([last.value] + []);
    if first.Ok? && last.Ok? {
      assert [first.value] + ([last.value] + []) == [first.value, last.value];
    }
  }

  /** A claimed relationship of an eligible plan: its two operands are the issues created for its source
      and target, and it becomes a command exactly when both have usable node ids and differ. */
  lemma EligibleRelationshipMaterializes(events: seq<Event>, c: nat, items: seq<string>, planned: seq<Planned>,
                                         from: nat, to: nat, revalidation: Option<string>)
    requires var w := Run(Init, events); c in w.clients && w.clients[c].Holding?
    requires var h := Run(Init, events).clients[c];
      && h.ctx.application.operations == Compile(items, planned) && EndpointsKnown(items, planned)
      && NoDuplicates(items) && (forall j :: 0 <= j < |planned| ==> PlannedValid(planned[j]))
      && !h.ctx.typedEndpoints && (forall ref :: ref in items ==> ref in h.ctx.items)
      && |items| <= h.attempt.index < |items| + |planned|
      && from < |items| && to < |items|
      && items[from] == planned[h.attempt.index - |items|].source
      && items[to] == planned[h.attempt.index - |items|].target
    ensures var w := Run(Init, events); var h := w.clients[c]; var a := h.ctx.application;
      && EvidencedCreate(a, w.tables, from) && EvidencedCreate(a, w.tables, to)
      && Materialized(h.ctx, w.tables, h.attempt, revalidation) ==
           Joined(a.repository, Looked(a, w.tables, from), Looked(a, w.tables, to), "write_command_invalid")
  {
    hide Run, Looked, CreatesFirst, ReferenceFrom;
    var w := Run(Init, events);
    var h := w.clients[c];
    ClaimedOperation(events, c);
    CompiledCreatesFirst(items, planned);
    LookupsFindStoredReceipts(events, c, items, from);
    LookupsFindStoredReceipts(events, c, items, to);
    var p := planned[h.attempt.index - |items|];
    CompileAt(items, planned, h.attempt.index);
    assert h.attempt.operation == RelationshipOf(p);
    OperandsOfTwo(h.ctx, w.tables, p.source, p.target);
  }

  ghost predicate EvidencedCreate(a: ApplicationId, t: Tables, k: nat) {
    && k < |a.operations| && OperationAt(a, k) in t.receipts
    && TrustedCreate(a.repository, t.receipts[OperationAt(a, k)].remote.payload)
  }

  // ---- the typed form ----

  function Tag(e: V2.Endpoint): string {
    match e
    case WorkItem(ref) => WORK_ITEM + ref
    case ExistingIssue(ref) => EXISTING_ISSUE + ref
  }

  /** `_execution_operations`: a typed entry in the durable operation format, with tagged references. */
  function Encode(op: V2.OperationV2): Operation
    requires V2.NormalV2(op)
  {
    if op.kind == CREATE then CreateOf(op.endpoint.value.ref)
    else
      Operation(op.kind, [Tag(V2.Typed(op.operands.value[0])), Tag(V2.Typed(op.operands.value[1]))], [])
  }

  /** The durable form loses exactly the dependencies of a typed entry, which the compiled list has none of. */
  lemma EncodeLosesOnlyDependencies(op: V2.OperationV2, op': V2.OperationV2)
    requires V2.NormalV2(op) && V2.NormalV2(op')
    ensures Encode(op) == Encode(op') <==> op.(dependsOn := []) == op'.(dependsOn := [])
  {
    if Encode(op) == Encode(op') {
      EncodeKeepsEndpoints(op, op');
    }
  }

  lemma EncodeKeepsEndpoints(op: V2.OperationV2, op': V2.OperationV2)
    requires V2.NormalV2(op) && V2.NormalV2(op') && Encode(op) == Encode(op')
    ensures op.kind == op'.kind && op.endpoint == op'.endpoint && op.operands == op'.operands
  {
    if op.kind == CREATE {
      var x, y := op.endpoint.value, op'.endpoint.value;
      assert [x.ref][0] == [y.ref][0];
    } else {
      var xs, ys := op.operands.value, op'.operands.value;
      var us, vs := Encode(op).clientRefs, Encode(op').clientRefs;
      assert us[0] == vs[0] && us[1] == vs[1];
      TagKeepsEndpoint(V2.Typed(xs[0]), V2.Typed(ys[0]));
      TagKeepsEndpoint(V2.Typed(xs[1]), V2.Typed(ys[1]));
      forall i | 0 <= i < 2
        ensures xs[i] == ys[i]
      {
        V2.TypedRaw(xs[i]);
        V2.TypedRaw(ys[i]);
      }
      assert xs == ys;
    }
  }

  lemma TagKeepsEndpoint(e: V2.Endpoint, e': V2.Endpoint)
    requires Tag(e) == Tag(e')
    ensures e == e'
  {
    assert Tag(e)[0] == Tag(e')[0];
    var n := if e.WorkItem? then |WORK_ITEM| else |EXISTING_ISSUE|;
    assert Tag(e)[n..] == e.ref && Tag(e')[n..] == e'.ref;
  }

  /** What a claimed operand stands for: the stored create of a work item, or the bound existing issue. */
  function Resolved(ctx: Context, t: Tables, items: seq<string>, e: V2.Endpoint, k: nat): Result<IssueReference>
    requires e.WorkItem? ==> EvidencedCreate(ctx.application, t, k)
  {
    if e.WorkItem? then Looked(ctx.application, t, k)
    else if e.ref in ctx.existing then ctx.existing[e.ref]
    else Err(ValueError("write_reference_unavailable"))
  }

  lemma TypedOperand(ctx: Context, t: Tables, items: seq<string>, e: V2.Endpoint, k: nat)
    requires ctx.typedEndpoints
    requires e.WorkItem? ==>
      && EvidencedCreate(ctx.application, t, k) && k < |items| && items[k] == e.ref
      && ReferenceFrom(ctx, t, items[k], 0) == Looked(ctx.application, t, k)
    ensures Operand(ctx, t, Tag(e)) == Resolved(ctx, t, items, e, k)
  {
    if e.WorkItem? {
      assert Tag(e)[|WORK_ITEM|..] == e.ref;
    } else {
      assert Tag(e)[0] == 'e' && WORK_ITEM[0] == 'w';
      assert Tag(e)[|EXISTING_ISSUE|..] == e.ref;
    }
  }

  predicate EncodesAll(ops: seq<Operation>, typed: seq<V2.OperationV2>) {
    |ops| == |typed| && forall i :: 0 <= i < |ops| ==> V2.NormalV2(typed[i]) && ops[i] == Encode(typed[i])
  }

  lemma EncodedCreatesFirst(ops: seq<Operation>, items: seq<string>, pairs: seq<V2.TypedPlanned>)
    requires EncodesAll(ops, V2.CompileV2(items, pairs))
    ensures CreatesFirst(ops, items)
  {
    var typed := V2.CompileV2(items, pairs);
    forall i | 0 <= i < |typed|
      ensures V2.NormalV2(typed[i])
      ensures i < |items| ==> ops[i] == CreateOf(items[i])
      ensures i >= |items| ==> IsRelationshipKind(ops[i].kind)
    {
      V2.CompileV2At(items, pairs, i);
    }
  }

  /** The typed counterpart: whatever the endpoint types, a claimed relationship of an eligible typed plan
      finds the stored create of each work item it names, below the claimed operation. */
  lemma EligibleTypedRelationshipResolves(events: seq<Event>, c: nat, items: seq<string>, pairs: seq<V2.TypedPlanned>,
                                          bindings: seq<V2.Binding>, e: V2.Endpoint, k: nat)
    requires var w := Run(Init, events); c in w.clients && w.clients[c].Holding?
    requires var h := Run(Init, events).clients[c];
      && h.ctx.typedEndpoints && EncodesAll(h.ctx.application.operations, V2.CompileV2(items, pairs))
      && NoDuplicates(items) && V2.EndpointsKnownV2(items, pairs, bindings)
      && |items| <= h.attempt.index < |items| + |pairs|
      && EndpointOf(pairs[h.attempt.index - |items|], e)
      && (e.WorkItem? ==> k < |items| && items[k] == e.ref)
    ensures var w := Run(Init, events); var h := w.clients[c]; var a := h.ctx.application;
      && (e.WorkItem? ==> e.ref in items && EvidencedCreate(a, w.tables, k))
      && Tag(e) in h.attempt.operation.clientRefs
      && Operand(h.ctx, w.tables, Tag(e)) == Resolved(h.ctx, w.tables, items, e, k)
  {
    hide Run, WorldInv, Tag, Operand, Looked, CreatesFirst, V2.CompileV2, EncodesAll;
    var w := Run(Init, events);
    var h := w.clients[c];
    var i := h.attempt.index;
    ClaimedOperation(events, c);
    EncodedCreatesFirst(h.ctx.application.operations, items, pairs);
    EncodedRefs(h.ctx.application.operations, items, pairs, i);
    assert h.attempt.operation.clientRefs[0] == Tag(pairs[i - |items|].source);
    assert h.attempt.operation.clientRefs[1] == Tag(pairs[i - |items|].target);
    if e.WorkItem? {
      LookupsFindStoredReceipts(events, c, items, k);
    }
    TypedOperand(h.ctx, w.tables, items, e, k);
  }

  predicate EndpointOf(p: V2.TypedPlanned, e: V2.Endpoint) {
    e == p.source || e == p.target
  }

  /** What a claim holder works on in any run. */
  lemma ClaimedOperation(events: seq<Event>, c: nat)
    requires var w := Run(Init, events); c in w.clients && w.clients[c].Holding?
    ensures var h := Run(Init, events).clients[c];
      h.attempt.index < |h.ctx.application.operations| && h.attempt.operation == h.ctx.application.operations[h.attempt.index]
  {
    var w := Run(Init, events);
    InitInv();
    RunKeeps(Init, events);
    assert ClientInv(w.tables, w.log, w.clients[c]);
  }

  lemma EncodedRefs(ops: seq<Operation>, items: seq<string>, pairs: seq<V2.TypedPlanned>, i: nat)
    requires EncodesAll(ops, V2.CompileV2(items, pairs)) && |items| <= i < |items| + |pairs|
    ensures i < |ops| && ops[i].clientRefs == [Tag(pairs[i - |items|].source), Tag(pairs[i - |items|].target)]
  {
    V2.CompileV2At(items, pairs, i);
    assert V2.NormalV2(V2.CompileV2(items, pairs)[i]);
    TypedOfRaw(pairs[i - |items|].source);
    TypedOfRaw(pairs[i - |items|].target);
  }

  lemma TypedOfRaw(e: V2.Endpoint)
    ensures V2.Typed(V2.Raw(e)) == e
  {
  }
}
