/** An eligible plan can be carried out: an applier that is not interrupted, whose clock does not go back
    and whose every write is accepted, takes each compiled operation in turn and ends with the application
    receipt.  Plans of both versions of the operation contract are covered. */
module ApplyProgress {
  import opened Outcomes
  import opened Sequences
  import opened Characters
  import opened WriteOperations
  import V2 = WriteOperationsV2
  import opened ExecutionRecords
  import opened ExecutionTables
  import opened GenericCalls
  import opened ManagedRows
  import opened Materialize
  import opened ApplyProtocol
  import opened ApplyTheorems
  import opened SafeOrder

  // ---- eligible plans ----

  datatype Plan =
    | First(planned: seq<Planned>)
    | Second(raw: seq<V2.RawPlanned>, bindings: seq<V2.Binding>)

  /** An eligible plan of either version, in a live context of that version which can render every item and binds
      every existing issue. */
  ghost predicate Runnable(ctx: Context, items: seq<string>, plan: Plan) {
    && (match plan
        case First(planned) =>
          && !ctx.typedEndpoints && ctx.application.operations == Compile(items, planned)
          && !Raises(Compile(items, planned), items, planned) && EndpointsKnown(items, planned)
        case Second(raw, bindings) =>
          var pairs := V2.TypedPairs(raw);
          && ctx.typedEndpoints && EncodesAll(ctx.application.operations, V2.CompileV2(items, pairs))
          && !V2.RaisesV2(V2.CompileV2(items, pairs), items, raw, bindings)
          && V2.EndpointsKnownV2(items, pairs, bindings) && V2.NoneBothExisting(pairs)
          && (forall ref :: ref in V2.Refs(bindings) ==> ref in ctx.existing && ctx.existing[ref].Ok?))
    && (forall ref :: ref in items ==> ref in ctx.items && ctx.items[ref].Ok?)
  }

  lemma RunnableShape(ctx: Context, items: seq<string>, plan: Plan)
    requires Runnable(ctx, items, plan)
    ensures ItemsValid(items) && CreatesFirst(ctx.application.operations, items)
  {
    match plan
    case First(planned) => CompiledCreatesFirst(items, planned);
    case Second(raw, _) => EncodedCreatesFirst(ctx.application.operations, items, V2.TypedPairs(raw));
  }

  // ---- what an uninterrupted run meets ----

  /** What the five steps of one operation read from outside: claiming, validating, preparing, sending, recording. */
  datatype Turn = Turn(claim: Input, validate: Input, prepare: Input, send: Input, record: Input)

  /** What a whole run reads. */
  datatype Script = Script(create: Input, turns: seq<Turn>, finish: Input, conclude: Input)

  /** The live runtime refuses nothing. */
  predicate Quiet(input: Input) {
    input.guards == Guards(None, None) && input.current.None? && input.revalidation.None?
  }

  predicate Replied(turn: Turn) {
    turn.send.reply.Observed? && turn.send.reply.observation.Success? && turn.send.reply.observation.payload.Some?
  }

  function PayloadOf(turn: Turn): map<string, Field>
    requires Replied(turn)
  {
    turn.send.reply.observation.payload.value
  }

  function RemoteOf(ctx: Context, k: nat, turn: Turn): RemoteResult
    requires k < |ctx.application.operations| && Replied(turn)
  {
    RemoteResult("github." + ctx.application.operations[k].kind + ".v1", turn.send.reply.observation.identity,
                 PayloadOf(turn))
  }

  /** The steps of operation `k` meet no refusal, draw a valid owner, and get a reply that passes the evidence check. */
  predicate TurnFits(ctx: Context, k: nat, turn: Turn)
    requires k < |ctx.application.operations|
  {
    && Quiet(turn.claim) && Quiet(turn.validate) && Quiet(turn.prepare) && Quiet(turn.send) && Quiet(turn.record)
    && ValidOwner(turn.claim.owner) && Replied(turn)
    && TrustedRemote(ctx.application.repository, ctx.application.operations[k].kind, RemoteOf(ctx, k, turn))
  }

  /** The time of the last store call before operation `k`. */
  function LastTime(script: Script, k: nat): Stamp
    requires k <= |script.turns|
  {
    if k == 0 then script.create.now else script.turns[k - 1].record.now
  }

  /** The clock is read at creation, at each claim, for each receipt, at each completion and at the end; it never goes
      back between two of these. */
  predicate ClockFits(script: Script) {
    && script.create.now.At?
    && (forall k :: 0 <= k < |script.turns| ==>
          var turn := script.turns[k];
          && NotBefore(turn.claim.now, LastTime(script, k)) && NotBefore(turn.record.then_, turn.claim.now)
          && NotBefore(turn.record.now, turn.record.then_))
    && NotBefore(script.finish.now, LastTime(script, |script.turns|))
  }

  predicate Fits(ctx: Context, script: Script) {
    && |script.turns| == |ctx.application.operations|
    && Quiet(script.create) && Quiet(script.finish) && Quiet(script.conclude) && ClockFits(script)
    && forall k :: 0 <= k < |script.turns| ==> TurnFits(ctx, k, script.turns[k])
  }

  /** The issue that the reply to create `k` names. */
  function IssueAt(ctx: Context, script: Script, items: seq<string>, k: nat): IssueReference
    requires Fits(ctx, script) && CreatesFirst(ctx.application.operations, items) && k < |items|
  {
    assert TurnFits(ctx, k, script.turns[k]) && ctx.application.operations[k] == CreateOf(items[k]);
    CreatedIssue(ctx.application.repository, PayloadOf(script.turns[k]))
  }

  /** The remote names a usable and new issue each time: its node id is not blank, and it is none that was named
      before or is bound already. */
  ghost predicate NewIssues(ctx: Context, script: Script, items: seq<string>)
    requires Fits(ctx, script)
  {
    && CreatesFirst(ctx.application.operations, items)
    && (forall i :: 0 <= i < |items| ==> !Blank(IssueAt(ctx, script, items, i).nodeId))
    && (forall i, j :: 0 <= i < j < |items| ==> IssueAt(ctx, script, items, i) != IssueAt(ctx, script, items, j))
    && (ctx.typedEndpoints ==>
          forall i, ref :: 0 <= i < |items| && ref in ctx.existing && ctx.existing[ref].Ok? ==>
            IssueAt(ctx, script, items, i) != ctx.existing[ref].value)
  }

  function StepsOfOperation(c: nat, turn: Turn): seq<Event> {
    [Advance(c, turn.claim), Advance(c, turn.validate), Advance(c, turn.prepare), Advance(c, turn.send),
     Advance(c, turn.record)]
  }

  /** The operations from `k` on, up to `m`. */
  function StepsBetween(c: nat, script: Script, k: nat, m: nat): seq<Event>
    requires k <= m <= |script.turns|
    decreases m - k
  {
    if k == m then [] else StepsOfOperation(c, script.turns[k]) + StepsBetween(c, script, k + 1, m)
  }

  /** Arrive, create, every operation, finalise, conclude. */
  function Uninterrupted(ctx: Context, c: nat, script: Script): seq<Event> {
    [Arrive(c, ctx), Advance(c, script.create)] + StepsBetween(c, script, 0, |script.turns|)
    + [Advance(c, script.finish), Advance(c, script.conclude)]
  }

  // ---- the states it goes through ----

  function RefsBelow(a: ApplicationId, k: nat): seq<ReceiptId>
    requires k <= |a.operations|
  {
    seq(k, i requires 0 <= i < k => ReceiptId(OperationAt(a, i)))
  }

  function StateAfter(ctx: Context, script: Script, k: nat): ExecutionState
    requires k <= |ctx.application.operations| == |script.turns|
  {
    InitialFor(ctx, script.create.now).(phase := if k == 0 then Pending else PartiallyApplied, next := k,
                                        refs := RefsBelow(ctx.application, k), updatedAt := LastTime(script, k))
  }

  function ReceiptAfter(ctx: Context, script: Script, k: nat): OperationReceipt
    requires k < |ctx.application.operations| == |script.turns| && Replied(script.turns[k])
  {
    OperationReceipt(ctx.application, k, ctx.application.operations[k], ctx.provenance,
                     RemoteOf(ctx, k, script.turns[k]), script.turns[k].claim.now, script.turns[k].record.then_)
  }

  ghost predicate ReceiptsBelow(t: Tables, ctx: Context, script: Script, k: nat)
    requires k <= |ctx.application.operations| == |script.turns|
  {
    forall j :: 0 <= j < k ==> ReceiptStored(t, ctx, script, j)
  }

  ghost predicate ReceiptStored(t: Tables, ctx: Context, script: Script, j: nat)
    requires j < |ctx.application.operations| == |script.turns|
  {
    var id := OperationAt(ctx.application, j);
    Replied(script.turns[j]) && id in t.receipts && t.receipts[id] == ReceiptAfter(ctx, script, j)
  }

  /** The first `k` operations are done and the applier is about to claim the next. */
  ghost predicate AtProgress(w: World, c: nat, ctx: Context, script: Script, k: nat) {
    var a := ctx.application;
    && k <= |a.operations| == |script.turns|
    && c in w.clients && w.clients[c] == Ready(ctx, StateAfter(ctx, script, k))
    && a in w.tables.executions && w.tables.executions[a] == StateAfter(ctx, script, k)
    && ReceiptsBelow(w.tables, ctx, script, k) && NothingFrom(w.tables, a, k)
  }

  ghost predicate NothingFrom(t: Tables, a: ApplicationId, k: nat) {
    && (forall o :: o in t.receipts && o.application == a ==> o.index < k)
    && (forall o :: o in t.attempts && o.application == a ==> o.index < k)
    && a !in t.applicationReceipts
  }

  function ClaimedAt(ctx: Context, script: Script, k: nat, stage: Stage): Client
    requires k < |ctx.application.operations| == |script.turns|
  {
    var turn := script.turns[k];
    Holding(ctx, StateAfter(ctx, script, k).(phase := Applying, owner := Some(turn.claim.owner),
                                             attempt := Some(OperationAt(ctx.application, k)),
                                             updatedAt := turn.claim.now),
            ExecutionTables.NewAttempt(ctx, k, turn.claim.now), turn.claim.owner, stage)
  }

  /** Operation `k` is claimed; everything else is as it was. */
  ghost predicate AtStage(w: World, c: nat, ctx: Context, script: Script, k: nat, stage: Stage) {
    var a := ctx.application;
    && k < |a.operations| == |script.turns|
    && c in w.clients && w.clients[c] == ClaimedAt(ctx, script, k, stage)
    && a in w.tables.executions && w.tables.executions[a] == ClaimedAt(ctx, script, k, stage).state
    && OperationAt(a, k) in w.tables.attempts
    && w.tables.attempts[OperationAt(a, k)] == ClaimedAt(ctx, script, k, stage).attempt
    && ReceiptsBelow(w.tables, ctx, script, k)
    && (forall o :: o in w.tables.receipts && o.application == a ==> o.index < k)
    && (forall o :: o in w.tables.attempts && o.application == a ==> o.index <= k)
    && a !in w.tables.applicationReceipts
  }

  lemma {:induction false} ClockRises(script: Script, k: nat)
    requires ClockFits(script) && k <= |script.turns|
    ensures NotBefore(LastTime(script, k), script.create.now)
    decreases k
  {
    if k > 0 {
      ClockRises(script, k - 1);
      assert NotBefore(script.turns[k - 1].claim.now, LastTime(script, k - 1));
    }
  }

  lemma ClaimAccepted(t: Tables, ctx: Context, script: Script, k: nat)
    requires k < |ctx.application.operations| == |script.turns| && Fits(ctx, script)
    requires var a := ctx.application;
      a in t.executions && t.executions[a] == StateAfter(ctx, script, k) && OperationAt(a, k) !in t.attempts
    ensures var turn := script.turns[k]; var held := ClaimedAt(ctx, script, k, Fresh); var a := ctx.application;
      Claim(t, ctx, StateAfter(ctx, script, k), turn.claim.owner, turn.claim.now, turn.claim.guards) ==
        Ok(Claimed(t.(attempts := t.attempts[OperationAt(a, k) := held.attempt],
                      executions := t.executions[a := held.state]),
                   held.state, held.attempt))
  {
    hide RefsBelow, TrustedRemote, RemoteOf, LastTime;
    assert TurnFits(ctx, k, script.turns[k]);
    ClockRises(script, k);
    assert NotBefore(script.turns[k].claim.now, LastTime(script, k));
  }

  lemma ClaimStep(w: World, c: nat, ctx: Context, script: Script, k: nat)
    requires AtProgress(w, c, ctx, script, k) && k < |ctx.application.operations| && Fits(ctx, script)
    ensures AtStage(Next(w, Advance(c, script.turns[k].claim)), c, ctx, script, k, Fresh)
  {
    hide Create, Claim, Complete, Settle, Finalize, LoadReceipts, GetReplay, ValidateClaim, Materialized, TrustedSuccess,
         ReceiptsBelow, RefsBelow, LastTime, Fits;
    assert OperationAt(ctx.application, k) !in w.tables.attempts;
    ClaimAccepted(w.tables, ctx, script, k);
    SameReceipts(w.tables, Next(w, Advance(c, script.turns[k].claim)).tables, ctx, script, k);
  }

  lemma SameReceipts(t: Tables, u: Tables, ctx: Context, script: Script, k: nat)
    requires k <= |ctx.application.operations| == |script.turns|
    requires ReceiptsBelow(t, ctx, script, k) && u.receipts == t.receipts
    ensures ReceiptsBelow(u, ctx, script, k)
  {
    hide RemoteOf, ReceiptAfter;
    forall j | 0 <= j < k
      ensures ReceiptStored(u, ctx, script, j)
    {
      assert ReceiptStored(t, ctx, script, j);
    }
  }

  lemma ValidateStep(w: World, c: nat, ctx: Context, script: Script, k: nat)
    requires AtStage(w, c, ctx, script, k, Fresh) && Fits(ctx, script)
    ensures AtStage(Next(w, Advance(c, script.turns[k].validate)), c, ctx, script, k, Validated)
  {
    hide Create, Claim, Complete, Settle, Finalize, LoadReceipts, GetReplay, Materialized, TrustedSuccess, TrustedRemote,
         RemoteOf, ReceiptsBelow, ClockFits, RefsBelow, LastTime, Replied;
    assert TurnFits(ctx, k, script.turns[k]);
  }

  // ---- the command of a claimed operation ----

  lemma LookupAccepted(w: World, c: nat, ctx: Context, script: Script, k: nat, items: seq<string>, j: nat)
    requires AtStage(w, c, ctx, script, k, Validated) && Fits(ctx, script) && j < |items| <= k
    requires ItemsValid(items) && CreatesFirst(ctx.application.operations, items)
    ensures EvidencedCreate(ctx.application, w.tables, j)
    ensures ReferenceFrom(ctx, w.tables, items[j], 0) == Looked(ctx.application, w.tables, j)
    ensures Looked(ctx.application, w.tables, j) ==
              if Blank(IssueAt(ctx, script, items, j).nodeId) then Err(ValueError("write_reference_invalid"))
              else Ok(IssueAt(ctx, script, items, j))
  {
    hide TrustedCreate, ReferenceFrom, Fits, ClaimedAt;
    var a := ctx.application;
    assert ReceiptStored(w.tables, ctx, script, j);
    assert a.operations[j] == CreateOf(items[j]);
    TurnEvidence(ctx, script, j);
    assert EvidenceAt(w.tables, a, j);
    LookupReaches(ctx, w.tables, items, j, 0);
    TrustedCreateReference(a.repository, PayloadOf(script.turns[j]));
  }

  lemma TurnEvidence(ctx: Context, script: Script, j: nat)
    requires Fits(ctx, script) && j < |ctx.application.operations|
    ensures |script.turns| == |ctx.application.operations| && TurnFits(ctx, j, script.turns[j])
    ensures TrustedRemote(ctx.application.repository, ctx.application.operations[j].kind, RemoteOf(ctx, j, script.turns[j]))
  {
  }

  lemma FirstCommandReady(w: World, c: nat, ctx: Context, script: Script, k: nat, items: seq<string>,
                          planned: seq<Planned>)
    requires AtStage(w, c, ctx, script, k, Validated) && Runnable(ctx, items, First(planned)) && k >= |items|
    requires Fits(ctx, script) && NewIssues(ctx, script, items)
    ensures Materialized(ctx, w.tables, ClaimedAt(ctx, script, k, Validated).attempt, None).Ok?
  {
    hide Operand, Fits, Looked, IssueAt, StateAfter, ReceiptsBelow, ReferenceFrom, Compile, CreatesFirst, Raises,
         EndpointsKnown, EvidencedCreate, Blank;
    var p := FirstRelationship(ctx, items, planned, k);
    var i :| 0 <= i < |items| && items[i] == p.source;
    var j :| 0 <= j < |items| && items[j] == p.target;
    RunnableShape(ctx, items, First(planned));
    LookupAccepted(w, c, ctx, script, k, items, i);
    LookupAccepted(w, c, ctx, script, k, items, j);
    PlainOperand(ctx, w.tables, p.source);
    PlainOperand(ctx, w.tables, p.target);
    OperandsOfTwo(ctx, w.tables, p.source, p.target);
    assert IssueAt(ctx, script, items, i) != IssueAt(ctx, script, items, j);
  }

  lemma FirstRelationship(ctx: Context, items: seq<string>, planned: seq<Planned>, k: nat) returns (p: Planned)
    requires Runnable(ctx, items, First(planned)) && |items| <= k < |ctx.application.operations|
    ensures k - |items| < |planned| && p == planned[k - |items|]
    ensures ctx.application.operations[k] == RelationshipOf(p) && IsRelationshipKind(RelationshipOf(p).kind)
    ensures p.source in items && p.target in items && p.source != p.target
  {
    CompileAt(items, planned, |items| + |planned| - 1);
    CompileAt(items, planned, k);
    p := planned[k - |items|];
    assert PlannedValid(p) && Normal(Compile(items, planned)[k]);
    assert [p.source, p.target][0] != [p.source, p.target][1];
  }

  lemma PlainOperand(ctx: Context, t: Tables, ref: string)
    requires !ctx.typedEndpoints
    ensures Operand(ctx, t, ref) == ReferenceFrom(ctx, t, ref, 0)
  {
  }

  /** What an endpoint of a typed relationship is looked up as. */
  ghost predicate Resolves(w: World, ctx: Context, script: Script, items: seq<string>, e: V2.Endpoint, r: IssueReference)
    requires Fits(ctx, script) && CreatesFirst(ctx.application.operations, items)
  {
    && Operand(ctx, w.tables, Tag(e)) == Ok(r)
    && (e.WorkItem? ==> exists j :: 0 <= j < |items| && items[j] == e.ref && r == IssueAt(ctx, script, items, j))
    && (e.ExistingIssue? ==> e.ref in ctx.existing && ctx.existing[e.ref] == Ok(r))
  }

  lemma EndpointResolves(w: World, c: nat, ctx: Context, script: Script, k: nat, items: seq<string>,
                         bindings: seq<V2.Binding>, e: V2.Endpoint) returns (r: IssueReference)
    requires AtStage(w, c, ctx, script, k, Validated) && Fits(ctx, script) && |items| <= k && ctx.typedEndpoints
    requires ItemsValid(items) && NewIssues(ctx, script, items) && V2.Known(e, items, bindings)
    requires forall ref :: ref in V2.Refs(bindings) ==> ref in ctx.existing && ctx.existing[ref].Ok?
    ensures Resolves(w, ctx, script, items, e, r)
  {
    hide Operand, Fits, Looked, IssueAt, AtStage, CreatesFirst, EvidencedCreate, Tag, ReferenceFrom, Blank;
    if e.WorkItem? {
      var j :| 0 <= j < |items| && items[j] == e.ref;
      LookupAccepted(w, c, ctx, script, k, items, j);
      TypedOperand(ctx, w.tables, items, e, j);
      r := IssueAt(ctx, script, items, j);
    } else {
      TypedOperand(ctx, w.tables, items, e, 0);
      r := ctx.existing[e.ref].value;
    }
  }

  lemma DifferentIssues(w: World, ctx: Context, script: Script, items: seq<string>, e: V2.Endpoint, e': V2.Endpoint,
                        r: IssueReference, r': IssueReference)
    requires Fits(ctx, script) && NewIssues(ctx, script, items)
    requires Resolves(w, ctx, script, items, e, r) && Resolves(w, ctx, script, items, e', r') && ctx.typedEndpoints
    requires e != e' && !(e.ExistingIssue? && e'.ExistingIssue?)
    ensures r != r'
  {
    hide Fits, IssueAt, CreatesFirst, Operand;
    if e.WorkItem? && e'.WorkItem? {
      var i :| 0 <= i < |items| && items[i] == e.ref && r == IssueAt(ctx, script, items, i);
      var j :| 0 <= j < |items| && items[j] == e'.ref && r' == IssueAt(ctx, script, items, j);
    }
  }

  lemma SecondCommandReady(w: World, c: nat, ctx: Context, script: Script, k: nat, items: seq<string>, plan: Plan)
    requires AtStage(w, c, ctx, script, k, Validated) && plan.Second? && Runnable(ctx, items, plan) && k >= |items|
    requires Fits(ctx, script) && NewIssues(ctx, script, items)
    ensures Materialized(ctx, w.tables, ClaimedAt(ctx, script, k, Validated).attempt, None).Ok?
  {
    hide Operand, Fits, IssueAt, StateAfter, ReceiptsBelow, Tag, NewIssues, V2.CompileV2, CreatesFirst;
    var pairs := V2.TypedPairs(plan.raw);
    var ops := ctx.application.operations;
    V2.CompileV2Length(items, pairs);
    V2.CompileV2At(items, pairs, k);
    var p := pairs[k - |items|];
    assert V2.Known(p.source, items, plan.bindings) && V2.Known(p.target, items, plan.bindings);
    EncodedRefs(ops, items, pairs, k);
    EncodedKind(ops[k], p);
    var x := EndpointResolves(w, c, ctx, script, k, items, plan.bindings, p.source);
    var y := EndpointResolves(w, c, ctx, script, k, items, plan.bindings, p.target);
    DifferentIssues(w, ctx, script, items, p.source, p.target, x, y);
    OperandsOfTwo(ctx, w.tables, Tag(p.source), Tag(p.target));
  }

  lemma EncodedKind(op: Operation, p: V2.TypedPlanned)
    requires V2.NormalV2(V2.RelationshipOfV2(p)) && op == Encode(V2.RelationshipOfV2(p))
    ensures IsRelationshipKind(op.kind) && p.source != p.target
  {
    TypedOfRaw(p.source);
    TypedOfRaw(p.target);
  }

  lemma CommandReady(w: World, c: nat, ctx: Context, script: Script, k: nat, items: seq<string>, plan: Plan)
    requires AtStage(w, c, ctx, script, k, Validated) && Runnable(ctx, items, plan)
    requires Fits(ctx, script) && NewIssues(ctx, script, items)
    ensures Materialized(ctx, w.tables, ClaimedAt(ctx, script, k, Validated).attempt, None).Ok?
  {
    hide Fits, NewIssues, StateAfter, ReceiptsBelow;
    if k < |items| {
      assert ctx.application.operations[k] == CreateOf(items[k]);
    } else {
      match plan
      case First(planned) => FirstCommandReady(w, c, ctx, script, k, items, planned);
      case Second(_, _) => SecondCommandReady(w, c, ctx, script, k, items, plan);
    }
  }

  /** Whenever operation `k` is claimed and validated, its command can be made. */
  ghost predicate Prepares(c: nat, ctx: Context, script: Script, k: nat)
    requires k < |ctx.application.operations| == |script.turns|
  {
    forall w: World | AtStage(w, c, ctx, script, k, Validated) ::
      Materialized(ctx, w.tables, ClaimedAt(ctx, script, k, Validated).attempt, None).Ok?
  }

  lemma AllPrepare(c: nat, ctx: Context, script: Script, items: seq<string>, plan: Plan)
    requires Runnable(ctx, items, plan) && Fits(ctx, script) && NewIssues(ctx, script, items)
    ensures forall k :: 0 <= k < |script.turns| ==> Prepares(c, ctx, script, k)
  {
    hide Materialized, Runnable, NewIssues, AtStage, ClockFits, TurnFits, StateAfter;
    forall k, w: World | 0 <= k < |script.turns| && AtStage(w, c, ctx, script, k, Validated)
      ensures Materialized(ctx, w.tables, ClaimedAt(ctx, script, k, Validated).attempt, None).Ok?
    {
      CommandReady(w, c, ctx, script, k, items, plan);
    }
  }

  lemma PrepareStep(w: World, c: nat, ctx: Context, script: Script, k: nat) returns (command: Command)
    requires AtStage(w, c, ctx, script, k, Validated) && Fits(ctx, script) && Prepares(c, ctx, script, k)
    ensures AtStage(Next(w, Advance(c, script.turns[k].prepare)), c, ctx, script, k, Sending(command))
  {
    hide Create, Claim, Complete, Settle, Finalize, LoadReceipts, GetReplay, ValidateClaim, TrustedSuccess, Materialized,
         TrustedRemote, RemoteOf, ReceiptsBelow, StateAfter, ClockFits;
    assert TurnFits(ctx, k, script.turns[k]);
    command := Materialized(ctx, w.tables, ClaimedAt(ctx, script, k, Validated).attempt, None).value;
  }

  // ---- sending and recording ----

  lemma SendStep(w: World, c: nat, ctx: Context, script: Script, k: nat, command: Command)
    requires AtStage(w, c, ctx, script, k, Sending(command)) && Fits(ctx, script)
    ensures script.turns[k].send.reply.Observed?
    ensures AtStage(Next(w, Advance(c, script.turns[k].send)), c, ctx, script, k,
                    Sent(script.turns[k].send.reply.observation))
  {
    hide Create, Claim, Complete, Settle, Finalize, LoadReceipts, GetReplay, ValidateClaim, Materialized, TrustedSuccess,
         TrustedRemote, RemoteOf, ReceiptsBelow, StateAfter, ClockFits;
    assert TurnFits(ctx, k, script.turns[k]);
  }

  lemma EvidenceAccepted(ctx: Context, script: Script, k: nat)
    requires Fits(ctx, script) && k < |ctx.application.operations| && WriteKind(ctx.application.operations[k].kind)
    ensures var turn := script.turns[k]; var attempt := ExecutionTables.NewAttempt(ctx, k, turn.claim.now);
      && Replied(turn)
      && TrustedSuccess(ctx, attempt, turn.send.reply.observation) == Ok(RemoteOf(ctx, k, turn))
      && NewReceipt(ctx, attempt, RemoteOf(ctx, k, turn), turn.record.then_) == ReceiptAfter(ctx, script, k)
  {
    hide TrustedCreate, TrustedRelationship, ClockFits;
    assert TurnFits(ctx, k, script.turns[k]);
  }

  predicate WriteKind(kind: string) {
    kind == CREATE || IsRelationshipKind(kind)
  }

  lemma CompiledKinds(ctx: Context, items: seq<string>, k: nat)
    requires CreatesFirst(ctx.application.operations, items) && k < |ctx.application.operations|
    ensures WriteKind(ctx.application.operations[k].kind)
  {
    assert k < |items| ==> ctx.application.operations[k] == CreateOf(items[k]);
  }

  lemma CompletionClock(script: Script, k: nat)
    requires ClockFits(script) && k < |script.turns|
    ensures var turn := script.turns[k];
      && ClockNotBefore(turn.record.now, [script.create.now, turn.claim.now, turn.claim.now, turn.claim.now])
      && ClockNotBefore(turn.record.now, [turn.claim.now, turn.record.then_])
  {
    ClockRises(script, k);
    var turn := script.turns[k];
    assert NotBefore(turn.claim.now, LastTime(script, k)) && NotBefore(turn.record.now, turn.record.then_);
  }

  lemma CompleteAccepted(w: World, c: nat, ctx: Context, script: Script, k: nat, o: Observation)
    requires AtStage(w, c, ctx, script, k, Sent(o)) && Fits(ctx, script) && Replied(script.turns[k])
    ensures var h := w.clients[c]; var id := OperationAt(ctx.application, k); var turn := script.turns[k];
      Complete(w.tables, ctx, h.state, h.attempt, h.owner, ReceiptAfter(ctx, script, k), turn.record.now,
               turn.record.guards) ==
        Ok(Updated(w.tables.(receipts := w.tables.receipts[id := ReceiptAfter(ctx, script, k)],
                             attempts := w.tables.attempts[id := h.attempt.(phase := Applied, updatedAt := turn.record.now)],
                             executions := w.tables.executions[ctx.application := StateAfter(ctx, script, k + 1)]),
                   StateAfter(ctx, script, k + 1)))
  {
    hide TrustedRemote, ReceiptsBelow, RemoteOf, ClockFits, ClockNotBefore, RefsBelow;
    var h, turn := w.clients[c], script.turns[k];
    var receipt := ReceiptAfter(ctx, script, k);
    assert TurnFits(ctx, k, turn);
    CompletionClock(script, k);
    MoreRefs(ctx.application, k);
    assert LastTime(script, k + 1) == turn.record.now;
  }

  lemma MoreRefs(a: ApplicationId, k: nat)
    requires k < |a.operations|
    ensures RefsBelow(a, k + 1) == RefsBelow(a, k) + [ReceiptId(OperationAt(a, k))]
  {
  }

  lemma MoreReceipts(t: Tables, u: Tables, ctx: Context, script: Script, k: nat)
    requires k < |ctx.application.operations| == |script.turns| && Replied(script.turns[k])
    requires ReceiptsBelow(t, ctx, script, k)
    requires u.receipts == t.receipts[OperationAt(ctx.application, k) := ReceiptAfter(ctx, script, k)]
    ensures ReceiptsBelow(u, ctx, script, k + 1)
  {
    hide RemoteOf, ReceiptAfter;
    forall j | 0 <= j < k + 1
      ensures ReceiptStored(u, ctx, script, j)
    {
      assert j < k ==> ReceiptStored(t, ctx, script, j);
    }
  }

  lemma RecordStep(w: World, c: nat, ctx: Context, script: Script, k: nat, items: seq<string>)
    requires k < |script.turns| && Replied(script.turns[k])
    requires AtStage(w, c, ctx, script, k, Sent(script.turns[k].send.reply.observation))
    requires Fits(ctx, script) && CreatesFirst(ctx.application.operations, items)
    ensures AtProgress(Next(w, Advance(c, script.turns[k].record)), c, ctx, script, k + 1)
  {
    hide Complete, TrustedSuccess, NewReceipt, StateAfter, ReceiptAfter, Create, Claim, Finalize, Settle, Materialized,
         ReceiptsBelow, TrustedRemote, RemoteOf, ClockFits, CreatesFirst;
    var turn := script.turns[k];
    assert TurnFits(ctx, k, turn);
    CompiledKinds(ctx, items, k);
    EvidenceAccepted(ctx, script, k);
    CompleteAccepted(w, c, ctx, script, k, turn.send.reply.observation);
    MoreReceipts(w.tables, Next(w, Advance(c, turn.record)).tables, ctx, script, k);
  }

  lemma OperationSteps(w: World, c: nat, ctx: Context, script: Script, k: nat, items: seq<string>)
    requires AtProgress(w, c, ctx, script, k) && k < |ctx.application.operations| && Fits(ctx, script)
    requires CreatesFirst(ctx.application.operations, items) && Prepares(c, ctx, script, k)
    ensures AtProgress(Run(w, StepsOfOperation(c, script.turns[k])), c, ctx, script, k + 1)
  {
    hide Next, AtStage, AtProgress, Fits, CreatesFirst, Prepares;
    TurnEvidence(ctx, script, k);
    var turn := script.turns[k];
    var w1 := Next(w, Advance(c, turn.claim));
    ClaimStep(w, c, ctx, script, k);
    var w2 := Next(w1, Advance(c, turn.validate));
    ValidateStep(w1, c, ctx, script, k);
    var w3 := Next(w2, Advance(c, turn.prepare));
    var command := PrepareStep(w2, c, ctx, script, k);
    var w4 := Next(w3, Advance(c, turn.send));
    SendStep(w3, c, ctx, script, k, command);
    RecordStep(w4, c, ctx, script, k, items);
    RunFive(w, StepsOfOperation(c, turn));
  }

  lemma RunFive(w: World, e: seq<Event>)
    requires |e| == 5
    ensures Run(w, e) == Next(Next(Next(Next(Next(w, e[0]), e[1]), e[2]), e[3]), e[4])
  {
    hide Next;
    RunOne(w, e[0], e[1..]);
    RunOne(Next(w, e[0]), e[1], e[2..]);
    RunOne(Next(Next(w, e[0]), e[1]), e[2], e[3..]);
    RunOne(Next(Next(Next(w, e[0]), e[1]), e[2]), e[3], e[4..]);
    RunOne(Next(Next(Next(Next(w, e[0]), e[1]), e[2]), e[3]), e[4], []);
    assert e == [e[0]] + e[1..] && e[1..] == [e[1]] + e[2..] && e[2..] == [e[2]] + e[3..];
    assert e[3..] == [e[3]] + e[4..] && e[4..] == [e[4]] + [];
  }

  lemma RunOne(w: World, e: Event, rest: seq<Event>)
    ensures Run(w, [e] + rest) == Run(Next(w, e), rest)
  {
    assert ([e] + rest)[1..] == rest;
  }

  lemma {:induction false} OperationsTo(w: World, c: nat, ctx: Context, script: Script, k: nat, m: nat,
                                        items: seq<string>)
    requires AtProgress(w, c, ctx, script, k) && Fits(ctx, script) && CreatesFirst(ctx.application.operations, items)
    requires k <= m <= |script.turns| && forall j :: k <= j < m ==> Prepares(c, ctx, script, j)
    ensures AtProgress(Run(w, StepsBetween(c, script, k, m)), c, ctx, script, m)
    decreases m - k
  {
    hide Next, TurnFits, ClockFits, CreatesFirst, ReceiptsBelow, StateAfter, Prepares;
    if k < m {
      OperationSteps(w, c, ctx, script, k, items);
      RunConcat(w, StepsOfOperation(c, script.turns[k]), StepsBetween(c, script, k + 1, m));
      OperationsTo(Run(w, StepsOfOperation(c, script.turns[k])), c, ctx, script, k + 1, m, items);
    }
  }

  // ---- the end ----

  function Completed(ctx: Context): Outcome {
    var a := ctx.application;
    Returned(ApplyResult(a, Applied, |a.operations|, Some(ApplicationReceiptId(a)), None))
  }

  lemma FinalizeStep(w: World, c: nat, ctx: Context, script: Script)
    requires WorldInv(w) && Fits(ctx, script) && ctx.application.operations != []
    requires AtProgress(w, c, ctx, script, |script.turns|)
    ensures AtEnd(Next(w, Advance(c, script.finish)), c, ctx)
  {
    hide WorldInv, Create, Claim, Complete, Settle, LoadReceipts, GetReplay, ValidateClaim, Materialized, TrustedSuccess,
         Finalize, ReceiptsBelow, TurnFits;
    var a := ctx.application;
    var s := StateAfter(ctx, script, |a.operations|);
    var now, guards := script.finish.now, script.finish.guards;
    KnownTables(w);
    FinalizeSucceedsExactly(w.tables, ctx, now, guards);
    FinalizeKeeps(w.tables, ctx, s, now, guards);
    FinalRow(Finalize(w.tables, ctx, s, now, guards).value.tables, a);
  }

  lemma KnownTables(w: World)
    requires WorldInv(w)
    ensures TablesInv(w.tables)
  {
  }

  lemma FinalRow(t: Tables, a: ApplicationId)
    requires TablesInv(t) && Managed(t, a) && t.executions[a].phase.Applied?
    ensures t.executions[a].next == |a.operations| && a in t.applicationReceipts && t.applicationReceipts[a].application == a
  {
    assert RowInv(t, a);
  }

  /** The application receipt is stored and only the answer is left to give. */
  ghost predicate AtEnd(w: World, c: nat, ctx: Context) {
    var a := ctx.application;
    && c in w.clients && w.clients[c].Concluding? && w.clients[c].ctx == ctx && !w.clients[c].replay
    && Managed(w.tables, a) && w.clients[c].state == w.tables.executions[a]
    && w.tables.executions[a].phase.Applied? && w.tables.executions[a].next == |a.operations|
    && a in w.tables.applicationReceipts && w.tables.applicationReceipts[a].application == a
  }

  lemma ConcludeStep(w: World, c: nat, ctx: Context, input: Input)
    requires AtEnd(w, c, ctx)
    ensures var v := Next(w, Advance(c, input));
      && c in v.clients && v.clients[c] == Stopped(Completed(ctx))
      && AppliedIn(v.tables, ctx.application)
  {
    hide Create, Claim, Complete, Settle, Finalize, LoadReceipts, GetReplay, ValidateClaim, Materialized,
         TrustedSuccess;
  }

  ghost predicate AppliedIn(t: Tables, a: ApplicationId) {
    Managed(t, a) && t.executions[a].phase.Applied? && t.executions[a].next == |a.operations|
  }

  /** No row of the application is stored. */
  ghost predicate NothingStored(t: Tables, a: ApplicationId) {
    a !in t.executions && NothingFrom(t, a, 0)
  }

  lemma FirstSteps(w: World, ctx: Context, c: nat, script: Script)
    requires c !in w.clients && NothingStored(w.tables, ctx.application) && Fits(ctx, script)
    ensures AtProgress(Run(w, [Arrive(c, ctx), Advance(c, script.create)]), c, ctx, script, 0)
  {
    hide Claim, Complete, Settle, Finalize, LoadReceipts, GetReplay, ValidateClaim, Materialized, TrustedSuccess, TurnFits;
    var create := Advance(c, script.create);
    RunOne(w, Arrive(c, ctx), [create]);
    RunOne(Next(w, Arrive(c, ctx)), create, []);
    assert StateAfter(ctx, script, 0) == InitialFor(ctx, script.create.now);
  }

  /** Whatever has run before and left no row of the application: an uninterrupted run of an eligible plan of either
      version ends applied, the call returns the application receipt, and every operation was dispatched once,
      in compiled order.  This holds of every clock that does not go back, of all owners drawn, and of all
      replies that pass the evidence check and name a usable and new issue each time. */
  lemma EligiblePlanCompletes(earlier: seq<Event>, ctx: Context, c: nat, items: seq<string>, plan: Plan, script: Script)
    requires Runnable(ctx, items, plan) && Fits(ctx, script) && NewIssues(ctx, script, items)
    requires c !in Run(Init, earlier).clients && NothingStored(Run(Init, earlier).tables, ctx.application)
    ensures var w := Run(Init, earlier + Uninterrupted(ctx, c, script)); var a := ctx.application;
      && c in w.clients && w.clients[c] == Stopped(Completed(ctx))
      && DispatchesOf(w.log, a) == seq(|a.operations|, i => i)
  {
    hide Next, AtProgress, AtEnd, WorldInv, Runnable, Fits, NothingStored, NewIssues, Prepares;
    var a, n := ctx.application, |script.turns|;
    RunnableShape(ctx, items, plan);
    SameLength(ctx, script);
    AllPrepare(c, ctx, script, items, plan);
    var w0 := Run(Init, earlier);
    var opening := [Arrive(c, ctx), Advance(c, script.create)];
    var closing := [Advance(c, script.finish), Advance(c, script.conclude)];
    var middle := StepsBetween(c, script, 0, n);
    FirstSteps(w0, ctx, c, script);
    var w1 := Run(w0, opening);
    OperationsTo(w1, c, ctx, script, 0, n, items);
    var w2 := Run(w1, middle);
    RunConcat(w0, opening, middle);
    RunConcat(w0, opening + middle, closing);
    RunConcat(Init, earlier, Uninterrupted(ctx, c, script));
    RunOne(w2, closing[0], [closing[1]]);
    RunOne(Next(w2, closing[0]), closing[1], []);
    InitInv();
    RunKeeps(Init, earlier);
    RunKeeps(w0, opening + middle);
    FinalizeStep(w2, c, ctx, script);
    ConcludeStep(Next(w2, closing[0]), c, ctx, script.conclude);
    DispatchesAreInitialSegment(earlier + Uninterrupted(ctx, c, script), a);
  }

  lemma SameLength(ctx: Context, script: Script)
    requires Fits(ctx, script)
    ensures |script.turns| == |ctx.application.operations|
  {
  }

  // ---- where checked evidence is not enough ----

  lemma CreatesPrepare(c: nat, ctx: Context, script: Script, items: seq<string>, plan: Plan, k: nat)
    requires Runnable(ctx, items, plan) && CreatesFirst(ctx.application.operations, items)
    requires |script.turns| == |ctx.application.operations| && k < |items|
    ensures Prepares(c, ctx, script, k)
  {
    hide AtStage, CreatesFirst;
    assert ctx.application.operations[k] == CreateOf(items[k]) by { CreateAt(ctx.application.operations, items, k); }
  }

  lemma CreateAt(ops: seq<Operation>, items: seq<string>, k: nat)
    requires CreatesFirst(ops, items) && k < |items|
    ensures ops[k] == CreateOf(items[k])
  {
  }

  /** The steps up to preparing the first relationship. */
  function UpToFirstRelationship(ctx: Context, c: nat, script: Script, n: nat): seq<Event>
    requires n < |script.turns|
  {
    [Arrive(c, ctx), Advance(c, script.create)] + StepsBetween(c, script, 0, n)
    + [Advance(c, script.turns[n].claim), Advance(c, script.turns[n].validate), Advance(c, script.turns[n].prepare)]
  }

  /** Every reply passes the evidence check, and yet the first relationship of an eligible plan fails, whenever the
      node id that the remote gave to its source is blank: the operation is about to be settled as failed, and
      is never dispatched. */
  lemma BlankNodeIdFails(earlier: seq<Event>, ctx: Context, c: nat, items: seq<string>, planned: seq<Planned>,
                         script: Script, i: nat)
    requires Runnable(ctx, items, First(planned)) && Fits(ctx, script) && planned != []
    requires c !in Run(Init, earlier).clients && NothingStored(Run(Init, earlier).tables, ctx.application)
    requires CreatesFirst(ctx.application.operations, items)
    requires i < |items| && items[i] == planned[0].source && Blank(IssueAt(ctx, script, items, i).nodeId)
    ensures |items| < |script.turns|
    ensures var w := Run(Init, earlier + UpToFirstRelationship(ctx, c, script, |items|));
      && c in w.clients && w.clients[c].Holding?
      && w.clients[c].stage == Settling(Failed, "write_reference_invalid", false)
  {
    hide Next, AtProgress, AtStage, Runnable, Fits, NothingStored, Prepares, IssueAt, CreatesFirst;
    var n := |items|;
    SameLength(ctx, script);
    FirstLength(ctx, items, planned);
    forall k | 0 <= k < n
      ensures Prepares(c, ctx, script, k)
    {
      CreatesPrepare(c, ctx, script, items, First(planned), k);
    }
    var w0 := Run(Init, earlier);
    var opening, middle := [Arrive(c, ctx), Advance(c, script.create)], StepsBetween(c, script, 0, n);
    var turn := script.turns[n];
    var closing := [Advance(c, turn.claim), Advance(c, turn.validate), Advance(c, turn.prepare)];
    FirstSteps(w0, ctx, c, script);
    var w1 := Run(w0, opening);
    OperationsTo(w1, c, ctx, script, 0, n, items);
    var w2 := Run(w1, middle);
    RunConcat(w0, opening, middle);
    RunConcat(w0, opening + middle, closing);
    RunConcat(Init, earlier, UpToFirstRelationship(ctx, c, script, n));
    RunThree(w2, closing);
    var w3 := Next(w2, closing[0]);
    ClaimStep(w2, c, ctx, script, n);
    var w4 := Next(w3, closing[1]);
    ValidateStep(w3, c, ctx, script, n);
    BlankPrepare(w4, c, ctx, script, items, planned, i);
  }

  lemma RunThree(w: World, e: seq<Event>)
    requires |e| == 3
    ensures Run(w, e) == Next(Next(Next(w, e[0]), e[1]), e[2])
  {
    hide Next;
    RunOne(w, e[0], e[1..]);
    RunOne(Next(w, e[0]), e[1], e[2..]);
    RunOne(Next(Next(w, e[0]), e[1]), e[2], []);
    assert e == [e[0]] + e[1..] && e[1..] == [e[1]] + e[2..] && e[2..] == [e[2]] + [];
  }

  lemma FirstLength(ctx: Context, items: seq<string>, planned: seq<Planned>)
    requires Runnable(ctx, items, First(planned)) && planned != []
    ensures |ctx.application.operations| == |items| + |planned|
    ensures ctx.application.operations[|items|] == RelationshipOf(planned[0])
  {
    CompileAt(items, planned, |items|);
  }

  lemma PlainItems(ctx: Context, items: seq<string>, planned: seq<Planned>)
    requires Runnable(ctx, items, First(planned))
    ensures !ctx.typedEndpoints && forall ref :: ref in items ==> ref in ctx.items
  {
  }

  lemma BlankPrepare(w: World, c: nat, ctx: Context, script: Script, items: seq<string>, planned: seq<Planned>, i: nat)
    requires Runnable(ctx, items, First(planned)) && Fits(ctx, script) && planned != []
    requires CreatesFirst(ctx.application.operations, items) && AtStage(w, c, ctx, script, |items|, Validated)
    requires i < |items| && items[i] == planned[0].source && Blank(IssueAt(ctx, script, items, i).nodeId)
    ensures var v := Next(w, Advance(c, script.turns[|items|].prepare));
      c in v.clients && v.clients[c].Holding? && v.clients[c].stage == Settling(Failed, "write_reference_invalid", false)
  {
    hide Create, Claim, Complete, Settle, Finalize, LoadReceipts, GetReplay, ValidateClaim, TrustedSuccess, Operand,
         TrustedRemote, RemoteOf, ReceiptsBelow, StateAfter, ClockFits, Runnable, IssueAt, CreatesFirst, Looked,
         EvidencedCreate, ReferenceFrom, Blank;
    var p, k := planned[0], |items|;
    FirstLength(ctx, items, planned);
    var same := FirstRelationship(ctx, items, planned, k);
    RunnableShape(ctx, items, First(planned));
    assert TurnFits(ctx, k, script.turns[k]);
    PlainItems(ctx, items, planned);
    LookupAccepted(w, c, ctx, script, k, items, i);
    PlainOperand(ctx, w.tables, p.source);
    OperandsOfTwo(ctx, w.tables, p.source, p.target);
  }

  // ---- such runs exist ----

  const OWNER := OWNER_PREFIX + "00000000000000000000000000000000"

  function AcceptedPayload(repository: string, number: int, node: string): map<string, Field> {
    map["repository_identity" := Text(repository), "issue_number" := Number(number), "numeric_issue_id" := Text("1"),
        "node_id" := Text(node), "executor_identity" := Text(EXECUTOR), "contract_version" := Text("1"),
        "response_status" := Number(201)]
  }

  function AcceptedInput(repository: string, number: int, node: string): Input {
    Input(At(0), At(0), Guards(None, None), None, OWNER,
          Observed(Success("issue", Some(AcceptedPayload(repository, number, node)))), None)
  }

  function AcceptedTurn(repository: string, number: int, node: string): Turn {
    var input := AcceptedInput(repository, number, node);
    Turn(input, input, input, input, input)
  }

  function AcceptedTurns(repository: string, start: nat, node: string, n: nat): (turns: seq<Turn>)
    ensures |turns| == n && forall k :: 0 <= k < n ==> turns[k] == AcceptedTurn(repository, start + k + 1, node)
  {
    seq(n, k requires 0 <= k < n => AcceptedTurn(repository, start + k + 1, node))
  }

  /** A run in which the clock stands still, and the remote numbers issues from `start` on and gives each the same
      node id. */
  function AcceptedScript(ctx: Context, start: nat, node: string): Script {
    var idle := AcceptedInput(ctx.application.repository, 1, node);
    Script(idle, AcceptedTurns(ctx.application.repository, start, node, |ctx.application.operations|), idle, idle)
  }

  lemma AcceptedIsTrusted(repository: string, kind: string, number: int, node: string)
    requires number > 0 && node != ""
    ensures TrustedRemote(repository, kind,
                          RemoteResult("github." + kind + ".v1", "issue", AcceptedPayload(repository, number, node)))
  {
  }

  lemma AcceptedTurnFits(ctx: Context, k: nat, number: int, node: string)
    requires k < |ctx.application.operations| && number > 0 && node != ""
    ensures TurnFits(ctx, k, AcceptedTurn(ctx.application.repository, number, node))
  {
    hide TrustedRemote;
    AcceptedIsTrusted(ctx.application.repository, ctx.application.operations[k].kind, number, node);
    assert |OWNER| == 48;
  }

  lemma AcceptedFits(ctx: Context, start: nat, node: string)
    requires node != ""
    ensures Fits(ctx, AcceptedScript(ctx, start, node))
  {
    hide TurnFits;
    var script, repository := AcceptedScript(ctx, start, node), ctx.application.repository;
    forall k | 0 <= k < |script.turns|
      ensures TurnFits(ctx, k, script.turns[k])
    {
      AcceptedTurnFits(ctx, k, start + k + 1, node);
    }
    forall k | 0 <= k <= |script.turns|
      ensures LastTime(script, k) == At(0)
    {
      assert k > 0 ==> script.turns[k - 1] == AcceptedTurn(repository, start + (k - 1) + 1, node);
    }
  }

  /** A number above those of all bound issues. */
  lemma {:induction false} AboveExisting(existing: map<string, Result<IssueReference>>, refs: set<string>) returns (n: nat)
    requires refs <= existing.Keys
    ensures forall ref :: ref in refs && existing[ref].Ok? ==> existing[ref].value.number <= n
    decreases |refs|
  {
    if refs == {} {
      n := 0;
    } else {
      var ref :| ref in refs;
      var m := AboveExisting(existing, refs - {ref});
      n := if existing[ref].Ok? && existing[ref].value.number > m then existing[ref].value.number else m;
    }
  }

  /** Every eligible plan has such a run. */
  lemma EligiblePlanHasRun(ctx: Context, items: seq<string>, plan: Plan) returns (script: Script)
    requires Runnable(ctx, items, plan)
    ensures Fits(ctx, script) && NewIssues(ctx, script, items)
  {
    hide Fits, Runnable, CreatesFirst;
    RunnableShape(ctx, items, plan);
    var start := AboveExisting(ctx.existing, ctx.existing.Keys);
    script := AcceptedScript(ctx, start, "n");
    AcceptedFits(ctx, start, "n");
    assert !IsSpace("n"[0]);
    forall i | 0 <= i < |items|
      ensures IssueAt(ctx, script, items, i).number == start + i + 1 && IssueAt(ctx, script, items, i).nodeId == "n"
    {
      NumberedFrom(ctx, start, "n", items, i);
    }
  }

  lemma NumberedFrom(ctx: Context, start: nat, node: string, items: seq<string>, i: nat)
    requires node != "" && Fits(ctx, AcceptedScript(ctx, start, node))
    requires CreatesFirst(ctx.application.operations, items) && i < |items|
    ensures IssueAt(ctx, AcceptedScript(ctx, start, node), items, i).number == start + i + 1
    ensures IssueAt(ctx, AcceptedScript(ctx, start, node), items, i).nodeId == node
  {
    hide Fits, TrustedCreate;
    var turn := AcceptedScript(ctx, start, node).turns[i];
    assert turn == AcceptedTurn(ctx.application.repository, start + i + 1, node);
    assert PayloadOf(turn)["issue_number"] == Number(start + i + 1) && PayloadOf(turn)["node_id"] == Text(node);
  }

  /** And every eligible plan with a relationship has one that fails on a blank node id. */
  lemma BlankNodeIdRun(ctx: Context, items: seq<string>, planned: seq<Planned>) returns (script: Script, i: nat)
    requires Runnable(ctx, items, First(planned)) && planned != []
    ensures Fits(ctx, script) && CreatesFirst(ctx.application.operations, items) && i < |items|
    ensures items[i] == planned[0].source && Blank(IssueAt(ctx, script, items, i).nodeId)
  {
    hide Fits, Runnable, CreatesFirst;
    RunnableShape(ctx, items, First(planned));
    FirstLength(ctx, items, planned);
    var p := FirstRelationship(ctx, items, planned, |items|);
    i :| 0 <= i < |items| && items[i] == p.source;
    script := AcceptedScript(ctx, 0, " ");
    AcceptedFits(ctx, 0, " ");
    NumberedFrom(ctx, 0, " ", items, i);
    assert IsSpace(" "[0]);
  }
}
