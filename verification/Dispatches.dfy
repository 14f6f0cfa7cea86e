/** What is sent to the remote system: over every run, the command of each dispatch is the one that its operation and
    the live context stand for. */
module Dispatches {
  import opened Outcomes
  import opened Sequences
  import opened WriteOperations
  import V2 = WriteOperationsV2
  import opened ExecutionRecords
  import opened ExecutionTables
  import opened GenericCalls
  import opened ManagedRows
  import opened Materialize
  import opened ApplyProtocol
  import opened SafeOrder

  // ---- what a command must be ----

  /** The command of a create: the rendered title and body of its item, in their places, under the operation's own
      request identity. */
  predicate CreatesItem(ctx: Context, id: OperationId, command: Command) {
    && command.CreateIssue? && command.repository == id.application.repository && command.request == id
    && id.operation.clientRefs != [] && command.clientRef == id.operation.clientRefs[0]
    && command.clientRef in ctx.items && ctx.items[command.clientRef].Ok?
    && command.draft.title == ctx.items[command.clientRef].value.title
    && command.draft.body == ctx.items[command.clientRef].value.body
  }

  /** The stored receipt of the create at `k` names this issue. */
  predicate NamedBy(t: Tables, a: ApplicationId, k: nat, issue: IssueReference) {
    && k < |a.operations| && OperationAt(a, k) in t.receipts
    && var payload := t.receipts[OperationAt(a, k)].remote.payload;
    && issue.repository == a.repository
    && "issue_number" in payload && payload["issue_number"] == Number(issue.number)
    && "numeric_issue_id" in payload && payload["numeric_issue_id"] == Text(issue.numericId)
    && "node_id" in payload && payload["node_id"] == Text(issue.nodeId)
  }

  predicate CreatedAs(t: Tables, a: ApplicationId, ref: string, issue: IssueReference) {
    exists k: nat | k < |a.operations| ::
      a.operations[k].kind == "create_issue" && a.operations[k].clientRefs == [ref] && NamedBy(t, a, k, issue)
  }

  /** The issue that an operand stands for. */
  predicate StandsFor(ctx: Context, t: Tables, ref: string, issue: IssueReference) {
    if !ctx.typedEndpoints then CreatedAs(t, ctx.application, ref, issue)
    else if "work_item:" <= ref then CreatedAs(t, ctx.application, ref[10..], issue)
    else "existing_issue:" <= ref && ref[15..] in ctx.existing && ctx.existing[ref[15..]] == Ok(issue)
  }

  /** The command of a relationship: the issues of its first and its second operand, in that order. */
  predicate JoinsOperands(ctx: Context, t: Tables, id: OperationId, command: Command) {
    && command.Relationship? && command.repository == id.application.repository
    && |id.operation.clientRefs| >= 2
    && StandsFor(ctx, t, id.operation.clientRefs[0], command.first)
    && StandsFor(ctx, t, id.operation.clientRefs[1], command.second)
    && command.first != command.second
  }

  predicate CommandFits(ctx: Context, t: Tables, id: OperationId, command: Command) {
    && ctx.application == id.application
    && if id.operation.kind == "create_issue" then CreatesItem(ctx, id, command)
       else id.operation.kind in {"add_sub_issue", "add_dependency"} && JoinsOperands(ctx, t, id, command)
  }

  // ---- making a command ----

  lemma {:induction false} ReferenceNamed(ctx: Context, t: Tables, ref: string, i: nat)
    requires i <= |ctx.application.operations| && ReferenceFrom(ctx, t, ref, i).Ok?
    ensures CreatedAs(t, ctx.application, ref, ReferenceFrom(ctx, t, ref, i).value)
    decreases |ctx.application.operations| - i
  {
    var a := ctx.application;
    if IsCreateOf(a.operations[i], ref) {
      assert NamedBy(t, a, i, ReferenceFrom(ctx, t, ref, i).value);
    } else {
      ReferenceNamed(ctx, t, ref, i + 1);
    }
  }

  lemma OperandStandsFor(ctx: Context, t: Tables, ref: string)
    requires Operand(ctx, t, ref).Ok?
    ensures StandsFor(ctx, t, ref, Operand(ctx, t, ref).value)
  {
    hide ReferenceFrom, CreatedAs;
    if !ctx.typedEndpoints {
      ReferenceNamed(ctx, t, ref, 0);
    } else if WORK_ITEM <= ref {
      ReferenceNamed(ctx, t, ref[|WORK_ITEM|..], 0);
    }
  }

  lemma OperandsStandFor(ctx: Context, t: Tables, refs: seq<string>)
    requires |refs| >= 2 && Operands(ctx, t, refs).Ok?
    ensures var r := Operands(ctx, t, refs).value;
      |r| >= 2 && StandsFor(ctx, t, refs[0], r[0]) && StandsFor(ctx, t, refs[1], r[1])
  {
    hide Operand, StandsFor;
    OperandStandsFor(ctx, t, refs[0]);
    assert refs[1..][0] == refs[1];
    OperandStandsFor(ctx, t, refs[1]);
  }

  lemma {:induction false} OperandsCount(ctx: Context, t: Tables, refs: seq<string>)
    requires Operands(ctx, t, refs).Ok?
    ensures |Operands(ctx, t, refs).value| == |refs|
    decreases |refs|
  {
    if refs != [] {
      OperandsCount(ctx, t, refs[1..]);
    }
  }

  /** Whatever command materialising makes is the one that the operation stands for. */
  lemma MaterializedFits(ctx: Context, t: Tables, attempt: Attempt, revalidation: Option<string>)
    requires attempt.application == ctx.application && Materialized(ctx, t, attempt, revalidation).Ok?
    ensures CommandFits(ctx, t, attempt.Id(), Materialized(ctx, t, attempt, revalidation).value)
  {
    hide Operands, StandsFor;
    if attempt.operation.kind == "add_sub_issue" || attempt.operation.kind == "add_dependency" {
      OperandsCount(ctx, t, attempt.operation.clientRefs);
      OperandsStandFor(ctx, t, attempt.operation.clientRefs);
    }
  }

  // ---- receipts stay ----

  /** No receipt of the application is lost or changed. */
  ghost predicate ReceiptsStay(t: Tables, u: Tables, a: ApplicationId) {
    forall k: nat :: k < |a.operations| && OperationAt(a, k) in t.receipts ==>
      OperationAt(a, k) in u.receipts && u.receipts[OperationAt(a, k)] == t.receipts[OperationAt(a, k)]
  }

  lemma CreatedStays(t: Tables, u: Tables, a: ApplicationId, ref: string, issue: IssueReference)
    requires ReceiptsStay(t, u, a) && CreatedAs(t, a, ref, issue)
    ensures CreatedAs(u, a, ref, issue)
  {
    var k: nat :| k < |a.operations| && a.operations[k].kind == "create_issue" && a.operations[k].clientRefs == [ref]
                  && NamedBy(t, a, k, issue);
    assert NamedBy(u, a, k, issue);
  }

  lemma StandingStays(ctx: Context, t: Tables, u: Tables, ref: string, issue: IssueReference)
    requires ReceiptsStay(t, u, ctx.application) && StandsFor(ctx, t, ref, issue)
    ensures StandsFor(ctx, u, ref, issue)
  {
    hide CreatedAs, ReceiptsStay;
    if !ctx.typedEndpoints {
      CreatedStays(t, u, ctx.application, ref, issue);
    } else if "work_item:" <= ref {
      CreatedStays(t, u, ctx.application, ref[10..], issue);
    }
  }

  lemma FitStays(ctx: Context, t: Tables, u: Tables, id: OperationId, command: Command)
    requires ReceiptsStay(t, u, id.application) && CommandFits(ctx, t, id, command)
    ensures CommandFits(ctx, u, id, command)
  {
    hide StandsFor, ReceiptsStay;
    if id.operation.kind != "create_issue" {
      StandingStays(ctx, t, u, id.operation.clientRefs[0], command.first);
      StandingStays(ctx, t, u, id.operation.clientRefs[1], command.second);
    }
  }

  lemma SameRowsStay(t: Tables, u: Tables, a: ApplicationId)
    requires SameRows(t, u, a)
    ensures ReceiptsStay(t, u, a)
  {
    forall k: nat | k < |a.operations| && OperationAt(a, k) in t.receipts
      ensures OperationAt(a, k) in u.receipts && u.receipts[OperationAt(a, k)] == t.receipts[OperationAt(a, k)]
    {
      assert SameAt(t.receipts, u.receipts, OperationAt(a, k));
    }
  }

  /** One event never loses or changes a receipt of a managed application. */
  lemma NextKeepsReceipts(w: World, e: Event, a: ApplicationId)
    requires WorldInv(w) && Managed(w.tables, a)
    ensures ReceiptsStay(w.tables, Next(w, e).tables, a)
  {
    hide WorldInv, TablesInv, Create, Claim, Complete, Settle, Finalize, Perform, ValidateClaim, GetReplay, Materialized,
         TrustedSuccess, SameRows;
    match e
    case GenericStore(step) =>
      GenericKeeps(w, step, a);
    case Advance(c, input) =>
      if c in w.clients {
        MoveKeepsReceipts(w.tables, w.clients[c], input, a);
      }
    case _ =>
  }

  lemma GenericKeeps(w: World, step: GenericStep, a: ApplicationId)
    requires WorldInv(w) && Managed(w.tables, a)
    ensures ReceiptsStay(w.tables, Next(w, GenericStore(step)).tables, a)
  {
    hide Perform, ReceiptsStay, SameRows;
    if Perform(w.tables, step.call, step.orchestrated, step.refusal).Ok? {
      GenericNonInterference(w.tables, step.call, step.orchestrated, step.refusal);
      SameRowsStay(w.tables, Next(w, GenericStore(step)).tables, a);
    } else {
      assert ReceiptsStay(w.tables, w.tables, a) by { NothingChanged(w.tables, a); }
    }
  }

  lemma NothingChanged(t: Tables, a: ApplicationId)
    ensures ReceiptsStay(t, t, a)
  {
  }

  lemma CreateKeepsReceipts(t: Tables, s: ExecutionState, guards: Guards)
    ensures var r := Create(t, s, guards); r.Ok? ==> r.value.tables.receipts == t.receipts
  {
  }

  lemma ClaimKeepsReceipts(t: Tables, ctx: Context, s: ExecutionState, owner: string, now: Stamp, guards: Guards)
    ensures var r := Claim(t, ctx, s, owner, now, guards); r.Ok? ==> r.value.tables.receipts == t.receipts
  {
    hide ClaimableRow, ValidOwner;
  }

  lemma FinalizeKeepsReceipts(t: Tables, ctx: Context, s: ExecutionState, now: Stamp, guards: Guards)
    ensures var r := Finalize(t, ctx, s, now, guards); r.Ok? ==> r.value.tables.receipts == t.receipts
  {
    hide LoadReceipts, FinalizableRow, ClockNotBefore;
  }

  lemma SettleKeepsReceipts(t: Tables, ctx: Context, s: ExecutionState, attempt: Attempt, owner: string, target: Phase,
                            code: string, now: Stamp, guards: Guards)
    ensures var r := Settle(t, ctx, s, attempt, owner, target, code, now, guards);
      r.Ok? ==> r.value.tables.receipts == t.receipts
  {
    hide ClaimedRow, AttemptContinues, StateContinues;
  }

  lemma CompleteAddsReceipt(t: Tables, ctx: Context, s: ExecutionState, attempt: Attempt, owner: string,
                            receipt: OperationReceipt, now: Stamp, guards: Guards)
    ensures var r := Complete(t, ctx, s, attempt, owner, receipt, now, guards);
      r.Ok? ==> receipt.Id() !in t.receipts && r.value.tables.receipts == t.receipts[receipt.Id() := receipt]
  {
    hide ClaimedRow, AttemptContinues, StateContinues, ClockNotBefore;
  }

  /** Only completing writes a receipt, and only one that was not there. */
  lemma MoveKeepsReceipts(t: Tables, k: Client, input: Input, a: ApplicationId)
    ensures ReceiptsStay(t, Move(t, k, input).tables, a)
  {
    hide Create, Claim, Complete, Settle, Finalize, GetReplay, ValidateClaim, Materialized, TrustedSuccess, NewReceipt,
         SettleTarget, SettleCode;
    match k
    case Starting(ctx) => CreateKeepsReceipts(t, InitialFor(ctx, input.now), input.guards);
    case Ready(ctx, s) =>
      ClaimKeepsReceipts(t, ctx, s, input.owner, input.now, input.guards);
      FinalizeKeepsReceipts(t, ctx, s, input.now, input.guards);
    case Holding(ctx, state, attempt, owner, stage) =>
      if stage.Settling? {
        SettleKeepsReceipts(t, ctx, state, attempt, owner, stage.target, stage.code, input.now, input.guards);
      } else if stage.Sent? && stage.observation.Success? {
        RecordKeepsReceipts(t, k, input, a);
      }
    case _ =>
  }

  lemma RecordKeepsReceipts(t: Tables, h: Client, input: Input, a: ApplicationId)
    requires h.Holding? && h.stage.Sent? && h.stage.observation.Success?
    ensures ReceiptsStay(t, Record(t, h, input).0, a)
  {
    hide Complete, TrustedSuccess, NewReceipt;
    var o := h.stage.observation;
    if Evidence(t, h, o, input).Ok? {
      var remote := TrustedSuccess(h.ctx, h.attempt, o).value;
      var receipt := NewReceipt(h.ctx, h.attempt, remote, input.then_);
      CompleteAddsReceipt(t, h.ctx, h.state, h.attempt, h.owner, receipt, input.now, input.guards);
    }
  }

  // ---- over runs ----

  /** An applier arrived with this live context. */
  ghost predicate ArrivesIn(events: seq<Event>, ctx: Context) {
    exists i :: 0 <= i < |events| && events[i].Arrive? && events[i].ctx == ctx
  }

  /** All live contexts of the application are of one version. */
  ghost predicate OneVersion(events: seq<Event>, a: ApplicationId, typed: bool) {
    forall ctx :: ArrivesIn(events, ctx) && ctx.application == a ==> ctx.typedEndpoints == typed
  }

  function ArrivedIn(events: seq<Event>): (seen: set<Context>)
    ensures forall i :: 0 <= i < |events| && events[i].Arrive? ==> events[i].ctx in seen
    ensures forall ctx :: ctx in seen ==> ArrivesIn(events, ctx)
  {
    if events == [] then {}
    else
      var rest := ArrivedIn(events[1..]);
      assert forall i :: 0 < i < |events| ==> events[i] == events[1..][i - 1];
      assert forall i :: 0 <= i < |events[1..]| ==> events[1..][i] == events[i + 1];
      if events[0].Arrive? then {events[0].ctx} + rest else rest
  }

  ghost predicate ClientFits(t: Tables, seen: set<Context>, k: Client) {
    && (k.Stopped? || k.ctx in seen)
    && (k.Holding? && k.stage.Sending? ==> CommandFits(k.ctx, t, k.attempt.Id(), k.stage.command))
  }

  /** A live context of an arrival accounts for the command. */
  ghost predicate Accounted(t: Tables, seen: set<Context>, d: Dispatched) {
    exists ctx :: ctx in seen && CommandFits(ctx, t, d.id, d.command)
  }

  ghost predicate CommandInv(w: World, seen: set<Context>) {
    && (forall c :: c in w.clients ==> ClientFits(w.tables, seen, w.clients[c]))
    && (forall p :: 0 <= p < |w.log| ==> Accounted(w.tables, seen, w.log[p]))
  }

  lemma AccountedStays(t: Tables, u: Tables, seen: set<Context>, d: Dispatched)
    requires ReceiptsStay(t, u, d.id.application) && Accounted(t, seen, d)
    ensures Accounted(u, seen, d)
  {
    hide CommandFits, ReceiptsStay;
    var ctx :| ctx in seen && CommandFits(ctx, t, d.id, d.command);
    FitStays(ctx, t, u, d.id, d.command);
  }

  lemma LogStays(w: World, e: Event, seen: set<Context>)
    requires WorldInv(w) && CommandInv(w, seen)
    ensures forall p :: 0 <= p < |w.log| ==> Accounted(Next(w, e).tables, seen, w.log[p])
  {
    hide Next, Accounted, ClientFits, TablesInv, ClientInv, OneHolder;
    forall p | 0 <= p < |w.log|
      ensures Accounted(Next(w, e).tables, seen, w.log[p])
    {
      assert WasClaimed(w.tables, w.log[p].id);
      NextKeepsReceipts(w, e, w.log[p].id.application);
      AccountedStays(w.tables, Next(w, e).tables, seen, w.log[p]);
    }
  }

  /** The client that does not move keeps its fitting command. */
  lemma BystanderFits(w: World, e: Event, seen: set<Context>, d: nat)
    requires WorldInv(w) && CommandInv(w, seen) && d in w.clients
    ensures ClientFits(Next(w, e).tables, seen, w.clients[d])
  {
    hide Next, Accounted, CommandFits, TablesInv, LogInv, OneHolder;
    var k := w.clients[d];
    assert ClientFits(w.tables, seen, k);
    if k.Holding? && k.stage.Sending? {
      assert ClientInv(w.tables, w.log, k);
      NextKeepsReceipts(w, e, k.ctx.application);
      FitStays(k.ctx, w.tables, Next(w, e).tables, k.attempt.Id(), k.stage.command);
    }
  }

  lemma MoverFits(w: World, c: nat, input: Input, seen: set<Context>)
    requires WorldInv(w) && CommandInv(w, seen) && c in w.clients
    ensures var m := Move(w.tables, w.clients[c], input);
      && ClientFits(m.tables, seen, m.client)
      && forall p :: 0 <= p < |m.sent| ==> Accounted(m.tables, seen, m.sent[p])
  {
    hide Create, Claim, Complete, Settle, Finalize, ValidateClaim, GetReplay, Materialized, TrustedSuccess, CommandFits,
         TablesInv, LogInv, OneHolder, NewReceipt;
    var k := w.clients[c];
    assert ClientFits(w.tables, seen, k) && ClientInv(w.tables, w.log, k);
    if k.Holding? && k.stage.Validated? && Materialized(k.ctx, w.tables, k.attempt, input.revalidation).Ok? {
      MaterializedFits(k.ctx, w.tables, k.attempt, input.revalidation);
    }
  }

  lemma NextKeepsCommands(w: World, e: Event, seen: set<Context>)
    requires WorldInv(w) && CommandInv(w, seen) && (e.Arrive? ==> e.ctx in seen)
    ensures CommandInv(Next(w, e), seen)
  {
    hide WorldInv, Accounted, ClientFits, Move, PerformOne;
    var v := Next(w, e);
    LogStays(w, e, seen);
    forall d | d in w.clients
      ensures ClientFits(v.tables, seen, w.clients[d])
    {
      BystanderFits(w, e, seen, d);
    }
    match e
    case Advance(c, input) =>
      if c in w.clients {
        MoverFits(w, c, input, seen);
      }
    case Arrive(c, ctx) => StartFits(v.tables, seen, ctx);
    case Crash(c) => StoppedFits(v.tables, seen);
    case _ =>
  }

  lemma StartFits(t: Tables, seen: set<Context>, ctx: Context)
    requires ctx in seen
    ensures ClientFits(t, seen, Starting(ctx))
  {
  }

  lemma StoppedFits(t: Tables, seen: set<Context>)
    ensures ClientFits(t, seen, Stopped(Crashed))
  {
  }

  lemma {:induction false} RunKeepsCommands(w: World, events: seq<Event>, seen: set<Context>)
    requires WorldInv(w) && CommandInv(w, seen) && ArrivedIn(events) <= seen
    ensures CommandInv(Run(w, events), seen)
    decreases |events|
  {
    hide WorldInv, CommandInv, Next;
    if events != [] {
      NextKeepsCommands(w, events[0], seen);
      NextKeeps(w, events[0]);
      RunKeepsCommands(Next(w, events[0]), events[1..], seen);
    }
  }

  /** In every run, each dispatch carries the command that its operation stands for in the live context of some
      arrival: a create the rendered item, a relationship the issues of its two operands in their order. */
  lemma DispatchedCommandsFit(events: seq<Event>, p: nat) returns (ctx: Context)
    requires p < |Run(Init, events).log|
    ensures var w := Run(Init, events);
      CommandFits(ctx, w.tables, w.log[p].id, w.log[p].command) && IsOperation(w.log[p].id)
    ensures ArrivesIn(events, ctx)
  {
    hide Run, WorldInv, CommandFits;
    var seen := ArrivedIn(events);
    InitInv();
    RunKeeps(Init, events);
    RunKeepsCommands(Init, events, seen);
    var w := Run(Init, events);
    assert Accounted(w.tables, seen, w.log[p]);
    ctx :| ctx in seen && CommandFits(ctx, w.tables, w.log[p].id, w.log[p].command);
    assert WasClaimed(w.tables, w.log[p].id) by { LoggedWasClaimed(w, p); }
  }

  lemma LoggedWasClaimed(w: World, p: nat)
    requires WorldInv(w) && p < |w.log|
    ensures WasClaimed(w.tables, w.log[p].id)
  {
  }

  // ---- eligible plans ----

  /** The dispatch of the create at `k` of an eligible plan of either version carries the item at `k`, rendered by the
      live context of an arrival for the application. */
  lemma EligibleCreatesDispatch(events: seq<Event>, p: nat, items: seq<string>) returns (ctx: Context)
    requires p < |Run(Init, events).log|
    requires var d := Run(Init, events).log[p];
      CreatesFirst(d.id.application.operations, items) && d.id.index < |items|
    ensures ArrivesIn(events, ctx)
    ensures var d := Run(Init, events).log[p]; var a, k := d.id.application, d.id.index;
      && ctx.application == a && k < |a.operations| && items[k] in ctx.items && ctx.items[items[k]].Ok?
      && d.command == CreateIssue(a.repository, items[k],
                                  Draft(ctx.items[items[k]].value.title, ctx.items[items[k]].value.body), OperationAt(a, k))
  {
    hide Run;
    ctx := DispatchedCommandsFit(events, p);
  }

  /** The dispatch of a relationship of an eligible first-version plan joins the issue created for its source to the
      issue created for its target, in that order. */
  lemma EligibleRelationshipsDispatch(events: seq<Event>, p: nat, items: seq<string>, planned: seq<Planned>)
    requires p < |Run(Init, events).log|
    requires var d := Run(Init, events).log[p];
      && d.id.application.operations == Compile(items, planned)
      && (forall j :: 0 <= j < |planned| ==> PlannedValid(planned[j])) && |items| <= d.id.index
    requires OneVersion(events, Run(Init, events).log[p].id.application, false)
    ensures var w := Run(Init, events); var d := w.log[p]; var a := d.id.application;
      && d.id.index < |items| + |planned|
      && var q := planned[d.id.index - |items|];
      && d.command.Relationship? && d.command.repository == a.repository
      && CreatedAs(w.tables, a, q.source, d.command.first) && CreatedAs(w.tables, a, q.target, d.command.second)
  {
    hide Run, CreatedAs;
    var ctx := DispatchedCommandsFit(events, p);
    var d := Run(Init, events).log[p];
    CompileAt(items, planned, d.id.index);
  }

  /** What a typed endpoint stands for. */
  predicate EndpointIs(ctx: Context, t: Tables, e: V2.Endpoint, issue: IssueReference) {
    match e
    case WorkItem(ref) => CreatedAs(t, ctx.application, ref, issue)
    case ExistingIssue(ref) => ref in ctx.existing && ctx.existing[ref] == Ok(issue)
  }

  lemma TaggedStandsFor(ctx: Context, t: Tables, e: V2.Endpoint, issue: IssueReference)
    requires ctx.typedEndpoints && StandsFor(ctx, t, Tag(e), issue)
    ensures EndpointIs(ctx, t, e, issue)
  {
    hide CreatedAs;
    if e.WorkItem? {
      assert Tag(e)[10..] == e.ref;
    } else {
      assert Tag(e)[0] == 'e' && "work_item:"[0] == 'w';
      assert Tag(e)[15..] == e.ref;
    }
  }

  /** The same for the second version: the issues that its typed endpoints stand for. */
  lemma EligibleTypedRelationshipsDispatch(events: seq<Event>, p: nat, items: seq<string>, pairs: seq<V2.TypedPlanned>)
    returns (ctx: Context)
    requires p < |Run(Init, events).log|
    requires var d := Run(Init, events).log[p];
      EncodesAll(d.id.application.operations, V2.CompileV2(items, pairs)) && |items| <= d.id.index
    requires OneVersion(events, Run(Init, events).log[p].id.application, true)
    ensures ArrivesIn(events, ctx)
    ensures var w := Run(Init, events); var d := w.log[p]; var a := d.id.application;
      && ctx.application == a && d.id.index < |items| + |pairs|
      && var q := pairs[d.id.index - |items|];
      && d.command.Relationship? && d.command.repository == a.repository
      && EndpointIs(ctx, w.tables, q.source, d.command.first) && EndpointIs(ctx, w.tables, q.target, d.command.second)
  {
    hide Run, CreatedAs, StandsFor, EndpointIs, Tag, V2.CompileV2, EncodesAll;
    ctx := DispatchedCommandsFit(events, p);
    var w := Run(Init, events);
    var d := w.log[p];
    TypedRelationshipAt(d.id.application.operations, items, pairs, d.id.index);
    var q := pairs[d.id.index - |items|];
    TaggedStandsFor(ctx, w.tables, q.source, d.command.first);
    TaggedStandsFor(ctx, w.tables, q.target, d.command.second);
  }

  lemma TypedRelationshipAt(ops: seq<Operation>, items: seq<string>, pairs: seq<V2.TypedPlanned>, i: nat)
    requires EncodesAll(ops, V2.CompileV2(items, pairs)) && |items| <= i < |ops|
    ensures i < |items| + |pairs| && IsRelationshipKind(ops[i].kind)
    ensures ops[i].clientRefs == [Tag(pairs[i - |items|].source), Tag(pairs[i - |items|].target)]
  {
    V2.CompileV2Length(items, pairs);
    EncodedCreatesFirst(ops, items, pairs);
    EncodedRefs(ops, items, pairs, i);
  }
}
