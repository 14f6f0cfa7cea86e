/** What the durable rows say about the remote system, compared with what it answered: over every run, a finished
    operation holds the evidence of its own successful answer, an open outcome stands for an ambiguous answer, and an
    operation recorded as failed or blocked was never carried out.  The conditions on evidence are given here by
    themselves, apart from the functions that the applier checks them with. */
module Answers {
  import opened Outcomes
  import opened WriteOperations
  import opened ExecutionRecords
  import opened ExecutionTables
  import opened GenericCalls
  import opened ManagedRows
  import opened Materialize
  import opened ApplyProtocol

  // ---- evidence ----

  /** Twenty digits at most, and no leading zero. */
  predicate IssueNumberText(s: string) {
    1 <= |s| <= 20 && '1' <= s[0] <= '9' && forall i :: 0 <= i < |s| ==> '0' <= s[i] <= '9'
  }

  predicate HasText(payload: map<string, Field>, key: string) {
    key in payload && payload[key].Text?
  }

  /** The evidence that every write must bring. */
  predicate VouchesForWrite(repository: string, payload: map<string, Field>) {
    && HasText(payload, "repository_identity") && payload["repository_identity"].text == repository
    && HasText(payload, "executor_identity")
    && payload["executor_identity"].text == "delivery-system:github-rest-write-v1"
    && HasText(payload, "contract_version")
    && "response_status" in payload && payload["response_status"] == Number(201)
  }

  /** What a created issue must bring besides, and nothing more. */
  predicate VouchesForIssue(payload: map<string, Field>) {
    && payload.Keys == {"contract_version", "executor_identity", "issue_number", "node_id", "numeric_issue_id",
                        "repository_identity", "response_status"}
    && payload["issue_number"].Number? && payload["issue_number"].number >= 1
    && HasText(payload, "numeric_issue_id") && IssueNumberText(payload["numeric_issue_id"].text)
    && HasText(payload, "node_id") && |payload["node_id"].text| >= 1
  }

  predicate Vouches(repository: string, kind: string, o: Observation) {
    && o.Success? && |o.identity| >= 1 && o.payload.Some?
    && WriteKind(kind)
    && VouchesForWrite(repository, o.payload.value)
    && (kind == "create_issue" ==> VouchesForIssue(o.payload.value))
  }

  function ResultKind(kind: string): string {
    match kind
    case "create_issue" => "github.create_issue.v1"
    case "add_sub_issue" => "github.add_sub_issue.v1"
    case "add_dependency" => "github.add_dependency.v1"
    case _ => ""
  }

  predicate WriteKind(kind: string) {
    kind == "create_issue" || kind == "add_sub_issue" || kind == "add_dependency"
  }

  lemma KindNames(kind: string)
    requires WriteKind(kind)
    ensures "github." + kind + ".v1" == ResultKind(kind)
  {
    if kind == "create_issue" {
      assert "github." + "create_issue" + ".v1" == "github.create_issue.v1";
    } else if kind == "add_sub_issue" {
      assert "github." + "add_sub_issue" + ".v1" == "github.add_sub_issue.v1";
    } else {
      assert "github." + "add_dependency" + ".v1" == "github.add_dependency.v1";
    }
  }

  /** An answer is accepted exactly when it vouches for the write. */
  lemma AcceptedExactly(ctx: Context, attempt: Attempt, o: Observation)
    requires o.Success?
    ensures TrustedSuccess(ctx, attempt, o).Ok? <==> Vouches(ctx.application.repository, attempt.operation.kind, o)
    ensures TrustedSuccess(ctx, attempt, o).Err? ==>
              TrustedSuccess(ctx, attempt, o).error ==
              ValueError(if o.payload.Some? && !WriteKind(attempt.operation.kind) then "write_operation_kind_invalid"
                         else "write_observation_invalid")
  {
    hide TrustedRelationship, TrustedCreate, VouchesForWrite, VouchesForIssue;
    if o.payload.Some? {
      WriteExactly(ctx.application.repository, o.payload.value);
      IssueExactly(ctx.application.repository, o.payload.value);
    }
  }

  /** What is kept of an accepted answer is its identity and its payload, under the kind of the operation. */
  lemma KeptOfAnswer(ctx: Context, attempt: Attempt, o: Observation)
    requires o.Success? && TrustedSuccess(ctx, attempt, o).Ok?
    ensures o.payload.Some?
    ensures TrustedSuccess(ctx, attempt, o).value ==
              RemoteResult(ResultKind(attempt.operation.kind), o.identity, o.payload.value)
  {
    hide TrustedRelationship, TrustedCreate, ResultKind;
    KindNames(attempt.operation.kind);
  }

  lemma WriteExactly(repository: string, payload: map<string, Field>)
    ensures TrustedRelationship(repository, payload) <==> VouchesForWrite(repository, payload)
  {
  }

  lemma IssueExactly(repository: string, payload: map<string, Field>)
    ensures TrustedCreate(repository, payload) <==> VouchesForWrite(repository, payload) && VouchesForIssue(payload)
  {
    WriteExactly(repository, payload);
  }

  // ---- what the remote answered ----

  datatype Answer = Answer(attempt: Attempt, provenance: Provenance, observation: Observation)

  predicate Asks(w: World, e: Event) {
    && e.Advance? && e.client in w.clients && w.clients[e.client].Holding? && w.clients[e.client].stage.Sending?
    && e.input.current.None? && e.input.reply.Observed?
  }

  function AnswerTo(w: World, e: Event): seq<Answer> {
    if Asks(w, e) then
      var h := w.clients[e.client];
      [Answer(h.attempt, h.ctx.provenance, e.input.reply.observation)]
    else []
  }

  /** The answers of the remote in a run, in order. */
  function AnswersIn(w: World, events: seq<Event>): seq<Answer>
    decreases |events|
  {
    if events == [] then [] else AnswerTo(w, events[0]) + AnswersIn(Next(w, events[0]), events[1..])
  }

  /** The receipt holds what this answer brought. */
  ghost predicate Records(receipt: OperationReceipt, x: Answer) {
    && x.attempt.Id() == receipt.Id()
    && Vouches(receipt.application.repository, receipt.operation.kind, x.observation)
    && receipt.remote == RemoteResult(ResultKind(receipt.operation.kind), x.observation.identity,
                                      x.observation.payload.value)
    && receipt.startedAt == x.attempt.startedAt && receipt.provenance == x.provenance
  }

  ghost predicate Backed(done: seq<Answer>, receipt: OperationReceipt) {
    exists p :: 0 <= p < |done| && Records(receipt, done[p])
  }

  ghost predicate AnsweredAmbiguously(done: seq<Answer>, id: OperationId) {
    exists p :: 0 <= p < |done| && done[p].attempt.Id() == id && done[p].observation.Ambiguous?
  }

  /** Every answer for the operation, if there is one, was a rejection. */
  ghost predicate NeverTaken(done: seq<Answer>, id: OperationId) {
    forall p :: 0 <= p < |done| && done[p].attempt.Id() == id ==> done[p].observation.Rejected?
  }

  /** An operation that ends in a phase is truly in it. */
  ghost predicate EndsTruly(done: seq<Answer>, id: OperationId, phase: Phase) {
    && (phase.OutcomeUnknown? ==> AnsweredAmbiguously(done, id))
    && (phase.Failed? || phase.Blocked? ==> NeverTaken(done, id))
  }

  // ---- the invariant ----

  ghost predicate ReceiptTrue(t: Tables, done: seq<Answer>, id: OperationId) {
    id in t.receipts && Backed(done, t.receipts[id])
  }

  /** What the rows of a managed application say is what the remote answered. */
  ghost predicate RowTrue(t: Tables, done: seq<Answer>, a: ApplicationId)
    requires Managed(t, a)
  {
    var s := t.executions[a];
    && (forall k :: 0 <= k < s.next && k < |a.operations| ==> ReceiptTrue(t, done, OperationAt(a, k)))
    && (s.next < |a.operations| ==> EndsTruly(done, OperationAt(a, s.next), s.phase))
  }

  ghost predicate RowsTrue(t: Tables, done: seq<Answer>) {
    forall a :: Managed(t, a) ==> RowTrue(t, done, a)
  }

  ghost predicate ClientTrue(done: seq<Answer>, k: Client) {
    && (k.Holding? && k.stage.Sent? ==> Answer(k.attempt, k.ctx.provenance, k.stage.observation) in done)
    && (k.Holding? && k.stage.Settling? ==>
          k.stage.target in {Failed, Blocked, OutcomeUnknown} && EndsTruly(done, k.attempt.Id(), k.stage.target))
  }

  /** An operation is answered once at most, and only after it was dispatched. */
  ghost predicate OnceEach(log: seq<Dispatched>, done: seq<Answer>) {
    && (forall p :: 0 <= p < |done| ==> InLog(log, done[p].attempt.Id()))
    && (forall p, q :: 0 <= p < q < |done| ==> done[p].attempt.Id() != done[q].attempt.Id())
  }

  ghost predicate ClientsTrue(clients: map<nat, Client>, done: seq<Answer>) {
    forall c :: c in clients ==> ClientTrue(done, clients[c])
  }

  ghost predicate AnswerInv(w: World, done: seq<Answer>) {
    RowsTrue(w.tables, done) && ClientsTrue(w.clients, done) && OnceEach(w.log, done)
  }

  // ---- steps without an answer ----

  lemma RowFrame(t: Tables, u: Tables, done: seq<Answer>, a: ApplicationId)
    requires Managed(t, a) && RowTrue(t, done, a) && SameRows(t, u, a)
    ensures Managed(u, a) && RowTrue(u, done, a)
  {
    hide Backed, EndsTruly;
    assert SameAt(t.executions, u.executions, a);
    forall k | 0 <= k < t.executions[a].next && k < |a.operations|
      ensures ReceiptTrue(u, done, OperationAt(a, k))
    {
      assert ReceiptTrue(t, done, OperationAt(a, k));
      assert SameAt(t.receipts, u.receipts, OperationAt(a, k));
    }
  }

  /** Only the rows of one application change. */
  lemma OneRowChanges(t: Tables, u: Tables, done: seq<Answer>, a: ApplicationId)
    requires RowsTrue(t, done) && forall b :: b != a ==> SameRows(t, u, b)
    requires Managed(u, a) ==> RowTrue(u, done, a)
    ensures RowsTrue(u, done)
  {
    hide RowTrue;
    forall b | Managed(u, b)
      ensures RowTrue(u, done, b)
    {
      if b != a {
        assert SameRows(t, u, b) && SameAt(t.executions, u.executions, b);
        RowFrame(t, u, done, b);
      }
    }
  }

  /** The receipts and the index stay, and the phase is not one that ends an operation. */
  lemma QuietRow(t: Tables, u: Tables, done: seq<Answer>, a: ApplicationId)
    requires Managed(t, a) && Managed(u, a) && RowTrue(t, done, a)
    requires u.receipts == t.receipts && u.executions[a].next == t.executions[a].next
    requires u.executions[a].phase in {Applying, Applied}
    ensures RowTrue(u, done, a)
  {
    hide Backed;
    forall k | 0 <= k < u.executions[a].next && k < |a.operations|
      ensures ReceiptTrue(u, done, OperationAt(a, k))
    {
      assert ReceiptTrue(t, done, OperationAt(a, k));
    }
  }

  lemma StartStaysTrue(t: Tables, ctx: Context, input: Input, done: seq<Answer>)
    requires TablesInv(t) && RowsTrue(t, done)
    ensures RowsTrue(Start(t, ctx, input).tables, done)
  {
    hide Create, TablesInv, SameRows;
    var s := InitialFor(ctx, input.now);
    if Create(t, s, input.guards).Ok? {
      CreateKeeps(t, s, input.guards);
      if s.application !in t.executions {
        OneRowChanges(t, Start(t, ctx, input).tables, done, s.application);
      }
    }
  }

  lemma ProceedStaysTrue(t: Tables, ctx: Context, s: ExecutionState, input: Input, done: seq<Answer>)
    requires TablesInv(t) && RowsTrue(t, done)
    ensures RowsTrue(Proceed(t, ctx, s, input).tables, done)
  {
    hide Claim, Finalize, TablesInv, SameRows, RowTrue;
    var a, u := ctx.application, Proceed(t, ctx, s, input).tables;
    if s.next < |a.operations| {
      if Claim(t, ctx, s, input.owner, input.now, input.guards).Ok? {
        ClaimKeeps(t, ctx, s, input.owner, input.now, input.guards);
        QuietRow(t, u, done, a);
        OneRowChanges(t, u, done, a);
      }
    } else if Finalize(t, ctx, s, input.now, input.guards).Ok? {
      FinalizeKeeps(t, ctx, s, input.now, input.guards);
      QuietRow(t, u, done, a);
      OneRowChanges(t, u, done, a);
    }
  }

  lemma GenericStaysTrue(t: Tables, step: GenericStep, done: seq<Answer>)
    requires TablesInv(t) && RowsTrue(t, done)
    ensures RowsTrue(PerformOne(t, step), done)
  {
    hide Perform, RowTrue, RowInv, SameRows;
    if Perform(t, step.call, step.orchestrated, step.refusal).Ok? {
      GenericNonInterference(t, step.call, step.orchestrated, step.refusal);
      forall a | Managed(PerformOne(t, step), a)
        ensures RowTrue(PerformOne(t, step), done, a)
      {
        RowFrame(t, PerformOne(t, step), done, a);
      }
    }
  }

  // ---- settling ----

  lemma FinishStaysTrue(t: Tables, h: Client, input: Input, done: seq<Answer>)
    requires TablesInv(t) && RowsTrue(t, done) && h.Holding? && h.stage.Settling? && ClientTrue(done, h)
    ensures RowsTrue(Finish(t, h, input).0, done) && ClientTrue(done, Finish(t, h, input).1)
  {
    hide Settle, TablesInv, SameRows, EndsTruly, RowTrue;
    var target, code := h.stage.target, h.stage.code;
    if Settle(t, h.ctx, h.state, h.attempt, h.owner, target, code, input.now, input.guards).Ok? {
      SettleKeeps(t, h.ctx, h.state, h.attempt, h.owner, target, code, input.now, input.guards);
      SettledRow(t, h, input, done);
      OneRowChanges(t, Finish(t, h, input).0, done, h.ctx.application);
    }
  }

  lemma SettledRow(t: Tables, h: Client, input: Input, done: seq<Answer>)
    requires TablesInv(t) && RowsTrue(t, done) && h.Holding? && h.stage.Settling?
    requires EndsTruly(done, h.attempt.Id(), h.stage.target)
    requires Settle(t, h.ctx, h.state, h.attempt, h.owner, h.stage.target, h.stage.code, input.now, input.guards).Ok?
    ensures var u := Finish(t, h, input).0;
      Managed(u, h.ctx.application) && RowTrue(u, done, h.ctx.application)
  {
    hide TablesInv, SameRows, EndsTruly, Backed;
    var a, u := h.ctx.application, Finish(t, h, input).0;
    SettleKeeps(t, h.ctx, h.state, h.attempt, h.owner, h.stage.target, h.stage.code, input.now, input.guards);
    SettlesItsClaim(t, h, input);
    hide Settle;
    assert RowTrue(t, done, a);
    forall k | 0 <= k < u.executions[a].next && k < |a.operations|
      ensures ReceiptTrue(u, done, OperationAt(a, k))
    {
      assert ReceiptTrue(t, done, OperationAt(a, k));
    }
  }

  lemma SettlesItsClaim(t: Tables, h: Client, input: Input)
    requires TablesInv(t) && h.Holding? && h.stage.Settling?
    requires Settle(t, h.ctx, h.state, h.attempt, h.owner, h.stage.target, h.stage.code, input.now, input.guards).Ok?
    ensures h.state.next < |h.ctx.application.operations|
    ensures h.attempt.Id() == OperationAt(h.ctx.application, h.state.next)
  {
    hide TablesInv, ClaimedRow;
    ClaimedRowIsCurrent(t, h.ctx, h.state, h.attempt, h.owner);
  }

  /** What a holder does before its dispatch: whatever it settles for, nothing was answered. */
  lemma UnsentStaysTrue(w: World, c: nat, input: Input, done: seq<Answer>)
    requires WorldInv(w) && AnswerInv(w, done) && c in w.clients && w.clients[c].Holding?
    requires w.clients[c].stage.Fresh? || w.clients[c].stage.Validated?
    ensures ClientTrue(done, Move(w.tables, w.clients[c], input).client)
  {
    hide ValidateClaim, Materialized, TablesInv, LogInv, OneHolder, RowsTrue, ClientTrue;
    var h := w.clients[c];
    assert ClientInv(w.tables, w.log, h);
    UnsentIsUnanswered(w.log, done, h.attempt.Id());
    UnsentStage(done, h, Move(w.tables, h, input).client);
  }

  lemma UnsentIsUnanswered(log: seq<Dispatched>, done: seq<Answer>, id: OperationId)
    requires OnceEach(log, done) && !InLog(log, id)
    ensures NeverTaken(done, id)
  {
    hide InLog;
  }

  lemma UnsentStage(done: seq<Answer>, h: Client, k: Client)
    requires h.Holding? && NeverTaken(done, h.attempt.Id())
    requires k.Holding? ==> k.attempt == h.attempt && !k.stage.Sent?
                            && (k.stage.Settling? ==> k.stage.target in {Failed, Blocked})
    ensures ClientTrue(done, k)
  {
  }

  // ---- an answer that is recorded ----

  /** There is only one answer for an operation. */
  lemma OnlyAnswer(log: seq<Dispatched>, done: seq<Answer>, x: Answer)
    requires OnceEach(log, done) && x in done
    ensures x.observation.Rejected? ==> NeverTaken(done, x.attempt.Id())
    ensures x.observation.Ambiguous? ==> AnsweredAmbiguously(done, x.attempt.Id())
  {
    hide InLog;
    var p :| 0 <= p < |done| && done[p] == x;
    forall q | 0 <= q < |done| && done[q].attempt.Id() == x.attempt.Id()
      ensures q == p
    {
    }
  }

  lemma RecordStaysTrue(w: World, c: nat, input: Input, done: seq<Answer>)
    requires WorldInv(w) && AnswerInv(w, done) && c in w.clients && w.clients[c].Holding? && w.clients[c].stage.Sent?
    ensures var r := Record(w.tables, w.clients[c], input);
      RowsTrue(r.0, done) && ClientTrue(done, r.1)
  {
    hide TablesInv, LogInv, OneHolder, RowsTrue, ClientInv, OnceEach, TrustedSuccess, Complete, NewReceipt,
         AnsweredAmbiguously, NeverTaken, InLog, SameRows;
    var h := w.clients[c];
    var x := Answer(h.attempt, h.ctx.provenance, h.stage.observation);
    assert ClientTrue(done, h);
    OnlyAnswer(w.log, done, x);
    if input.current.None? && h.stage.observation.Success? && Evidence(w.tables, h, h.stage.observation, input).Ok? {
      CompletionIsTrue(w.tables, h, input, done);
    }
  }

  lemma CompletionIsTrue(t: Tables, h: Client, input: Input, done: seq<Answer>)
    requires TablesInv(t) && RowsTrue(t, done) && h.Holding? && h.stage.Sent? && h.stage.observation.Success?
    requires Answer(h.attempt, h.ctx.provenance, h.stage.observation) in done
    requires Evidence(t, h, h.stage.observation, input).Ok?
    ensures RowsTrue(Evidence(t, h, h.stage.observation, input).value.tables, done)
  {
    hide TrustedSuccess, Complete, NewReceipt, TablesInv, RowsTrue, Backed, SameRows, RowTrue;
    var o := h.stage.observation;
    var remote := TrustedSuccess(h.ctx, h.attempt, o).value;
    var receipt := NewReceipt(h.ctx, h.attempt, remote, input.then_);
    var u := Evidence(t, h, o, input).value.tables;
    CompleteKeeps(t, h.ctx, h.state, h.attempt, h.owner, receipt, input.now, input.guards);
    CompletesItsClaim(t, h, receipt, input);
    ReceiptRecords(h, o, input, done);
    GrownRow(t, u, done, h.ctx.application, receipt);
    OneRowChanges(t, u, done, h.ctx.application);
  }

  lemma CompletesItsClaim(t: Tables, h: Client, receipt: OperationReceipt, input: Input)
    requires TablesInv(t) && h.Holding?
    requires Complete(t, h.ctx, h.state, h.attempt, h.owner, receipt, input.now, input.guards).Ok?
    ensures h.attempt.Id() == receipt.Id() && h.attempt.application == h.ctx.application
  {
    hide TablesInv, ClaimedRow, ClockNotBefore;
    ClaimedRowIsCurrent(t, h.ctx, h.state, h.attempt, h.owner);
  }

  lemma ReceiptRecords(h: Client, o: Observation, input: Input, done: seq<Answer>)
    requires h.Holding? && o.Success? && Answer(h.attempt, h.ctx.provenance, o) in done
    requires TrustedSuccess(h.ctx, h.attempt, o).Ok? && h.attempt.index < |h.ctx.application.operations|
    requires var receipt := NewReceipt(h.ctx, h.attempt, TrustedSuccess(h.ctx, h.attempt, o).value, input.then_);
      h.attempt.Id() == receipt.Id() && h.attempt.application == h.ctx.application
    ensures var receipt := NewReceipt(h.ctx, h.attempt, TrustedSuccess(h.ctx, h.attempt, o).value, input.then_);
      Backed(done, receipt)
  {
    hide TrustedSuccess, Vouches, ResultKind;
    AcceptedExactly(h.ctx, h.attempt, o);
    KeptOfAnswer(h.ctx, h.attempt, o);
    var x := Answer(h.attempt, h.ctx.provenance, o);
    var p :| 0 <= p < |done| && done[p] == x;
    var receipt := NewReceipt(h.ctx, h.attempt, TrustedSuccess(h.ctx, h.attempt, o).value, input.then_);
    assert Records(receipt, done[p]);
  }

  lemma GrownRow(t: Tables, u: Tables, done: seq<Answer>, a: ApplicationId, receipt: OperationReceipt)
    requires Managed(t, a) && Managed(u, a) && RowsTrue(t, done) && Backed(done, receipt)
    requires u.executions[a].next == t.executions[a].next + 1 && u.executions[a].phase.PartiallyApplied?
    requires t.executions[a].next < |a.operations| && receipt.Id() == OperationAt(a, t.executions[a].next)
    requires u.receipts == t.receipts[receipt.Id() := receipt]
    ensures RowTrue(u, done, a)
  {
    hide Backed;
    assert RowTrue(t, done, a);
    forall k | 0 <= k < u.executions[a].next && k < |a.operations|
      ensures ReceiptTrue(u, done, OperationAt(a, k))
    {
      if k < t.executions[a].next {
        assert ReceiptTrue(t, done, OperationAt(a, k));
      }
    }
  }

  // ---- a dispatch ----

  lemma BackedGrows(done: seq<Answer>, x: Answer, receipt: OperationReceipt)
    requires Backed(done, receipt)
    ensures Backed(done + [x], receipt)
  {
    hide Records;
    var p :| 0 <= p < |done| && Records(receipt, done[p]);
    assert (done + [x])[p] == done[p];
  }

  lemma EndGrows(done: seq<Answer>, x: Answer, id: OperationId, phase: Phase)
    requires EndsTruly(done, id, phase) && x.attempt.Id() != id
    ensures EndsTruly(done + [x], id, phase)
  {
    if phase.OutcomeUnknown? {
      var p :| 0 <= p < |done| && done[p].attempt.Id() == id && done[p].observation.Ambiguous?;
      assert (done + [x])[p] == done[p];
    }
  }

  lemma RowsGrow(t: Tables, done: seq<Answer>, x: Answer)
    requires RowsTrue(t, done) && Managed(t, x.attempt.application)
    requires var s := t.executions[x.attempt.application];
      s.phase.Applying? && s.next == x.attempt.index
    ensures RowsTrue(t, done + [x])
  {
    hide Backed;
    forall a | Managed(t, a)
      ensures RowTrue(t, done + [x], a)
    {
      var s := t.executions[a];
      assert RowTrue(t, done, a);
      forall k | 0 <= k < s.next && k < |a.operations|
        ensures ReceiptTrue(t, done + [x], OperationAt(a, k))
      {
        assert ReceiptTrue(t, done, OperationAt(a, k));
        BackedGrows(done, x, t.receipts[OperationAt(a, k)]);
      }
      if s.next < |a.operations| && OperationAt(a, s.next) != x.attempt.Id() {
        EndGrows(done, x, OperationAt(a, s.next), s.phase);
      }
    }
  }

  lemma ClientGrows(done: seq<Answer>, x: Answer, k: Client)
    requires ClientTrue(done, k) && (k.Holding? ==> k.attempt.Id() != x.attempt.Id())
    ensures ClientTrue(done + [x], k)
  {
    hide EndsTruly;
    if k.Holding? && k.stage.Settling? {
      EndGrows(done, x, k.attempt.Id(), k.stage.target);
    }
  }

  lemma OnceEachGrows(log: seq<Dispatched>, done: seq<Answer>, entry: Dispatched, x: Answer)
    requires OnceEach(log, done) && !InLog(log, x.attempt.Id()) && entry.id == x.attempt.Id()
    ensures OnceEach(log + [entry], done + [x]) && OnceEach(log + [entry], done)
  {
    hide InLog;
    forall p | 0 <= p < |done|
      ensures InLog(log + [entry], done[p].attempt.Id())
    {
      LogGrows(log, entry, done[p].attempt.Id());
    }
    LogGrows(log, entry, x.attempt.Id());
  }

  lemma SendStaysTrue(w: World, c: nat, input: Input, done: seq<Answer>)
    requires WorldInv(w) && AnswerInv(w, done) && c in w.clients && w.clients[c].Holding? && w.clients[c].stage.Sending?
    ensures AnswerInv(Next(w, Advance(c, input)), done + AnswerTo(w, Advance(c, input)))
  {
    hide TablesInv, LogInv, OnceEach, RowsTrue, OneHolder, InLog, ClientTrue;
    var h := w.clients[c];
    assert ClientInv(w.tables, w.log, h);
    var (k, sent) := Send(h, input);
    if sent == [] {
      assert w.log + [] == w.log && done + [] == done;
      UnsentIsUnanswered(w.log, done, h.attempt.Id());
      UnsentStage(done, h, k);
    } else {
      var entry := Dispatched(h.attempt.Id(), h.stage.command);
      var observation := if input.reply.Observed? then input.reply.observation else Rejected("");
      var x := Answer(h.attempt, h.ctx.provenance, observation);
      UnsentIsUnanswered(w.log, done, h.attempt.Id());
      OnceEachGrows(w.log, done, entry, x);
      if input.reply.Observed? {
        RowsGrow(w.tables, done, x);
        ClientsGrow(w, c, done, x, k);
      } else {
        assert done + [] == done;
        UnsentStage(done, h, k);
      }
    }
  }

  lemma ClientsGrow(w: World, c: nat, done: seq<Answer>, x: Answer, k: Client)
    requires WorldInv(w) && ClientsTrue(w.clients, done) && c in w.clients && w.clients[c].Holding?
    requires w.clients[c].attempt == x.attempt && k == w.clients[c].(stage := Sent(x.observation))
    requires x.provenance == w.clients[c].ctx.provenance
    ensures ClientsTrue(w.clients[c := k], done + [x])
  {
    hide TablesInv, LogInv, InLog;
    var h := w.clients[c];
    assert ClientInv(w.tables, w.log, h);
    forall d | d in w.clients && d != c
      ensures ClientTrue(done + [x], w.clients[d])
    {
      assert ClientInv(w.tables, w.log, w.clients[d]);
      ClientGrows(done, x, w.clients[d]);
    }
    assert x in done + [x];
  }

  // ---- over runs ----

  lemma NextStaysTrue(w: World, e: Event, done: seq<Answer>)
    requires WorldInv(w) && AnswerInv(w, done)
    ensures AnswerInv(Next(w, e), done + AnswerTo(w, e))
  {
    hide TablesInv, LogInv, OneHolder, ClientInv, OnceEach, RowsTrue, ClientTrue, Start, Proceed, Record, Finish,
         PerformOne, Recheck, Conclude, Validate, Prepare;
    if e.Advance? && e.client in w.clients && w.clients[e.client].Holding? && w.clients[e.client].stage.Sending? {
      SendStaysTrue(w, e.client, e.input, done);
    } else {
      assert done + [] == done && w.log + [] == w.log;
      if e.GenericStore? {
        GenericStaysTrue(w.tables, e.step, done);
      } else if e.Advance? && e.client in w.clients {
        MoveStaysTrue(w, e.client, e.input, done);
      } else {
        IdleIsTrue(done);
      }
    }
  }

  lemma IdleIsTrue(done: seq<Answer>)
    ensures forall k: Client :: !k.Holding? ==> ClientTrue(done, k)
  {
  }

  lemma MoveStaysTrue(w: World, c: nat, input: Input, done: seq<Answer>)
    requires WorldInv(w) && AnswerInv(w, done) && c in w.clients
    requires !(w.clients[c].Holding? && w.clients[c].stage.Sending?)
    ensures var m := Move(w.tables, w.clients[c], input);
      RowsTrue(m.tables, done) && ClientTrue(done, m.client) && m.sent == []
  {
    hide LogInv, OneHolder, ClientInv, OnceEach, RowsTrue, Create, Claim, Finalize, EndsTruly, GetReplay, RowInv, Keyed;
    var t, k := w.tables, w.clients[c];
    match k
    case Starting(ctx) => StartStaysTrue(t, ctx, input, done);
    case Ready(ctx, s) => ProceedStaysTrue(t, ctx, s, input, done);
    case Holding(_, _, _, _, stage) =>
      hide ClientTrue, TablesInv, Record, Finish, Validate, Prepare;
      if stage.Sent? {
        RecordStaysTrue(w, c, input, done);
      } else if stage.Settling? {
        assert ClientTrue(done, k);
        FinishStaysTrue(t, k, input, done);
      } else {
        UnsentStaysTrue(w, c, input, done);
      }
    case _ =>
  }

  lemma {:induction false} RunStaysTrue(w: World, events: seq<Event>, done: seq<Answer>)
    requires WorldInv(w) && AnswerInv(w, done)
    ensures WorldInv(Run(w, events)) && AnswerInv(Run(w, events), done + AnswersIn(w, events))
    decreases |events|
  {
    hide WorldInv, AnswerInv, AnswerTo, Next;
    if events == [] {
      assert done + [] == done;
    } else {
      NextKeeps(w, events[0]);
      NextStaysTrue(w, events[0], done);
      var more := AnswerTo(w, events[0]);
      RunStaysTrue(Next(w, events[0]), events[1..], done + more);
      assert (done + more) + AnswersIn(Next(w, events[0]), events[1..]) == done + AnswersIn(w, events);
    }
  }

  lemma FromTheStart(events: seq<Event>)
    ensures WorldInv(Run(Init, events)) && AnswerInv(Run(Init, events), AnswersIn(Init, events))
  {
    hide Run, WorldInv;
    InitInv();
    RunStaysTrue(Init, events, []);
    assert [] + AnswersIn(Init, events) == AnswersIn(Init, events);
  }

  /** In every run, each finished operation of a managed application holds exactly what the remote answered to its one
      dispatch, and that answer vouches for the write. */
  lemma FinishedWereAnswered(events: seq<Event>, a: ApplicationId, k: nat)
    requires var t := Run(Init, events).tables;
      Managed(t, a) && k < t.executions[a].next && k < |a.operations|
    ensures var t, done := Run(Init, events).tables, AnswersIn(Init, events);
      && OperationAt(a, k) in t.receipts
      && exists p :: && 0 <= p < |done| && Records(t.receipts[OperationAt(a, k)], done[p])
                     && forall q :: 0 <= q < |done| && q != p ==> done[q].attempt.Id() != OperationAt(a, k)
  {
    hide Run, AnswersIn, Records, InLog, WorldInv, ClientsTrue;
    FromTheStart(events);
    var t, done := Run(Init, events).tables, AnswersIn(Init, events);
    assert RowTrue(t, done, a) && ReceiptTrue(t, done, OperationAt(a, k));
    var p :| 0 <= p < |done| && Records(t.receipts[OperationAt(a, k)], done[p]);
    RecordsItsOwn(t.receipts[OperationAt(a, k)], done[p]);
    assert RowInv(t, a) && DoneRow(t, t.executions[a], k) by { RowOf(events, a, k); }
  }

  lemma RecordsItsOwn(receipt: OperationReceipt, x: Answer)
    requires Records(receipt, x)
    ensures x.attempt.Id() == receipt.Id()
  {
  }

  lemma RowOf(events: seq<Event>, a: ApplicationId, k: nat)
    requires var t := Run(Init, events).tables;
      Managed(t, a) && k < t.executions[a].next && k < |a.operations|
    ensures var t := Run(Init, events).tables;
      RowInv(t, a) && k < |t.executions[a].application.operations| && k < |t.executions[a].refs|
      && DoneRow(t, t.executions[a], k)
  {
    hide Run, LogInv, ClientInv, OneHolder;
    InitInv();
    RunKeeps(Init, events);
  }

  /** In every run, an application whose outcome is open was answered ambiguously, and one that failed or is blocked
      stands at an operation that was never carried out as far as the remote answered: it was not dispatched, the
      dispatch was refused, or the one answer was a rejection. */
  lemma EndsAreTrue(events: seq<Event>, a: ApplicationId)
    requires var t := Run(Init, events).tables;
      Managed(t, a) && t.executions[a].next < |a.operations|
    ensures var s, done := Run(Init, events).tables.executions[a], AnswersIn(Init, events);
      && (s.phase.OutcomeUnknown? ==>
            exists p :: && 0 <= p < |done| && done[p].attempt.Id() == OperationAt(a, s.next)
                        && done[p].observation.Ambiguous?)
      && (s.phase.Failed? || s.phase.Blocked? ==>
            forall p :: 0 <= p < |done| && done[p].attempt.Id() == OperationAt(a, s.next) ==>
              done[p].observation.Rejected?)
  {
    hide Run, AnswersIn, WorldInv, OnceEach, ClientsTrue;
    FromTheStart(events);
    assert RowTrue(Run(Init, events).tables, AnswersIn(Init, events), a);
  }
}
