/** Who acts: over every run, all work on a managed application is done under the one anchor it was created with, and a
    claim is only ever carried on by the context that made it. */
module Continuity {
  import opened Outcomes
  import opened WriteOperations
  import opened ExecutionRecords
  import opened ExecutionTables
  import opened GenericCalls
  import opened ManagedRows
  import opened Materialize
  import opened ApplyProtocol

  // ---- what continuing means ----

  /** Two provenances stand for one actor: the same principal or, when neither names one, the same credential instance of
      the same issuer. */
  predicate SameActor(p: Provenance, q: Provenance) {
    if p.principal != "" || q.principal != "" then p.principal == q.principal
    else p.issuer == q.issuer && p.credentialInstance == q.credentialInstance
  }

  lemma AnchorDecides(p: Provenance, q: Provenance)
    ensures AnchorOf(p) == AnchorOf(q) <==> SameActor(p, q)
  {
  }

  /** A context continues a stored attempt exactly when the attempt is one of its operations, and actor, driver and remote
      authority are the same. */
  lemma ContinuesExactly(ctx: Context, attempt: Attempt)
    ensures var own := && attempt.application == ctx.application && attempt.index < |ctx.application.operations|
                       && attempt.operation == ctx.application.operations[attempt.index];
      var same := && SameActor(attempt.provenance, ctx.provenance)
                  && attempt.provenance.driver == ctx.provenance.driver
                  && attempt.provenance.remoteAuthority == ctx.provenance.remoteAuthority;
      AttemptContinues(ctx, attempt) ==
        if !own then Fail(ValueError("operation_attempt_binding_invalid"))
        else if !same then Fail(ValueError("credential_continuity_mismatch"))
        else Pass
  {
    AnchorDecides(attempt.provenance, ctx.provenance);
  }

  // ---- the invariant ----

  /** The receipt was written under the anchor of the application. */
  ghost predicate ActedAt(t: Tables, a: ApplicationId, k: nat)
    requires Managed(t, a) && k < |a.operations|
  {
    OperationAt(a, k) in t.receipts && AnchorOf(t.receipts[OperationAt(a, k)].provenance) == t.executions[a].anchor
  }

  ghost predicate ActedRow(t: Tables, a: ApplicationId)
    requires Managed(t, a)
  {
    forall k :: 0 <= k < t.executions[a].next && k < |a.operations| ==> ActedAt(t, a, k)
  }

  ghost predicate RowsActed(t: Tables) {
    forall a :: Managed(t, a) ==> ActedRow(t, a)
  }

  /** A claim holder still has the context that claimed. */
  ghost predicate HoldsOwn(k: Client) {
    k.Holding? ==> k.attempt.provenance == k.ctx.provenance && k.state.anchor == AnchorOf(k.ctx.provenance)
                   && k.state.application == k.ctx.application
  }

  ghost predicate ActorInv(w: World) {
    RowsActed(w.tables) && forall c :: c in w.clients ==> HoldsOwn(w.clients[c])
  }

  lemma RowFrame(t: Tables, u: Tables, a: ApplicationId)
    requires Managed(t, a) && ActedRow(t, a) && SameRows(t, u, a)
    ensures Managed(u, a) && ActedRow(u, a)
  {
    hide AnchorOf;
    assert SameAt(t.executions, u.executions, a);
    forall k | 0 <= k < t.executions[a].next && k < |a.operations|
      ensures ActedAt(u, a, k)
    {
      assert ActedAt(t, a, k) && SameAt(t.receipts, u.receipts, OperationAt(a, k));
    }
  }

  lemma OneRowChanges(t: Tables, u: Tables, a: ApplicationId)
    requires RowsActed(t) && forall b :: b != a ==> SameRows(t, u, b)
    requires Managed(u, a) ==> ActedRow(u, a)
    ensures RowsActed(u)
  {
    hide ActedRow;
    forall b | Managed(u, b)
      ensures ActedRow(u, b)
    {
      if b != a {
        assert SameRows(t, u, b) && SameAt(t.executions, u.executions, b);
        RowFrame(t, u, b);
      }
    }
  }

  /** The receipts, the index and the anchor stay. */
  lemma QuietRow(t: Tables, u: Tables, a: ApplicationId)
    requires Managed(t, a) && Managed(u, a) && ActedRow(t, a) && u.receipts == t.receipts
    requires u.executions[a].next == t.executions[a].next && u.executions[a].anchor == t.executions[a].anchor
    ensures ActedRow(u, a)
  {
    hide AnchorOf;
    forall k | 0 <= k < u.executions[a].next && k < |a.operations|
      ensures ActedAt(u, a, k)
    {
      assert ActedAt(t, a, k);
    }
  }

  lemma GrownRow(t: Tables, u: Tables, a: ApplicationId, receipt: OperationReceipt)
    requires Managed(t, a) && Managed(u, a) && ActedRow(t, a) && t.executions[a].next < |a.operations|
    requires u.executions[a].next == t.executions[a].next + 1 && u.executions[a].anchor == t.executions[a].anchor
    requires receipt.Id() == OperationAt(a, t.executions[a].next) && u.receipts == t.receipts[receipt.Id() := receipt]
    requires AnchorOf(receipt.provenance) == t.executions[a].anchor
    ensures ActedRow(u, a)
  {
    hide AnchorOf;
    forall k | 0 <= k < u.executions[a].next && k < |a.operations|
      ensures ActedAt(u, a, k)
    {
      if k < t.executions[a].next {
        assert ActedAt(t, a, k);
      }
    }
  }

  // ---- every step ----

  lemma StartKeepsActor(t: Tables, ctx: Context, input: Input)
    requires TablesInv(t) && RowsActed(t)
    ensures RowsActed(Start(t, ctx, input).tables) && HoldsOwn(Start(t, ctx, input).client)
  {
    hide Create, TablesInv, SameRows, AnchorOf;
    var s := InitialFor(ctx, input.now);
    if Create(t, s, input.guards).Ok? {
      CreateKeeps(t, s, input.guards);
      if s.application !in t.executions {
        OneRowChanges(t, Start(t, ctx, input).tables, s.application);
      }
    }
  }

  lemma ProceedKeepsActor(t: Tables, ctx: Context, s: ExecutionState, input: Input)
    requires TablesInv(t) && RowsActed(t)
    ensures RowsActed(Proceed(t, ctx, s, input).tables) && HoldsOwn(Proceed(t, ctx, s, input).client)
  {
    hide Claim, Finalize, SameRows, ActedRow, AnchorOf, RowInv;
    var a, m := ctx.application, Proceed(t, ctx, s, input);
    if s.next < |a.operations| {
      if Claim(t, ctx, s, input.owner, input.now, input.guards).Ok? {
        ClaimKeeps(t, ctx, s, input.owner, input.now, input.guards);
        assert s.application == a;
        QuietRow(t, m.tables, a);
        OneRowChanges(t, m.tables, a);
      }
    } else if Finalize(t, ctx, s, input.now, input.guards).Ok? {
      FinalizeKeeps(t, ctx, s, input.now, input.guards);
      QuietRow(t, m.tables, a);
      OneRowChanges(t, m.tables, a);
    }
  }

  lemma FinishKeepsActor(t: Tables, h: Client, input: Input)
    requires TablesInv(t) && RowsActed(t) && h.Holding? && h.stage.Settling? && HoldsOwn(h)
    ensures RowsActed(Finish(t, h, input).0) && HoldsOwn(Finish(t, h, input).1)
  {
    hide Settle, TablesInv, SameRows, ActedRow, AnchorOf;
    var target, code := h.stage.target, h.stage.code;
    if Settle(t, h.ctx, h.state, h.attempt, h.owner, target, code, input.now, input.guards).Ok? {
      SettleKeeps(t, h.ctx, h.state, h.attempt, h.owner, target, code, input.now, input.guards);
      QuietRow(t, Finish(t, h, input).0, h.ctx.application);
      OneRowChanges(t, Finish(t, h, input).0, h.ctx.application);
    }
  }

  lemma RecordKeepsActor(t: Tables, h: Client, input: Input)
    requires TablesInv(t) && RowsActed(t) && h.Holding? && h.stage.Sent? && HoldsOwn(h)
    ensures RowsActed(Record(t, h, input).0) && HoldsOwn(Record(t, h, input).1)
  {
    hide Complete, TrustedSuccess, TablesInv, SameRows, ActedRow, AnchorOf, SettleTarget, SettleCode;
    var o := h.stage.observation;
    if input.current.None? && o.Success? && Evidence(t, h, o, input).Ok? {
      var remote := TrustedSuccess(h.ctx, h.attempt, o).value;
      var receipt := NewReceipt(h.ctx, h.attempt, remote, input.then_);
      CompleteKeeps(t, h.ctx, h.state, h.attempt, h.owner, receipt, input.now, input.guards);
      GrownRow(t, Record(t, h, input).0, h.ctx.application, receipt);
      OneRowChanges(t, Record(t, h, input).0, h.ctx.application);
    }
  }

  lemma MoveKeepsActor(t: Tables, k: Client, input: Input)
    requires TablesInv(t) && RowsActed(t) && HoldsOwn(k)
    ensures RowsActed(Move(t, k, input).tables) && HoldsOwn(Move(t, k, input).client)
  {
    hide TablesInv, RowsActed, Start, Proceed, Record, Finish, ValidateClaim, Materialized, GetReplay, AnchorOf;
    match k
    case Starting(ctx) => StartKeepsActor(t, ctx, input);
    case Ready(ctx, s) => ProceedKeepsActor(t, ctx, s, input);
    case Holding(_, _, _, _, stage) =>
      if stage.Sent? {
        RecordKeepsActor(t, k, input);
      } else if stage.Settling? {
        FinishKeepsActor(t, k, input);
      }
    case _ =>
  }

  lemma GenericKeepsActor(t: Tables, step: GenericStep)
    requires TablesInv(t) && RowsActed(t)
    ensures RowsActed(PerformOne(t, step))
  {
    hide Perform, ActedRow, RowInv, SameRows;
    if Perform(t, step.call, step.orchestrated, step.refusal).Ok? {
      GenericNonInterference(t, step.call, step.orchestrated, step.refusal);
      forall a | Managed(PerformOne(t, step), a)
        ensures ActedRow(PerformOne(t, step), a)
      {
        RowFrame(t, PerformOne(t, step), a);
      }
    }
  }

  lemma NextKeepsActor(w: World, e: Event)
    requires WorldInv(w) && ActorInv(w)
    ensures ActorInv(Next(w, e))
  {
    hide TablesInv, LogInv, OneHolder, ClientInv, RowsActed, Move, PerformOne, AnchorOf;
    match e
    case GenericStore(step) => GenericKeepsActor(w.tables, step);
    case Advance(c, input) =>
      if c in w.clients {
        MoveKeepsActor(w.tables, w.clients[c], input);
      }
    case _ =>
  }

  lemma {:induction false} RunKeepsActor(w: World, events: seq<Event>)
    requires WorldInv(w) && ActorInv(w)
    ensures WorldInv(Run(w, events)) && ActorInv(Run(w, events))
    decreases |events|
  {
    hide WorldInv, ActorInv, Next;
    if events != [] {
      NextKeeps(w, events[0]);
      NextKeepsActor(w, events[0]);
      RunKeepsActor(Next(w, events[0]), events[1..]);
    }
  }

  /** In every run, any two finished operations of a managed application were recorded by one actor. */
  lemma OneActor(events: seq<Event>, a: ApplicationId, i: nat, j: nat)
    requires var t := Run(Init, events).tables;
      Managed(t, a) && i < t.executions[a].next && j < t.executions[a].next && i < |a.operations| && j < |a.operations|
    ensures var t := Run(Init, events).tables;
      && OperationAt(a, i) in t.receipts && OperationAt(a, j) in t.receipts
      && SameActor(t.receipts[OperationAt(a, i)].provenance, t.receipts[OperationAt(a, j)].provenance)
  {
    hide Run, WorldInv, AnchorOf, SameActor;
    InitInv();
    RunKeepsActor(Init, events);
    var t := Run(Init, events).tables;
    assert ActedRow(t, a) && ActedAt(t, a, i) && ActedAt(t, a, j);
    AnchorDecides(t.receipts[OperationAt(a, i)].provenance, t.receipts[OperationAt(a, j)].provenance);
  }

  /** In every run, the checks made before a stored attempt is continued pass for whoever holds the claim: only a caller
      from outside the protocol can be refused by them. */
  lemma HoldersContinue(events: seq<Event>, c: nat)
    requires var w := Run(Init, events); c in w.clients && w.clients[c].Holding?
    ensures var h := Run(Init, events).clients[c];
      AttemptContinues(h.ctx, h.attempt).Pass? && StateContinues(h.ctx, h.state).Pass?
  {
    hide Run, LogInv, OneHolder, TablesInv, AnchorOf;
    InitInv();
    RunKeepsActor(Init, events);
    var w := Run(Init, events);
    assert HoldsOwn(w.clients[c]) && ClientInv(w.tables, w.log, w.clients[c]);
  }
}
