/** The apply loop on the execution store.  Between any two of its calls every other applier, crash and
    generic caller may act; the loop is shown to be a run of the protocol of `ApplyProtocol`, so that
    what is proved over all runs holds of it. */
module Applier {
  import opened Outcomes
  import opened WriteOperations
  import opened ExecutionRecords
  import opened ExecutionTables
  import opened ExecutionStore
  import opened Materialize
  import opened ApplyProtocol

  /** The store holds the tables of the world, in which this applier is client `c`, at point `k`. */
  ghost predicate Standing(store: Store, w: World, c: nat, k: Client)
    reads store
  {
    store.Snapshot() == w.tables && c in w.clients && w.clients[c] == k
  }

  /** What the environment answers to one step. */
  method Observe() returns (input: Input) {
    input := *;
  }

  /** Everybody else: any number of events that are not this client's.  Only the contract is used, and
      it allows every such interleaving; the body is one of them. */
  method Others(store: Store, ghost w: World, ghost c: nat, ghost k: Client)
    returns (ghost w': World, ghost events: seq<Event>)
    requires Standing(store, w, c, k)
    modifies store
    ensures w' == Run(w, events) && Standing(store, w', c, k)
  {
    w', events := w, [];
  }

  lemma RunSnoc(w: World, events: seq<Event>, e: Event)
    ensures Run(w, events + [e]) == Next(Run(w, events), e)
  {
    RunConcat(w, events, [e]);
    assert [e][1..] == [];
    assert Run(Run(w, events), [e]) == Run(Next(Run(w, events), e), []);
  }

  /** `_apply`. */
  method Apply(store: Store, ghost w: World, ghost c: nat, ctx: Context)
    returns (outcome: Outcome, ghost w': World, ghost events: seq<Event>)
    requires store.Snapshot() == w.tables && c !in w.clients
    modifies store
    ensures w' == Run(w, events) && Standing(store, w', c, Stopped(outcome))
  {
    hide Claim, Complete, Settle, Finalize, LoadReceipts, GetReplay, Materialized, TrustedSuccess, Create;
    w', events := Next(w, Arrive(c, ctx)), [Arrive(c, ctx)];
    assert [Arrive(c, ctx)][1..] == [];
    ghost var more: seq<Event>;
    w', more := Others(store, w', c, Starting(ctx));
    RunConcat(w, events, more);
    events := events + more;

    var input := Observe();
    var created := store.CreateExecutionIfAbsent(InitialFor(ctx, input.now), input.guards);
    assert w'.log + [] == w'.log;
    RunSnoc(w, events, Advance(c, input));
    w', events := Next(w', Advance(c, input)), events + [Advance(c, input)];
    if created.Err? {
      return Raised(created.error), w', events;
    }
    var state := created.value;
    if state.phase == Applied {
      outcome, w', more := Conclusion(store, w', c, ctx, state, true);
      RunConcat(w, events, more);
      return outcome, w', events + more;
    }
    if state.phase == Applying {
      return Report(ctx, state, Some(RECOVERY_REQUIRED)).outcome, w', events;
    }
    if Terminal(state.phase) {
      return Report(ctx, state, state.recovery).outcome, w', events;
    }

    while state.next < |ctx.Operations()|
      invariant w' == Run(w, events) && Standing(store, w', c, Ready(ctx, state))
      decreases |ctx.Operations()| - state.next
    {
      var k;
      k, w', more := ApplyNext(store, w', c, ctx, state);
      RunConcat(w, events, more);
      events := events + more;
      if k.Stopped? {
        return k.outcome, w', events;
      }
      state := k.state;
    }

    w', more := Others(store, w', c, Ready(ctx, state));
    RunConcat(w, events, more);
    events := events + more;
    input := Observe();
    var finalized := store.FinalizeApplication(ctx, state, input.now, input.guards);
    assert w'.log + [] == w'.log;
    RunSnoc(w, events, Advance(c, input));
    w', events := Next(w', Advance(c, input)), events + [Advance(c, input)];
    if finalized.Err? {
      return Raised(finalized.error), w', events;
    }
    outcome, w', more := Conclusion(store, w', c, ctx, finalized.value, false);
    RunConcat(w, events, more);
    events := events + more;
  }

  /** Reading the application receipt id at the end, after the replay check if this is a replay. */
  method Conclusion(store: Store, ghost w: World, ghost c: nat, ctx: Context, state: ExecutionState, replay: bool)
    returns (outcome: Outcome, ghost w': World, ghost events: seq<Event>)
    requires Standing(store, w, c, Concluding(ctx, state, replay))
    modifies store
    ensures w' == Run(w, events) && Standing(store, w', c, Stopped(outcome))
  {
    w', events := Others(store, w, c, Concluding(ctx, state, replay));
    var input := Observe();
    assert w'.log + [] == w'.log;
    RunSnoc(w, events, Advance(c, input));
    w', events := Next(w', Advance(c, input)), events + [Advance(c, input)];
    var current := Ok(state);
    if replay {
      current := store.GetExecution(ctx.application, ctx.Operations());
    }
    if current.Err? {
      return Raised(current.error), w', events;
    }
    if ctx.application !in store.applicationReceipts {
      return Raised(ValueError("application_receipt_not_found")), w', events;
    }
    return Returned(ApplyResult(ctx.application, current.value.phase, current.value.next,
                                Some(store.applicationReceipts[ctx.application].Id()), None)), w', events;
  }

  lemma ClaimStays(t: Tables, ctx: Context, s: ExecutionState, input: Input)
    ensures var c := Claim(t, ctx, s, input.owner, input.now, input.guards); c.Ok? ==> c.value.state.next == s.next
  {
  }

  lemma CompleteAdvances(t: Tables, ctx: Context, s: ExecutionState, attempt: Attempt, owner: string,
                         receipt: OperationReceipt, now: Stamp, guards: Guards)
    ensures var c := Complete(t, ctx, s, attempt, owner, receipt, now, guards); c.Ok? ==> c.value.state.next == s.next + 1
  {
  }

  /** One iteration of the loop: it ends ready for the next operation, one further, or stopped. */
  method ApplyNext(store: Store, ghost w: World, ghost c: nat, ctx: Context, state: ExecutionState)
    returns (k: Client, ghost w': World, ghost events: seq<Event>)
    requires Standing(store, w, c, Ready(ctx, state)) && state.next < |ctx.Operations()|
    modifies store
    ensures w' == Run(w, events) && Standing(store, w', c, k)
    ensures k.Stopped? || (k.Ready? && k.ctx == ctx && k.state.next == state.next + 1)
  {
    hide Create, Claim, Complete, Settle, Finalize, LoadReceipts, GetReplay, ValidateClaim, Materialized,
         TrustedSuccess, NewReceipt;
    ghost var more: seq<Event>;
    w', events := Others(store, w, c, Ready(ctx, state));
    var input := Observe();
    ClaimStays(store.Snapshot(), ctx, state, input);
    var claimed := store.ClaimNextOperation(ctx, state, input.owner, input.now, input.guards);
    assert w'.log + [] == w'.log;
    RunSnoc(w, events, Advance(c, input));
    w', events := Next(w', Advance(c, input)), events + [Advance(c, input)];
    if claimed.Err? {
      if claimed.error != ValueError("application_claim_unavailable")
      && claimed.error != ValueError("application_state_stale") {
        return Stopped(Raised(claimed.error)), w', events;
      }
      k, w', more := LostClaim(store, w', c, ctx, state, claimed.error);
      RunConcat(w, events, more);
      return k, w', events + more;
    }
    var (held, attempt) := claimed.value;
    k, w', more := PrepareCommand(store, w', c, Holding(ctx, held, attempt, input.owner, Fresh));
    RunConcat(w, events, more);
    events := events + more;
    if k.Holding? && k.stage.Sending? {
      k, w', more := SendCommand(store, w', c, k);
      RunConcat(w, events, more);
      events := events + more;
    }
    if k.Holding? && k.stage.Sent? {
      k, w', more := RecordReply(store, w', c, k);
      RunConcat(w, events, more);
      events := events + more;
    }
    if k.Holding? {
      k, w', more := SettleClaim(store, w', c, k);
      RunConcat(w, events, more);
      events := events + more;
    }
  }

  /** After losing a claim to somebody else: report where the application is now. */
  method LostClaim(store: Store, ghost w: World, ghost c: nat, ctx: Context, state: ExecutionState, error: Error)
    returns (k: Client, ghost w': World, ghost events: seq<Event>)
    requires Standing(store, w, c, Rechecking(ctx, state, error))
    modifies store
    ensures w' == Run(w, events) && Standing(store, w', c, k) && k.Stopped?
  {
    w', events := Others(store, w, c, Rechecking(ctx, state, error));
    var input := Observe();
    assert w'.log + [] == w'.log;
    RunSnoc(w, events, Advance(c, input));
    w', events := Next(w', Advance(c, input)), events + [Advance(c, input)];
    var current := store.GetExecution(ctx.application, ctx.Operations());
    if current.Err? {
      return Stopped(Raised(current.error)), w', events;
    }
    if current.value == state {
      return Stopped(Raised(error)), w', events;
    }
    if current.value.phase == Applied {
      if ctx.application !in store.applicationReceipts {
        return Stopped(Raised(ValueError("application_receipt_not_found"))), w', events;
      }
      return Stopped(Returned(ApplyResult(ctx.application, current.value.phase, current.value.next,
                                          Some(store.applicationReceipts[ctx.application].Id()), None))), w', events;
    }
    var recovery := if current.value.phase == Applying || current.value.phase == PartiallyApplied
                    then Some(RECOVERY_REQUIRED) else current.value.recovery;
    return Report(ctx, current.value, recovery), w', events;
  }

  /** Validating the claim and materialising the command. */
  method PrepareCommand(store: Store, ghost w: World, ghost c: nat, h: Client)
    returns (k: Client, ghost w': World, ghost events: seq<Event>)
    requires h.Holding? && h.stage.Fresh? && Standing(store, w, c, h)
    modifies store
    ensures w' == Run(w, events) && Standing(store, w', c, k)
    ensures k.Stopped? || (k.Holding? && k == h.(stage := k.stage) && (k.stage.Sending? || k.stage.Settling?))
  {
    hide Create, Claim, Complete, Settle, Finalize, LoadReceipts, GetReplay, ValidateClaim, Materialized,
         TrustedSuccess, NewReceipt;
    w', events := Others(store, w, c, h);
    var input := Observe();
    assert w'.log + [] == w'.log;
    RunSnoc(w, events, Advance(c, input));
    w', events := Next(w', Advance(c, input)), events + [Advance(c, input)];
    var g := store.CheckHeldClaim(h.ctx, h.state, h.attempt, h.owner, input.guards);
    if g.Fail? {
      return AfterMaterialize(h, g.error), w', events;
    }
    k := h.(stage := Validated);
    ghost var more: seq<Event>;
    w', more := Others(store, w', c, k);
    RunConcat(w, events, more);
    events := events + more;
    input := Observe();
    assert w'.log + [] == w'.log;
    RunSnoc(w, events, Advance(c, input));
    w', events := Next(w', Advance(c, input)), events + [Advance(c, input)];
    var command := MaterializeCommand(store, h.ctx, h.attempt, input.revalidation);
    k := if command.Ok? then k.(stage := Sending(command.value)) else AfterMaterialize(k, command.error);
  }

  /** `_materialize`, with the loop over the operands. */
  method MaterializeCommand(store: Store, ctx: Context, attempt: Attempt, revalidation: Option<string>)
    returns (command: Result<Command>)
    ensures command == Materialized(ctx, store.Snapshot(), attempt, revalidation)
  {
    hide Operand, Operands;
    var op := attempt.operation;
    if op.kind == "create_issue" {
      if op.clientRefs == [] {
        return Err(Fault("IndexError"));
      }
      if op.clientRefs[0] !in ctx.items {
        return Err(Fault("KeyError"));
      }
      var rendered := ctx.items[op.clientRefs[0]];
      if rendered.Err? {
        return Err(rendered.error);
      }
      var title, body := rendered.value.title, rendered.value.body;
      return Ok(CreateIssue(ctx.application.repository, op.clientRefs[0], Draft(title, body), attempt.Id()));
    }
    if op.kind != "add_sub_issue" && op.kind != "add_dependency" {
      return Err(ValueError("write_operation_kind_invalid"));
    }
    if !ctx.typedEndpoints && exists i :: 0 <= i < |op.clientRefs| && op.clientRefs[i] !in ctx.items {
      return Err(ValueError("write_reference_unavailable"));
    }
    var looked := LookUpOperands(store, ctx, op.clientRefs);
    if looked.Err? {
      return Err(looked.error);
    }
    var references := looked.value;
    if |references| < 2 {
      return Err(Fault("IndexError"));
    }
    if ctx.typedEndpoints && references[0] == references[1] {
      return Err(ValueError("write_reference_unavailable"));
    }
    if ctx.typedEndpoints && revalidation.Some?
    && exists i :: 0 <= i < |op.clientRefs| && EXISTING_ISSUE <= op.clientRefs[i] {
      return Err(ValueError(revalidation.value));
    }
    if references[0] == references[1] {
      return Err(ValueError("write_command_invalid"));
    }
    return Ok(Relationship(ctx.application.repository, references[0], references[1]));
  }

  /** The loop over the operands: the first lookup that fails ends it. */
  method LookUpOperands(store: Store, ctx: Context, refs: seq<string>) returns (r: Result<seq<IssueReference>>)
    ensures r == Operands(ctx, store.Snapshot(), refs)
  {
    hide Operand;
    ghost var t := store.Snapshot();
    var references: seq<IssueReference> := [];
    assert refs[0..] == refs;
    PrefixedTwice([], [], Operands(ctx, t, refs));
    for i := 0 to |refs|
      invariant |references| == i
      invariant Operands(ctx, t, refs) == Prefixed(references, Operands(ctx, t, refs[i..]))
    {
      var reference := Operand(ctx, store.Snapshot(), refs[i]);
      OperandsAt(ctx, t, refs, i);
      if reference.Err? {
        return Err(reference.error);
      }
      PrefixedTwice(references, [reference.value], Operands(ctx, t, refs[i + 1..]));
      references := references + [reference.value];
    }
    assert refs[|refs|..] == [] && references + [] == references;
    return Ok(references);
  }

  lemma OperandsAt(ctx: Context, t: Tables, refs: seq<string>, i: nat)
    requires i < |refs|
    ensures var first := Operand(ctx, t, refs[i]);
      Operands(ctx, t, refs[i..]) ==
        if first.Err? then Err(first.error) else Prefixed([first.value], Operands(ctx, t, refs[i + 1..]))
  {
    hide Operand;
    assert refs[i..][0] == refs[i] && refs[i..][1..] == refs[i + 1..];
  }

  lemma PrefixedTwice<T>(done: seq<T>, more: seq<T>, rest: Result<seq<T>>)
    ensures Prefixed(done, Prefixed(more, rest)) == Prefixed(done + more, rest)
    ensures Prefixed([], rest) == rest
  {
    if rest.Ok? {
      assert done + (more + rest.value) == (done + more) + rest.value;
      assert [] + rest.value == rest.value;
    }
  }

  function Prefixed<T>(done: seq<T>, rest: Result<seq<T>>): Result<seq<T>> {
    if rest.Ok? then Ok(done + rest.value) else rest
  }

  /** The dispatch itself: the one place that reaches the remote system. */
  method SendCommand(store: Store, ghost w: World, ghost c: nat, h: Client)
    returns (k: Client, ghost w': World, ghost events: seq<Event>)
    requires h.Holding? && h.stage.Sending? && Standing(store, w, c, h)
    modifies store
    ensures w' == Run(w, events) && Standing(store, w', c, k)
    ensures k.Stopped? || (k.Holding? && k == h.(stage := k.stage) && (k.stage.Sent? || k.stage.Settling?))
  {
    w', events := Others(store, w, c, h);
    var input := Observe();
    RunSnoc(w, events, Advance(c, input));
    w', events := Next(w', Advance(c, input)), events + [Advance(c, input)];
    if input.current.Some? {
      return NotCurrent(h, input.current.value), w', events;
    }
    match input.reply {
      case Observed(o) =>
        k := h.(stage := Sent(o));
      case Refused(e) =>
        if e.ValueError? && CredentialRefusal(e.code) {
          k := h.(stage := Settling(Blocked, e.code, false));
        } else {
          k := Stopped(Raised(e));
        }
    }
  }

  /** After the reply: complete the operation, or hand over to settling it. */
  method RecordReply(store: Store, ghost w: World, ghost c: nat, h: Client)
    returns (k: Client, ghost w': World, ghost events: seq<Event>)
    requires h.Holding? && h.stage.Sent? && Standing(store, w, c, h)
    modifies store
    ensures w' == Run(w, events) && Standing(store, w', c, k)
    ensures k.Stopped? || (k.Holding? && k == h.(stage := k.stage) && k.stage.Settling?)
         || (k.Ready? && k.ctx == h.ctx && k.state.next == h.state.next + 1)
  {
    hide Create, Claim, Complete, Settle, Finalize, LoadReceipts, GetReplay, ValidateClaim, Materialized,
         TrustedSuccess, NewReceipt;
    w', events := Others(store, w, c, h);
    var input := Observe();
    assert w'.log + [] == w'.log;
    RunSnoc(w, events, Advance(c, input));
    w', events := Next(w', Advance(c, input)), events + [Advance(c, input)];
    if input.current.Some? {
      return NotCurrent(h, input.current.value), w', events;
    }
    var o := h.stage.observation;
    if !o.Success? {
      return h.(stage := Settling(SettleTarget(o), SettleCode(o), true)), w', events;
    }
    var remote := TrustedSuccess(h.ctx, h.attempt, o);
    if remote.Err? {
      return Tolerate(h, remote.error, true), w', events;
    }
    if input.guards.context.Some? {
      return Tolerate(h, ValueError(input.guards.context.value), true), w', events;
    }
    if h.attempt.index >= |h.ctx.Operations()| {
      return Tolerate(h, Fault("IndexError"), true), w', events;
    }
    var receipt := NewReceipt(h.ctx, h.attempt, remote.value, input.then_);
    CompleteAdvances(store.Snapshot(), h.ctx, h.state, h.attempt, h.owner, receipt, input.now, input.guards);
    var completed := store.CompleteOperationSuccess(h.ctx, h.state, h.attempt, h.owner, receipt, input.now, input.guards);
    k := if completed.Ok? then Ready(h.ctx, completed.value) else Tolerate(h, completed.error, true);
  }

  method SettleClaim(store: Store, ghost w: World, ghost c: nat, h: Client)
    returns (k: Client, ghost w': World, ghost events: seq<Event>)
    requires h.Holding? && h.stage.Settling? && Standing(store, w, c, h)
    modifies store
    ensures w' == Run(w, events) && Standing(store, w', c, k) && k.Stopped?
  {
    hide Create, Claim, Complete, Settle, Finalize, LoadReceipts, GetReplay, ValidateClaim, Materialized,
         TrustedSuccess, NewReceipt;
    w', events := Others(store, w, c, h);
    var input := Observe();
    assert w'.log + [] == w'.log;
    RunSnoc(w, events, Advance(c, input));
    w', events := Next(w', Advance(c, input)), events + [Advance(c, input)];
    var settled := store.SettleOperation(h.ctx, h.state, h.attempt, h.owner, h.stage.target, h.stage.code, input.now,
                                         input.guards);
    k := if settled.Ok? then Report(h.ctx, settled.value, Some(h.stage.code))
         else Tolerate(h, settled.error, h.stage.tolerant);
  }
}
