/** Any number of appliers over one set of tables.  A run is an arbitrary interleaving of applier
    steps, crashes and generic store calls; `log` is the ghost record of every remote dispatch. */
module ApplyProtocol {
  import opened Outcomes
  import opened WriteOperations
  import opened ExecutionRecords
  import opened ExecutionTables
  import opened GenericCalls
  import opened ManagedRows
  import opened Materialize

  datatype ApplyResult = ApplyResult(application: ApplicationId, phase: Phase, next: nat,
                                     receipt: Option<ApplicationReceiptId>, recovery: Option<string>)

  const RECOVERY_REQUIRED := "application_recovery_required"
  const AUTHORITY_INVALID := "runtime_authority_invalid"

  datatype Outcome = Returned(result: ApplyResult) | Raised(error: Error) | Crashed

  /** How far an applier has come with the operation it claimed. */
  datatype Stage =
    | Fresh
    | Validated
    | Sending(command: Command)
    | Sent(observation: Observation)
    | Settling(target: Phase, code: string, tolerant: bool)

  /** An applier between two of its calls. */
  datatype Client =
    | Starting(ctx: Context)
    | Ready(ctx: Context, state: ExecutionState)
    | Rechecking(ctx: Context, state: ExecutionState, error: Error)
    | Holding(ctx: Context, state: ExecutionState, attempt: Attempt, owner: string, stage: Stage)
    | Concluding(ctx: Context, state: ExecutionState, replay: bool)
    | Stopped(outcome: Outcome)

  datatype Reply = Observed(observation: Observation) | Refused(error: Error)

  /** Everything one applier step reads from outside the tables: the clock (twice, at most), what the
      live runtime answers, the owner id drawn, the remote reply, and what re-reading an endpoint raises. */
  datatype Input = Input(now: Stamp, then_: Stamp, guards: Guards, current: Option<string>, owner: string,
                         reply: Reply, revalidation: Option<string>)

  datatype Dispatched = Dispatched(id: OperationId, command: Command)

  datatype World = World(tables: Tables, clients: map<nat, Client>, log: seq<Dispatched>)

  const Init := World(EmptyTables, map[], [])

  datatype Event =
    | Arrive(client: nat, ctx: Context)
    | Advance(client: nat, input: Input)
    | Crash(client: nat)
    | GenericStore(step: GenericStep)

  datatype Moved = Moved(tables: Tables, client: Client, sent: seq<Dispatched>)

  // ---- the branches of the apply loop ----

  function InitialFor(ctx: Context, now: Stamp): ExecutionState {
    ExecutionState(ctx.application, Pending, 0, None, None, None, [], now, now, None, ctx.Anchor(), true)
  }

  function Report(ctx: Context, s: ExecutionState, recovery: Option<string>): Client {
    Stopped(Returned(ApplyResult(ctx.application, s.phase, s.next, None, recovery)))
  }

  function Start(t: Tables, ctx: Context, input: Input): Moved {
    var r := Create(t, InitialFor(ctx, input.now), input.guards);
    if r.Err? then Moved(t, Stopped(Raised(r.error)), []) else
    var s := r.value.state;
    Moved(r.value.tables,
          match s.phase
          case Applied => Concluding(ctx, s, true)
          case Applying => Report(ctx, s, Some(RECOVERY_REQUIRED))
          case Pending => Ready(ctx, s)
          case PartiallyApplied => Ready(ctx, s)
          case _ => Report(ctx, s, s.recovery),
          [])
  }

  function Proceed(t: Tables, ctx: Context, s: ExecutionState, input: Input): Moved {
    if s.next < |ctx.application.operations| then
      var r := Claim(t, ctx, s, input.owner, input.now, input.guards);
      if r.Ok? then
        Moved(r.value.tables, Holding(ctx, r.value.state, r.value.attempt, input.owner, Fresh), [])
      else if r.error in {ValueError("application_claim_unavailable"), ValueError("application_state_stale")} then
        Moved(t, Rechecking(ctx, s, r.error), [])
      else
        Moved(t, Stopped(Raised(r.error)), [])
    else
      var r := Finalize(t, ctx, s, input.now, input.guards);
      if r.Ok? then Moved(r.value.tables, Concluding(ctx, r.value.state, false), [])
      else Moved(t, Stopped(Raised(r.error)), [])
  }

  function Recheck(t: Tables, ctx: Context, s: ExecutionState, error: Error): Client {
    var r := GetReplay(t, ctx.application, ctx.application.operations);
    if r.Err? then Stopped(Raised(r.error)) else
    var current := r.value;
    if current == s then Stopped(Raised(error))
    else if current.phase.Applied? then
      if ctx.application !in t.applicationReceipts then Stopped(Raised(ValueError("application_receipt_not_found")))
      else Stopped(Returned(ApplyResult(ctx.application, current.phase, current.next,
                                        Some(t.applicationReceipts[ctx.application].Id()), None)))
    else
      Report(ctx, current, if current.phase.Applying? || current.phase.PartiallyApplied?
                           then Some(RECOVERY_REQUIRED) else current.recovery)
  }

  function Conclude(t: Tables, ctx: Context, s: ExecutionState, replay: bool): Client {
    var r := if replay then GetReplay(t, ctx.application, ctx.application.operations) else Ok(s);
    if r.Err? then Stopped(Raised(r.error))
    else if ctx.application !in t.applicationReceipts then Stopped(Raised(ValueError("application_receipt_not_found")))
    else Stopped(Returned(ApplyResult(ctx.application, r.value.phase, r.value.next,
                                      Some(t.applicationReceipts[ctx.application].Id()), None)))
  }

  function Validate(t: Tables, h: Client, input: Input): Client
    requires h.Holding?
  {
    var g := ValidateClaim(t, h.ctx, h.state, h.attempt, h.owner, input.guards);
    if g.Pass? then h.(stage := Validated) else AfterMaterialize(h, g.error)
  }

  /** The handler around validating a claim and materialising its command. */
  function AfterMaterialize(h: Client, error: Error): Client
    requires h.Holding?
  {
    if error.ValueError? then h.(stage := Settling(MaterializeTarget(error.code), error.code, false))
    else Stopped(Raised(error))
  }

  function Prepare(t: Tables, h: Client, input: Input): Client
    requires h.Holding?
  {
    var r := Materialized(h.ctx, t, h.attempt, input.revalidation);
    if r.Ok? then h.(stage := Sending(r.value)) else AfterMaterialize(h, r.error)
  }

  /** Whether the authority is still current, checked before and after the dispatch. */
  function NotCurrent(h: Client, code: string): Client
    requires h.Holding?
  {
    if code == AUTHORITY_INVALID then Report(h.ctx, h.state, Some(RECOVERY_REQUIRED))
    else Stopped(Raised(ValueError(code)))
  }

  function Send(h: Client, input: Input): (Client, seq<Dispatched>)
    requires h.Holding? && h.stage.Sending?
  {
    if input.current.Some? then (NotCurrent(h, input.current.value), []) else
    (match input.reply
     case Observed(o) => h.(stage := Sent(o))
     case Refused(e) =>
       if e.ValueError? && CredentialRefusal(e.code) then h.(stage := Settling(Blocked, e.code, false))
       else Stopped(Raised(e)),
     [Dispatched(h.attempt.Id(), h.stage.command)])
  }

  function Record(t: Tables, h: Client, input: Input): (Tables, Client)
    requires h.Holding? && h.stage.Sent?
  {
    var o := h.stage.observation;
    if input.current.Some? then (t, NotCurrent(h, input.current.value)) else
    if !o.Success? then (t, h.(stage := Settling(SettleTarget(o), SettleCode(o), true))) else
    var r := Evidence(t, h, o, input);
    if r.Ok? then (r.value.tables, Ready(h.ctx, r.value.state))
    else (t, Tolerate(h, r.error, true))
  }

  /** Building the receipt of a successful write and completing the operation with it. */
  function Evidence(t: Tables, h: Client, o: Observation, input: Input): Result<Updated>
    requires h.Holding? && o.Success?
  {
    var remote :- TrustedSuccess(h.ctx, h.attempt, o);
    :- Accept(input.guards.context);
    if h.attempt.index >= |h.ctx.application.operations| then Err(Fault("IndexError")) else
    Complete(t, h.ctx, h.state, h.attempt, h.owner, NewReceipt(h.ctx, h.attempt, remote, input.then_), input.now,
             input.guards)
  }

  function Tolerate(h: Client, error: Error, tolerant: bool): Client
    requires h.Holding?
  {
    if tolerant && error == ValueError(AUTHORITY_INVALID) then Report(h.ctx, h.state, Some(RECOVERY_REQUIRED))
    else Stopped(Raised(error))
  }

  function Finish(t: Tables, h: Client, input: Input): (Tables, Client)
    requires h.Holding? && h.stage.Settling?
  {
    var r := Settle(t, h.ctx, h.state, h.attempt, h.owner, h.stage.target, h.stage.code, input.now, input.guards);
    if r.Ok? then (r.value.tables, Report(h.ctx, r.value.state, Some(h.stage.code)))
    else (t, Tolerate(h, r.error, h.stage.tolerant))
  }

  function Move(t: Tables, k: Client, input: Input): Moved {
    match k
    case Starting(ctx) => Start(t, ctx, input)
    case Ready(ctx, s) => Proceed(t, ctx, s, input)
    case Rechecking(ctx, s, error) => Moved(t, Recheck(t, ctx, s, error), [])
    case Concluding(ctx, s, replay) => Moved(t, Conclude(t, ctx, s, replay), [])
    case Stopped(_) => Moved(t, k, [])
    case Holding(_, _, _, _, stage) =>
      match stage
      case Fresh => Moved(t, Validate(t, k, input), [])
      case Validated => Moved(t, Prepare(t, k, input), [])
      case Sending(_) => var (k', sent) := Send(k, input); Moved(t, k', sent)
      case Sent(_) => var (t', k') := Record(t, k, input); Moved(t', k', [])
      case Settling(_, _, _) => var (t', k') := Finish(t, k, input); Moved(t', k', [])
  }

  /** One event; an event that does not apply changes nothing. */
  function Next(w: World, e: Event): World {
    match e
    case Arrive(c, ctx) => if c in w.clients then w else w.(clients := w.clients[c := Starting(ctx)])
    case Advance(c, input) =>
      if c !in w.clients then w else
      var m := Move(w.tables, w.clients[c], input);
      World(m.tables, w.clients[c := m.client], w.log + m.sent)
    case Crash(c) => if c !in w.clients then w else w.(clients := w.clients[c := Stopped(Crashed)])
    case GenericStore(step) => w.(tables := PerformOne(w.tables, step))
  }

  function Run(w: World, events: seq<Event>): World
    decreases |events|
  {
    if events == [] then w else Run(Next(w, events[0]), events[1..])
  }

  lemma {:induction false} RunConcat(w: World, xs: seq<Event>, ys: seq<Event>)
    ensures Run(w, xs + ys) == Run(Run(w, xs), ys)
    decreases |xs|
  {
    if xs == [] {
      assert xs + ys == ys;
    } else {
      assert (xs + ys)[1..] == xs[1..] + ys;
      RunConcat(Next(w, xs[0]), xs[1..], ys);
    }
  }

  // ---- the invariant ----

  /** A claim is current: the tables hold exactly the state and attempt the client holds. */
  ghost predicate HoldsCurrentClaim(t: Tables, k: Client)
    requires k.Holding?
  {
    var a := k.ctx.application;
    && Managed(t, a) && t.executions[a] == k.state && k.state.phase.Applying? && k.state.next < |a.operations|
    && k.attempt.Id() == OperationAt(a, k.state.next)
    && k.attempt.Id() in t.attempts && t.attempts[k.attempt.Id()] == k.attempt && k.attempt.phase.Applying?
    && HoldsClaim(k.state, k.attempt, k.state, k.attempt, k.owner)
  }

  ghost predicate InLog(log: seq<Dispatched>, id: OperationId) {
    exists p :: 0 <= p < |log| && log[p].id == id
  }

  ghost predicate ClientInv(t: Tables, log: seq<Dispatched>, k: Client) {
    k.Holding? ==>
      && HoldsCurrentClaim(t, k)
      && (k.stage.Fresh? || k.stage.Validated? || k.stage.Sending? ==> !InLog(log, k.attempt.Id()))
      && (k.stage.Sent? ==> InLog(log, k.attempt.Id()))
  }

  /** A dispatched operation has been claimed: it lies below the next index, or at it once claimed. */
  ghost predicate WasClaimed(t: Tables, id: OperationId) {
    && Managed(t, id.application) && IsOperation(id)
    && AttemptExpected(t.executions[id.application], id.index)
  }

  ghost predicate LogInv(t: Tables, log: seq<Dispatched>) {
    && (forall p :: 0 <= p < |log| ==> WasClaimed(t, log[p].id))
    && InOrder(log)
    && (forall a, k :: Managed(t, a) && 0 <= k < t.executions[a].next && k < |a.operations| ==>
          InLog(log, OperationAt(a, k)))
  }

  /** Within one application, dispatches happen in strictly increasing operation order. */
  ghost predicate InOrder(log: seq<Dispatched>) {
    forall p, q :: 0 <= p < q < |log| && log[p].id.application == log[q].id.application ==>
      log[p].id.index < log[q].id.index
  }

  ghost predicate OneHolder(clients: map<nat, Client>) {
    forall c, d :: c in clients && d in clients && c != d && clients[c].Holding? && clients[d].Holding? ==>
      clients[c].ctx.application != clients[d].ctx.application
  }

  ghost predicate WorldInv(w: World) {
    && TablesInv(w.tables)
    && (forall c :: c in w.clients ==> ClientInv(w.tables, w.log, w.clients[c]))
    && OneHolder(w.clients)
    && LogInv(w.tables, w.log)
  }

  // ---- preservation ----

  /** A claim survives any change of the tables that keeps its application's rows. */
  lemma ClaimFrame(t: Tables, u: Tables, log: seq<Dispatched>, k: Client)
    requires ClientInv(t, log, k)
    requires k.Holding? ==> SameRows(t, u, k.ctx.application)
    ensures ClientInv(u, log, k)
  {
    if k.Holding? {
      assert SameAt(t.executions, u.executions, k.ctx.application);
      assert SameAt(t.attempts, u.attempts, k.attempt.Id());
    }
  }

  /** Changing rows of one application only: everything said about the others carries over. */
  lemma TablesMove(w: World, u: Tables, c: nat, k: Client, a: ApplicationId)
    requires WorldInv(w) && TablesInv(u)
    requires forall b :: b != a ==> SameRows(w.tables, u, b)
    requires Managed(w.tables, a) ==> Managed(u, a) && Later(w.tables.executions[a], u.executions[a])
    requires Managed(u, a) ==> forall i :: 0 <= i < u.executions[a].next && i < |a.operations| ==>
                                 InLog(w.log, OperationAt(a, i))
    requires forall d :: d in w.clients && d != c && w.clients[d].Holding? ==> w.clients[d].ctx.application != a
    requires ClientInv(u, w.log, k)
    requires k.Holding? ==> k.ctx.application == a
    ensures WorldInv(World(u, w.clients[c := k], w.log))
  {
    var v := World(u, w.clients[c := k], w.log);
    forall d | d in v.clients
      ensures ClientInv(u, v.log, v.clients[d])
    {
      if d != c {
        ClaimFrame(w.tables, u, w.log, w.clients[d]);
      }
    }
    forall p | 0 <= p < |v.log|
      ensures WasClaimed(u, v.log[p].id)
    {
      var b := w.log[p].id.application;
      assert WasClaimed(w.tables, w.log[p].id);
      if b != a {
        assert SameRows(w.tables, u, b);
      }
    }
    forall b, i | Managed(u, b) && 0 <= i < u.executions[b].next && i < |b.operations|
      ensures InLog(v.log, OperationAt(b, i))
    {
      if b != a {
        assert SameRows(w.tables, u, b);
      }
    }
  }

  /** An execution row only moves on: what has been claimed stays claimed. */
  ghost predicate Later(s: ExecutionState, s': ExecutionState) {
    forall i: nat :: AttemptExpected(s, i) ==> AttemptExpected(s', i)
  }

  lemma StartKeeps(w: World, c: nat, input: Input)
    requires WorldInv(w) && c in w.clients && w.clients[c].Starting?
    ensures WorldInv(Next(w, Advance(c, input)))
  {
    hide Create, TablesInv, OneHolder, LogInv, SameRows;
    var ctx := w.clients[c].ctx;
    var s := InitialFor(ctx, input.now);
    var m := Start(w.tables, ctx, input);
    var r := Create(w.tables, s, input.guards);
    assert w.log + [] == w.log;
    if r.Ok? {
      CreateKeeps(w.tables, s, input.guards);
      if s.application in w.tables.executions {
        SameClient(w, c, m.client);
      } else {
        TablesMove(w, m.tables, c, m.client, s.application);
      }
    } else {
      SameClient(w, c, m.client);
    }
  }

  /** A step that only changes the client's own state. */
  lemma SameClient(w: World, c: nat, k: Client)
    requires WorldInv(w) && ClientInv(w.tables, w.log, k)
    requires k.Holding? ==> c in w.clients && w.clients[c].Holding? && w.clients[c].ctx.application == k.ctx.application
    ensures WorldInv(World(w.tables, w.clients[c := k], w.log))
  {
  }

  lemma ProceedKeeps(w: World, c: nat, input: Input)
    requires WorldInv(w) && c in w.clients && w.clients[c].Ready?
    ensures WorldInv(Next(w, Advance(c, input)))
  {
    hide Claim, Finalize, TablesInv, OneHolder;
    var ctx, s := w.clients[c].ctx, w.clients[c].state;
    var a := ctx.application;
    var m := Proceed(w.tables, ctx, s, input);
    assert w.log + [] == w.log;
    if s.next < |a.operations| && Claim(w.tables, ctx, s, input.owner, input.now, input.guards).Ok? {
      ClaimKeeps(w.tables, ctx, s, input.owner, input.now, input.guards);
      assert !InLog(w.log, m.client.attempt.Id());
      TablesMove(w, m.tables, c, m.client, a);
    } else if s.next >= |a.operations| && Finalize(w.tables, ctx, s, input.now, input.guards).Ok? {
      FinalizeKeeps(w.tables, ctx, s, input.now, input.guards);
      TablesMove(w, m.tables, c, m.client, a);
    } else {
      SameClient(w, c, m.client);
    }
  }

  lemma LogGrows(log: seq<Dispatched>, entry: Dispatched, x: OperationId)
    ensures InLog(log + [entry], x) <==> InLog(log, x) || x == entry.id
  {
    var more := log + [entry];
    assert more[|log|] == entry;
    if InLog(log, x) {
      var p :| 0 <= p < |log| && log[p].id == x;
      assert more[p].id == x;
    }
  }

  /** The claim holder's dispatch extends the log by an operation that was claimed and never sent. */
  lemma LogInvGrows(t: Tables, log: seq<Dispatched>, h: Client, entry: Dispatched)
    requires LogInv(t, log) && h.Holding? && HoldsCurrentClaim(t, h) && entry.id == h.attempt.Id()
    requires !InLog(log, entry.id)
    ensures LogInv(t, log + [entry])
  {
    var more := log + [entry];
    assert IsOperation(entry.id) && WasClaimed(t, entry.id);
    forall p | 0 <= p < |log| && log[p].id.application == entry.id.application
      ensures log[p].id.index < entry.id.index
    {
      assert WasClaimed(t, log[p].id);
      assert log[p].id != entry.id;
    }
    forall a, k | Managed(t, a) && 0 <= k < t.executions[a].next && k < |a.operations|
      ensures InLog(more, OperationAt(a, k))
    {
      LogGrows(log, entry, OperationAt(a, k));
    }
  }

  lemma SendKeeps(w: World, c: nat, input: Input)
    requires WorldInv(w) && c in w.clients && w.clients[c].Holding? && w.clients[c].stage.Sending?
    ensures WorldInv(Next(w, Advance(c, input)))
  {
    hide TablesInv, LogInv;
    var h := w.clients[c];
    var (k, sent) := Send(h, input);
    if sent == [] {
      assert w.log + [] == w.log;
      SameClient(w, c, k);
    } else {
      var entry := Dispatched(h.attempt.Id(), h.stage.command);
      var v := Next(w, Advance(c, input));
      assert v.log == w.log + [entry];
      LogInvGrows(w.tables, w.log, h, entry);
      forall d | d in v.clients
        ensures ClientInv(v.tables, v.log, v.clients[d])
      {
        if v.clients[d].Holding? {
          LogGrows(w.log, entry, v.clients[d].attempt.Id());
          assert ClientInv(w.tables, w.log, w.clients[d]);
        }
      }
      assert OneHolder(v.clients);
    }
  }

  /** A claim holder is the only one on its application, and has dispatched everything below its claim. */
  lemma HolderAlone(w: World, c: nat)
    requires WorldInv(w) && c in w.clients && w.clients[c].Holding?
    ensures var a := w.clients[c].ctx.application;
      && (forall d :: d in w.clients && d != c && w.clients[d].Holding? ==> w.clients[d].ctx.application != a)
      && Managed(w.tables, a)
      && forall i :: 0 <= i < w.tables.executions[a].next && i < |a.operations| ==> InLog(w.log, OperationAt(a, i))
  {
    assert ClientInv(w.tables, w.log, w.clients[c]);
  }

  lemma RecordKeeps(w: World, c: nat, input: Input)
    requires WorldInv(w) && c in w.clients && w.clients[c].Holding? && w.clients[c].stage.Sent?
    ensures WorldInv(Next(w, Advance(c, input)))
  {
    hide Complete, TrustedSuccess, NewReceipt, LogInv, OneHolder, TablesInv, SameRows, Settle;
    HolderAlone(w, c);
    var h := w.clients[c];
    var o := h.stage.observation;
    var (t', k) := Record(w.tables, h, input);
    assert w.log + [] == w.log;
    if input.current.None? && o.Success? && Evidence(w.tables, h, o, input).Ok? {
      var remote := TrustedSuccess(h.ctx, h.attempt, o).value;
      var receipt := NewReceipt(h.ctx, h.attempt, remote, input.then_);
      CompleteKeeps(w.tables, h.ctx, h.state, h.attempt, h.owner, receipt, input.now, input.guards);
      TablesMove(w, t', c, k, h.ctx.application);
    } else {
      SameClient(w, c, k);
    }
  }

  lemma FinishKeeps(w: World, c: nat, input: Input)
    requires WorldInv(w) && c in w.clients && w.clients[c].Holding? && w.clients[c].stage.Settling?
    ensures WorldInv(Next(w, Advance(c, input)))
  {
    hide Settle, LogInv, OneHolder, TablesInv, SameRows;
    HolderAlone(w, c);
    var h := w.clients[c];
    var (t', k) := Finish(w.tables, h, input);
    assert w.log + [] == w.log;
    if Settle(w.tables, h.ctx, h.state, h.attempt, h.owner, h.stage.target, h.stage.code, input.now, input.guards).Ok? {
      SettleKeeps(w.tables, h.ctx, h.state, h.attempt, h.owner, h.stage.target, h.stage.code, input.now, input.guards);
      TablesMove(w, t', c, k, h.ctx.application);
    } else {
      SameClient(w, c, k);
    }
  }

  lemma GenericStoreKeeps(w: World, step: GenericStep)
    requires WorldInv(w)
    ensures WorldInv(Next(w, GenericStore(step)))
  {
    var t, u := w.tables, PerformOne(w.tables, step);
    if Perform(t, step.call, step.orchestrated, step.refusal).Ok? {
      GenericNonInterference(t, step.call, step.orchestrated, step.refusal);
      GenericKeeps(t, step.call, step.orchestrated, step.refusal);
      forall c | c in w.clients
        ensures ClientInv(u, w.log, w.clients[c])
      {
        ClaimFrame(t, u, w.log, w.clients[c]);
      }
      forall a | Managed(t, a)
        ensures Managed(u, a) && t.executions[a] == u.executions[a]
      {
        assert SameAt(t.executions, u.executions, a);
      }
      forall p | 0 <= p < |w.log|
        ensures WasClaimed(u, w.log[p].id)
      {
        assert WasClaimed(t, w.log[p].id);
      }
    }
  }

  lemma NextKeeps(w: World, e: Event)
    requires WorldInv(w)
    ensures WorldInv(Next(w, e))
  {
    hide TablesInv, LogInv, OneHolder, Create, Claim, Complete, Settle, Finalize, Materialized, TrustedSuccess,
         ValidateClaim, Perform;
    match e
    case Arrive(c, ctx) =>
      if c !in w.clients { SameClient(w, c, Starting(ctx)); }
    case Crash(c) =>
      SameClient(w, c, Stopped(Crashed));
    case GenericStore(step) =>
      GenericStoreKeeps(w, step);
    case Advance(c, input) =>
      if c in w.clients {
        var k := w.clients[c];
        assert w.log + [] == w.log;
        match k
        case Starting(_) => StartKeeps(w, c, input);
        case Ready(_, _) => ProceedKeeps(w, c, input);
        case Holding(_, _, _, _, stage) =>
          match stage {
            case Fresh => SameClient(w, c, Validate(w.tables, k, input));
            case Validated => SameClient(w, c, Prepare(w.tables, k, input));
            case Sending(_) => SendKeeps(w, c, input);
            case Sent(_) => RecordKeeps(w, c, input);
            case Settling(_, _, _) => FinishKeeps(w, c, input);
          }
        case _ => SameClient(w, c, Move(w.tables, k, input).client);
      }
  }

  lemma {:induction false} RunKeeps(w: World, events: seq<Event>)
    requires WorldInv(w)
    ensures WorldInv(Run(w, events))
    decreases |events|
  {
    if events != [] {
      NextKeeps(w, events[0]);
      RunKeeps(Next(w, events[0]), events[1..]);
    }
  }

  lemma InitInv()
    ensures WorldInv(Init)
  {
  }
}
