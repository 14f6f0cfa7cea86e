/** How an operation ends when it does not succeed: what each answer of the remote, and each refusal before it,
    leaves in the tables and returns to the caller.  The codes and end states are given here by themselves,
    apart from the functions that the applier computes them with. */
module Settlements {
  import opened Outcomes
  import opened WriteOperations
  import opened ExecutionRecords
  import opened ExecutionTables
  import opened GenericCalls
  import opened ManagedRows
  import opened Materialize
  import opened ApplyProtocol
  import Answers
  import Continuity

  // ---- other clients' events ----

  /** An event that is not this client's own. */
  predicate Elsewhere(e: Event, c: nat) {
    !(e.Advance? && e.client == c) && !(e.Crash? && e.client == c)
  }

  lemma {:induction false} ClientStays(w: World, c: nat, events: seq<Event>)
    requires c in w.clients && forall i :: 0 <= i < |events| ==> Elsewhere(events[i], c)
    ensures c in Run(w, events).clients && Run(w, events).clients[c] == w.clients[c]
    decreases |events|
  {
    hide Move, PerformOne;
    if events != [] {
      assert Elsewhere(events[0], c);
      ClientStays(Next(w, events[0]), c, events[1..]);
    }
  }

  // ---- settling ----

  /** The operation that a client held has ended in this phase with this code, in its row, in its attempt and in what
      the call returned. */
  ghost predicate EndedAs(w: World, c: nat, h: Client, phase: Phase, code: string)
    requires h.Holding?
  {
    var a, id := h.ctx.application, h.attempt.Id();
    && a in w.tables.executions && w.tables.executions[a].phase == phase
    && w.tables.executions[a].recovery == Some(code) && w.tables.executions[a].next == h.state.next
    && id in w.tables.attempts && w.tables.attempts[id].phase == phase && w.tables.attempts[id].failure == Some(code)
    && c in w.clients
    && w.clients[c] == Stopped(Returned(ApplyResult(a, phase, h.state.next, None, Some(code))))
  }

  /** What happens to a held operation that is to end in this phase with this code: first the decision, then whatever
      others do, and then the settlement, which either takes effect or changes nothing. */
  ghost predicate EndsAs(w: World, c: nat, h: Client, decide: Input, others: seq<Event>, settle: Input, phase: Phase,
                         code: string)
    requires h.Holding?
  {
    var decided := Next(w, Advance(c, decide));
    var before := Run(decided, others);
    var after := Next(before, Advance(c, settle));
    && decided.tables == w.tables && after.log == before.log
    && (after.tables == before.tables || EndedAs(after, c, h, phase, code))
    && c in after.clients && after.clients[c].Stopped?
  }

  lemma SettleEnds(w: World, c: nat, h: Client, input: Input)
    requires c in w.clients && w.clients[c] == h && h.Holding? && h.stage.Settling?
    ensures var after := Next(w, Advance(c, input));
      && after.log == w.log && c in after.clients && after.clients[c].Stopped?
      && (after.tables == w.tables || EndedAs(after, c, h, h.stage.target, h.stage.code))
  {
  }

  lemma DecidedEnds(w: World, c: nat, h: Client, decide: Input, others: seq<Event>, settle: Input, phase: Phase,
                    code: string, tolerant: bool)
    requires h.Holding? && forall i :: 0 <= i < |others| ==> Elsewhere(others[i], c)
    requires var decided := Next(w, Advance(c, decide));
      && decided.tables == w.tables && c in decided.clients
      && decided.clients[c] == h.(stage := Settling(phase, code, tolerant))
    ensures EndsAs(w, c, h, decide, others, settle, phase, code)
  {
    hide Next, EndedAs;
    var decided := Next(w, Advance(c, decide));
    ClientStays(decided, c, others);
    var held := h.(stage := Settling(phase, code, tolerant));
    SettleEnds(Run(decided, others), c, held, settle);
    SameEnd(Next(Run(decided, others), Advance(c, settle)), c, h, held, phase, code);
  }

  lemma SameEnd(w: World, c: nat, h: Client, held: Client, phase: Phase, code: string)
    requires h.Holding? && held.Holding? && held == h.(stage := held.stage)
    ensures EndedAs(w, c, held, phase, code) <==> EndedAs(w, c, h, phase, code)
  {
  }

  // ---- the answers of the remote ----

  /** An ambiguous answer: the write may have happened, so the outcome stays open. */
  lemma AmbiguousStaysOpen(w: World, c: nat, answer: string, decide: Input, others: seq<Event>, settle: Input)
    requires c in w.clients && w.clients[c].Holding? && w.clients[c].stage == Sent(Ambiguous(answer))
    requires decide.current.None? && forall i :: 0 <= i < |others| ==> Elsewhere(others[i], c)
    ensures EndsAs(w, c, w.clients[c], decide, others, settle, OutcomeUnknown,
                   if answer != "" then answer else "github_write_transport_ambiguous")
  {
    hide Run;
    var code := if answer != "" then answer else "github_write_transport_ambiguous";
    DecidedEnds(w, c, w.clients[c], decide, others, settle, OutcomeUnknown, code, true);
  }

  /** A rejection: nothing was written, and the code says whether the application is blocked or has failed. */
  lemma RejectionEnds(w: World, c: nat, answer: string, decide: Input, others: seq<Event>, settle: Input)
    requires c in w.clients && w.clients[c].Holding? && w.clients[c].stage == Sent(Rejected(answer))
    requires decide.current.None? && forall i :: 0 <= i < |others| ==> Elsewhere(others[i], c)
    ensures EndsAs(w, c, w.clients[c], decide, others, settle,
                   if answer in {"github_write_authority_rejected", "github_write_target_unavailable",
                                 "github_write_conflict", "github_write_rate_limited",
                                 "github_write_redirect_rejected"} then Blocked else Failed,
                   if answer != "" then answer else "github_write_rejected")
  {
    hide Run;
    var code := if answer != "" then answer else "github_write_rejected";
    var phase := if answer in {"github_write_authority_rejected", "github_write_target_unavailable",
                               "github_write_conflict", "github_write_rate_limited",
                               "github_write_redirect_rejected"} then Blocked else Failed;
    DecidedEnds(w, c, w.clients[c], decide, others, settle, phase, code, true);
  }

  /** A credential that is refused at the dispatch blocks the application; any other refusal is raised, and the claim
      stays as it is. */
  lemma RefusalEnds(w: World, c: nat, error: Error, decide: Input, others: seq<Event>, settle: Input)
    requires c in w.clients && w.clients[c].Holding? && w.clients[c].stage.Sending?
    requires decide.current.None? && decide.reply == Refused(error)
    requires forall i :: 0 <= i < |others| ==> Elsewhere(others[i], c)
    ensures var credential := error.ValueError? &&
        error.code in {"credential_capability_unregistered", "credential_principal_mismatch",
                       "credential_instance_mismatch", "credential_repository_mismatch", "credential_scope_mismatch",
                       "credential_capability_mismatch", "credential_currentness_mismatch", "credential_expired"};
      var decided := Next(w, Advance(c, decide));
      if credential then EndsAs(w, c, w.clients[c], decide, others, settle, Blocked, error.code)
      else decided.tables == w.tables && decided.clients == w.clients[c := Stopped(Raised(error))]
  {
    hide Run;
    if error.ValueError? && CredentialRefusal(error.code) {
      DecidedEnds(w, c, w.clients[c], decide, others, settle, Blocked, error.code, false);
    }
  }

  // ---- holding a claim ----

  /** A claim is valid exactly while the row is the managed one the holder has, still applying under this owner and this
      attempt, and the stored attempt is the one the holder has, still applying. */
  lemma ClaimStandsExactly(t: Tables, ctx: Context, state: ExecutionState, attempt: Attempt, owner: string)
    requires Keyed(t)
    ensures ValidateClaim(t, ctx, state, attempt, owner, Guards(None, None)).Pass? <==>
              && ctx.application in t.executions && attempt.Id() in t.attempts
              && t.executions[ctx.application] == state && t.attempts[attempt.Id()] == attempt
              && state.managed && state.phase == Applying && state.owner == Some(owner)
              && state.attempt == Some(attempt.Id()) && attempt.phase == Applying
    ensures forall guards: Guards :: guards.context.Some? ==>
              ValidateClaim(t, ctx, state, attempt, owner, guards) == Fail(ValueError(guards.context.value))
  {
  }

  // ---- refusals before the dispatch ----

  /** What validating the claim or making its command raises. */
  ghost predicate Refuses(w: World, h: Client, input: Input, error: Error)
    requires h.Holding?
  {
    || (h.stage.Fresh? && ValidateClaim(w.tables, h.ctx, h.state, h.attempt, h.owner, input.guards) == Fail(error))
    || (h.stage.Validated? && Materialized(h.ctx, w.tables, h.attempt, input.revalidation) == Err(error))
  }

  /** Ten codes block the application, any other code fails it, and whatever is not a `ValueError` is raised.
      Nothing is dispatched. */
  lemma RefusedCommandEnds(w: World, c: nat, error: Error, decide: Input, others: seq<Event>, settle: Input)
    requires c in w.clients && w.clients[c].Holding? && Refuses(w, w.clients[c], decide, error)
    requires forall i :: 0 <= i < |others| ==> Elsewhere(others[i], c)
    ensures Next(w, Advance(c, decide)).log == w.log
    ensures error.ValueError? ==>
      EndsAs(w, c, w.clients[c], decide, others, settle,
             if error.code in {"existing_endpoint_not_found", "existing_endpoint_repository_mismatch",
                               "existing_endpoint_identity_mismatch", "existing_endpoint_write_address_invalid",
                               "existing_endpoint_semantic_stale", "relationship_already_exists",
                               "remote_observation_unavailable", "write_reference_unavailable",
                               "write_executor_invalid", "runtime_authority_required"} then Blocked else Failed,
             error.code)
    ensures !error.ValueError? ==>
      && Next(w, Advance(c, decide)).tables == w.tables
      && Next(w, Advance(c, decide)).clients == w.clients[c := Stopped(Raised(error))]
  {
    hide Run, ValidateClaim, Materialized;
    if error.ValueError? {
      var phase := if error.code in {"existing_endpoint_not_found", "existing_endpoint_repository_mismatch",
                                     "existing_endpoint_identity_mismatch", "existing_endpoint_write_address_invalid",
                                     "existing_endpoint_semantic_stale", "relationship_already_exists",
                                     "remote_observation_unavailable", "write_reference_unavailable",
                                     "write_executor_invalid", "runtime_authority_required"} then Blocked else Failed;
      DecidedEnds(w, c, w.clients[c], decide, others, settle, phase, error.code, false);
    }
  }

  /** An authority that is no longer current, found before or after the dispatch: the claim is left for recovery, with
      nothing written and nothing more dispatched; any other refusal is raised. */
  lemma LostAuthorityLeavesClaim(w: World, c: nat, code: string, input: Input)
    requires c in w.clients && w.clients[c].Holding? && (w.clients[c].stage.Sending? || w.clients[c].stage.Sent?)
    requires input.current == Some(code)
    ensures var h, after := w.clients[c], Next(w, Advance(c, input));
      && after.tables == w.tables && after.log == w.log
      && after.clients == w.clients[c := Stopped(
           if code == "runtime_authority_invalid"
           then Returned(ApplyResult(h.ctx.application, h.state.phase, h.state.next, None,
                                     Some("application_recovery_required")))
           else Raised(ValueError(code)))]
  {
    assert w.log + [] == w.log;
  }

  // ---- arriving at work that has begun ----

  /** Applying again what is under way or has ended, under the same anchor: nothing changes, and the answer is the
      stored phase and index, with the stored code or, while another holds the claim, the call for recovery. */
  lemma LaterApplyReports(w: World, c: nat, input: Input)
    requires TablesInv(w.tables) && c in w.clients && w.clients[c].Starting? && input.guards == Guards(None, None)
    requires var ctx := w.clients[c].ctx;
      && Managed(w.tables, ctx.application)
      && w.tables.executions[ctx.application].anchor == AnchorOf(ctx.provenance)
      && w.tables.executions[ctx.application].phase in {Applying, Failed, Blocked, OutcomeUnknown}
    ensures var a := w.clients[c].ctx.application; var s := w.tables.executions[a];
      Next(w, Advance(c, input)) ==
        w.(clients := w.clients[c := Stopped(Returned(ApplyResult(a, s.phase, s.next, None,
             if s.phase.Applying? then Some("application_recovery_required") else s.recovery)))])
    ensures var s := w.tables.executions[w.clients[c].ctx.application];
      !s.phase.Applying? ==> s.recovery.Some?
  {
    assert RowInv(w.tables, w.clients[c].ctx.application);
    assert w.log + [] == w.log;
  }

  /** Losing a claim to another: nothing changes, and the answer is what the row says by then, or the error of the claim
      again if the row has not moved. */
  lemma LostRaceReports(w: World, c: nat, input: Input)
    requires TablesInv(w.tables) && c in w.clients && w.clients[c].Rechecking?
    requires Managed(w.tables, w.clients[c].ctx.application)
    requires !w.tables.executions[w.clients[c].ctx.application].phase.Applied?
    ensures var k := w.clients[c]; var a := k.ctx.application; var s := w.tables.executions[a];
      Next(w, Advance(c, input)) ==
        w.(clients := w.clients[c := Stopped(
             if s == k.state then Raised(k.error)
             else Returned(ApplyResult(a, s.phase, s.next, None,
                           if s.phase in {Applying, PartiallyApplied} then Some("application_recovery_required")
                           else s.recovery)))])
  {
    assert RowInv(w.tables, w.clients[c].ctx.application);
    assert w.log + [] == w.log;
  }

  // ---- over runs ----

  /** In every run, the settlement of a claim holder takes effect whenever the runtime refuses nothing. */
  lemma SettlementTakesEffect(earlier: seq<Event>, c: nat, settle: Input)
    requires var w := Run(Init, earlier);
      c in w.clients && w.clients[c].Holding? && w.clients[c].stage.Settling?
    requires settle.guards == Guards(None, None)
    ensures var w := Run(Init, earlier); var h := w.clients[c];
      EndedAs(Next(w, Advance(c, settle)), c, h, h.stage.target, h.stage.code)
  {
    hide Run, WorldInv, LogInv, OneHolder, AttemptContinues, StateContinues, Answers.AnswersIn, Answers.RowsTrue,
         Answers.OnceEach, EndedAs, Next, HoldsCurrentClaim;
    var w := Run(Init, earlier);
    Answers.FromTheStart(earlier);
    assert Answers.ClientTrue(Answers.AnswersIn(Init, earlier), w.clients[c]);
    Continuity.HoldersContinue(earlier, c);
    HolderIsCurrent(w, c);
    SettlesCurrent(w, c, settle);
  }

  lemma HolderIsCurrent(w: World, c: nat)
    requires WorldInv(w) && c in w.clients && w.clients[c].Holding?
    ensures HoldsCurrentClaim(w.tables, w.clients[c])
  {
    assert ClientInv(w.tables, w.log, w.clients[c]);
  }

  lemma SettlesCurrent(w: World, c: nat, settle: Input)
    requires c in w.clients && w.clients[c].Holding? && w.clients[c].stage.Settling?
    requires HoldsCurrentClaim(w.tables, w.clients[c]) && settle.guards == Guards(None, None)
    requires var h := w.clients[c];
      && h.stage.target in {Failed, Blocked, OutcomeUnknown}
      && AttemptContinues(h.ctx, h.attempt).Pass? && StateContinues(h.ctx, h.state).Pass?
    ensures EndedAs(Next(w, Advance(c, settle)), c, w.clients[c], w.clients[c].stage.target, w.clients[c].stage.code)
  {
    hide AttemptContinues, StateContinues;
  }
}
