/** What holds over every run of the apply protocol. */
module ApplyTheorems {
  import opened Outcomes
  import opened Sequences
  import opened WriteOperations
  import opened ExecutionRecords
  import opened ExecutionTables
  import opened GenericCalls
  import opened ManagedRows
  import opened Materialize
  import opened ApplyProtocol

  // ---- safety of dispatch ----

  /** At-most-once, in-order dispatch.  Whatever the interleaving of appliers, crashes and generic
      calls, no operation is dispatched twice, operations of one application are dispatched in order,
      and when one has been dispatched the receipts of all operations below it are stored. */
  lemma AtMostOnceInOrder(events: seq<Event>)
    ensures var w := Run(Init, events);
      && (forall p, q :: 0 <= p < q < |w.log| ==> w.log[p].id != w.log[q].id)
      && InOrder(w.log)
      && (forall p, j :: 0 <= p < |w.log| && 0 <= j < w.log[p].id.index ==>
            j < |w.log[p].id.application.operations| && OperationAt(w.log[p].id.application, j) in w.tables.receipts)
  {
    var w := Run(Init, events);
    InitInv();
    RunKeeps(Init, events);
    forall p, j | 0 <= p < |w.log| && 0 <= j < w.log[p].id.index
      ensures j < |w.log[p].id.application.operations| && OperationAt(w.log[p].id.application, j) in w.tables.receipts
    {
      var a := w.log[p].id.application;
      assert WasClaimed(w.tables, w.log[p].id);
      assert RowInv(w.tables, a);
      assert DoneRow(w.tables, w.tables.executions[a], j);
    }
  }

  /** The operation indices dispatched for one application, in the order of dispatch. */
  function DispatchesOf(log: seq<Dispatched>, a: ApplicationId): seq<nat> {
    if log == [] then [] else
    var before := DispatchesOf(log[..|log| - 1], a);
    var last := log[|log| - 1].id;
    if last.application == a then before + [last.index] else before
  }

  ghost predicate Increasing(s: seq<nat>) {
    forall i, j :: 0 <= i < j < |s| ==> s[i] < s[j]
  }

  lemma {:induction false} DispatchesOfMembers(log: seq<Dispatched>, a: ApplicationId)
    requires InOrder(log)
    ensures Increasing(DispatchesOf(log, a))
    ensures forall i: nat :: i in DispatchesOf(log, a) <==>
              exists p :: 0 <= p < |log| && log[p].id.application == a && log[p].id.index == i
  {
    if log != [] {
      var front, last := log[..|log| - 1], log[|log| - 1].id;
      DispatchesOfMembers(front, a);
      var before := DispatchesOf(front, a);
      if last.application == a {
        forall k | 0 <= k < |before|
          ensures before[k] < last.index
        {
          assert before[k] in before;
          var p :| 0 <= p < |front| && front[p].id.application == a && front[p].id.index == before[k];
          assert log[p] == front[p];
        }
      }
      forall i: nat
        ensures i in DispatchesOf(log, a) <==>
                  exists p :: 0 <= p < |log| && log[p].id.application == a && log[p].id.index == i
      {
        if i in before {
          var p :| 0 <= p < |front| && front[p].id.application == a && front[p].id.index == i;
          assert log[p] == front[p];
        }
        if p :| 0 <= p < |log| && log[p].id.application == a && log[p].id.index == i {
          assert p < |front| ==> front[p] == log[p];
        }
      }
    }
  }

  /** An increasing sequence whose members are exactly the numbers below `n`. */
  lemma IncreasingIsInitial(s: seq<nat>, n: nat)
    requires Increasing(s) && (forall i: nat :: i in s <==> i < n)
    ensures s == seq(n, i => i)
  {
    forall k | 0 <= k < |s|
      ensures s[k] == k
    {
      IncreasingAt(s, n, k);
    }
    assert |s| !in s;
    if |s| > 0 {
      assert s[|s| - 1] in s;
    }
  }

  lemma {:induction false} IncreasingAt(s: seq<nat>, n: nat, k: nat)
    requires Increasing(s) && (forall i: nat :: i in s <==> i < n) && k < |s|
    ensures s[k] == k
  {
    if k > 0 {
      IncreasingAt(s, n, k - 1);
    }
    assert s[k] in s;
    if s[k] > k {
      assert k in s;
      var j :| 0 <= j < |s| && s[j] == k;
    }
  }

  /** The dispatches of a managed application are exactly 0, 1, 2, ... up to the next index, and one
      more only while that operation is claimed or has been settled. */
  lemma DispatchesAreInitialSegment(events: seq<Event>, a: ApplicationId)
    requires Managed(Run(Init, events).tables, a)
    ensures var w := Run(Init, events); var s := w.tables.executions[a]; var n := |DispatchesOf(w.log, a)|;
      && DispatchesOf(w.log, a) == seq(n, i => i)
      && (n == s.next || (n == s.next + 1 && s.phase in {Applying, Failed, Blocked, OutcomeUnknown}))
  {
    hide Next, Run, ClientInv, OneHolder, DispatchesOf, ClockRow, DoneRow;
    var w := Run(Init, events);
    InitInv();
    RunKeeps(Init, events);
    var s := w.tables.executions[a];
    assert RowInv(w.tables, a);
    DispatchesOfMembers(w.log, a);
    var d := DispatchesOf(w.log, a);
    var n := if s.next in d then s.next + 1 else s.next;
    forall i: nat
      ensures i in d <==> i < n
    {
      if i in d {
        var p :| 0 <= p < |w.log| && w.log[p].id.application == a && w.log[p].id.index == i;
        assert WasClaimed(w.tables, w.log[p].id);
      }
      if i < s.next {
        assert InLog(w.log, OperationAt(a, i));
      }
    }
    IncreasingIsInitial(d, n);
    if s.next in d {
      var p :| 0 <= p < |w.log| && w.log[p].id.application == a && w.log[p].id.index == s.next;
      assert WasClaimed(w.tables, w.log[p].id);
    }
  }

  // ---- how a row moves ----

  /** A durable step other than finalising: the transition table allows it. */
  predicate Finalizes(s: ExecutionState, s': ExecutionState) {
    && s.phase.PartiallyApplied? && s.next == |s.application.operations| && s'.completedAt.Some?
    && s' == s.(phase := Applied, completedAt := s'.completedAt, updatedAt := s'.completedAt.value)
  }

  predicate Settles(s: ExecutionState, s': ExecutionState) {
    s.phase.Applying? && s'.phase in {Failed, Blocked, OutcomeUnknown}
  }

  /** How many durable steps an application has left at most. */
  function Rank(s: ExecutionState): nat {
    if Terminal(s.phase) || s.next > |s.application.operations| then 0
    else 2 * (|s.application.operations| - s.next) + (if s.phase.Applying? then 0 else 1)
  }

  /** One durable step of a managed row. */
  ghost predicate RowMoves(s: ExecutionState, s': ExecutionState) {
    && !Terminal(s.phase)
    && Rank(s') < Rank(s)
    && (Finalizes(s, s') || ValidateApplicationTransition(s, s').Pass?)
    && (Settles(s, s') || NotBefore(s'.updatedAt, s.updatedAt))
  }

  /** The client whose step an event is, when that step works on the application. */
  ghost predicate StepsOn(w: World, e: Event, a: ApplicationId) {
    && e.Advance? && e.client in w.clients
    && (w.clients[e.client].Ready? || w.clients[e.client].Holding?) && w.clients[e.client].ctx.application == a
  }

  ghost predicate Advances(w: World, e: Event, a: ApplicationId)
    requires Managed(w.tables, a)
  {
    var t, u := w.tables, Next(w, e).tables;
    && Managed(u, a)
    && (SameRows(t, u, a) || (StepsOn(w, e, a) && RowMoves(t.executions[a], u.executions[a])))
    && (NoStrayRows(t, a) ==> NoStrayRows(u, a))
  }

  lemma ClaimMoves(s: ExecutionState, s': ExecutionState, owner: string, now: Stamp)
    requires ClaimedState(s, s', owner, now) && s.next == |s.refs| && s.completedAt.None?
    ensures RowMoves(s, s')
  {
  }

  lemma CompleteMoves(s: ExecutionState, s': ExecutionState, now: Stamp)
    requires CompletedState(s, s', now) && s.next == |s.refs| && s.completedAt.None?
    ensures RowMoves(s, s')
  {
    assert s'.refs[..|s'.refs| - 1] == s.refs;
  }

  lemma SettleMoves(s: ExecutionState, s': ExecutionState, target: Phase, code: string, now: Stamp)
    requires SettledState(s, s', target, code, now) && s.next == |s.refs| && s.completedAt.None?
    ensures RowMoves(s, s')
  {
  }

  lemma FinalizeMoves(s: ExecutionState, s': ExecutionState, now: Stamp)
    requires FinalizedState(s, s', now)
    ensures RowMoves(s, s')
  {
  }

  /** A row whose tables did not change, or changed for another application only. */
  lemma OthersKeep(t: Tables, u: Tables, a: ApplicationId)
    requires Managed(t, a) && TablesInv(t) && SameRows(t, u, a)
    ensures Managed(u, a) && (NoStrayRows(t, a) ==> NoStrayRows(u, a))
  {
    RowInvFrame(t, u, a);
  }

  /** Every event leaves a managed row alone, or advances it by one durable step. */
  lemma EventAdvances(w: World, e: Event, a: ApplicationId)
    requires WorldInv(w) && Managed(w.tables, a)
    ensures Advances(w, e, a)
  {
    var t, u := w.tables, Next(w, e).tables;
    if t == u {
      return;
    }
    match e
    case GenericStore(step) =>
      GenericNonInterference(t, step.call, step.orchestrated, step.refusal);
      OthersKeep(t, u, a);
    case Advance(c, input) =>
      ClientAdvances(w, c, input, a);
  }

  /** A table change that keeps the rows of every application but `b`, and moves the row of `b`. */
  ghost predicate MovesOnly(t: Tables, u: Tables, b: ApplicationId) {
    && Managed(t, b) && Managed(u, b)
    && (forall x :: x != b ==> SameRows(t, u, x))
    && RowMoves(t.executions[b], u.executions[b])
    && (NoStrayRows(t, b) ==> NoStrayRows(u, b))
  }

  lemma ReadyAdvances(t: Tables, ctx: Context, s: ExecutionState, input: Input)
    requires TablesInv(t)
    ensures var u := Proceed(t, ctx, s, input).tables; u == t || MovesOnly(t, u, ctx.application)
  {
    var u := Proceed(t, ctx, s, input).tables;
    var a := ctx.application;
    if s.next < |a.operations| {
      if Claim(t, ctx, s, input.owner, input.now, input.guards).Ok? {
        ClaimKeeps(t, ctx, s, input.owner, input.now, input.guards);
        assert RowInv(t, a);
        ClaimMoves(s, u.executions[a], input.owner, input.now);
      }
    } else if Finalize(t, ctx, s, input.now, input.guards).Ok? {
      FinalizeKeeps(t, ctx, s, input.now, input.guards);
      FinalizeMoves(s, u.executions[a], input.now);
    }
  }

  lemma SentAdvances(t: Tables, h: Client, input: Input)
    requires TablesInv(t) && h.Holding? && h.stage.Sent?
    ensures var u := Record(t, h, input).0; u == t || MovesOnly(t, u, h.ctx.application)
  {
    var o := h.stage.observation;
    if input.current.None? && o.Success? && Evidence(t, h, o, input).Ok? {
      var r := NewReceipt(h.ctx, h.attempt, TrustedSuccess(h.ctx, h.attempt, o).value, input.then_);
      CompleteKeeps(t, h.ctx, h.state, h.attempt, h.owner, r, input.now, input.guards);
      assert RowInv(t, h.ctx.application);
      CompleteMoves(h.state, Record(t, h, input).0.executions[h.ctx.application], input.now);
    }
  }

  lemma SettlingAdvances(t: Tables, h: Client, input: Input)
    requires TablesInv(t) && h.Holding? && h.stage.Settling?
    ensures var u := Finish(t, h, input).0; u == t || MovesOnly(t, u, h.ctx.application)
  {
    var target, code := h.stage.target, h.stage.code;
    if Settle(t, h.ctx, h.state, h.attempt, h.owner, target, code, input.now, input.guards).Ok? {
      SettleKeeps(t, h.ctx, h.state, h.attempt, h.owner, target, code, input.now, input.guards);
      assert RowInv(t, h.ctx.application);
      SettleMoves(h.state, Finish(t, h, input).0.executions[h.ctx.application], target, code, input.now);
    }
  }

  lemma ClientAdvances(w: World, c: nat, input: Input, a: ApplicationId)
    requires WorldInv(w) && Managed(w.tables, a) && c in w.clients
    requires w.tables != Next(w, Advance(c, input)).tables
    ensures Advances(w, Advance(c, input), a)
  {
    hide Create, Claim, Complete, Settle, Finalize, Materialized, TrustedSuccess, LogInv, OneHolder, RowMoves,
         RowInv, ClientInv;
    var t, u := w.tables, Next(w, Advance(c, input)).tables;
    var k := w.clients[c];
    if k.Starting? {
      CreateKeeps(t, InitialFor(k.ctx, input.now), input.guards);
      OthersKeep(t, u, a);
    } else {
      if k.Ready? {
        ReadyAdvances(t, k.ctx, k.state, input);
      } else if k.stage.Sent? {
        SentAdvances(t, k, input);
      } else {
        SettlingAdvances(t, k, input);
      }
      if k.ctx.application != a {
        OthersKeep(t, u, a);
      }
    }
  }

  // ---- whole runs ----

  /** The number of events of a run that change the execution row of an application. */
  ghost function DurableSteps(w: World, events: seq<Event>, a: ApplicationId): nat
    decreases |events|
  {
    if events == [] then 0 else
    var v := Next(w, events[0]);
    (if SameAt(w.tables.executions, v.tables.executions, a) then 0 else 1) + DurableSteps(v, events[1..], a)
  }

  /** The run of an application over n operations ends after at most 2n + 1 durable steps. */
  lemma {:induction false} DurableStepsBounded(w: World, events: seq<Event>, a: ApplicationId)
    requires WorldInv(w) && Managed(w.tables, a)
    ensures var v := Run(w, events);
      && Managed(v.tables, a)
      && DurableSteps(w, events, a) + Rank(v.tables.executions[a]) <= Rank(w.tables.executions[a])
      && Rank(w.tables.executions[a]) <= 2 * |a.operations| + 1
    decreases |events|
  {
    hide Next, NoStrayRows;
    assert RowInv(w.tables, a);
    if events != [] {
      EventAdvances(w, events[0], a);
      NextKeeps(w, events[0]);
      DurableStepsBounded(Next(w, events[0]), events[1..], a);
    }
  }

  /** In a run that reaches Applied, the clock of the row never runs backwards: settling is the only step
      that does not check it, and it is final. */
  lemma {:induction false} AppliedClockNeverFalls(w: World, events: seq<Event>, a: ApplicationId)
    requires WorldInv(w) && Managed(w.tables, a) && Managed(Run(w, events).tables, a)
    requires Run(w, events).tables.executions[a].phase.Applied?
    ensures NotBefore(Run(w, events).tables.executions[a].updatedAt, w.tables.executions[a].updatedAt)
    decreases |events|
  {
    hide Next, WorldInv, NoStrayRows, RowInv, Keyed, CurrentRow, ClockRow;
    if events == [] {
      AppliedClock(w, a);
    } else {
      var v := Next(w, events[0]);
      EventAdvances(w, events[0], a);
      NextKeeps(w, events[0]);
      AppliedClockNeverFalls(v, events[1..], a);
      if Terminal(v.tables.executions[a].phase) {
        TerminalIsFinal(v, events[1..], a);
        assert SameAt(v.tables.executions, Run(v, events[1..]).tables.executions, a);
      }
    }
  }

  lemma AppliedClock(w: World, a: ApplicationId)
    requires WorldInv(w) && Managed(w.tables, a) && w.tables.executions[a].phase.Applied?
    ensures NotBefore(w.tables.executions[a].updatedAt, w.tables.executions[a].updatedAt)
  {
    assert RowInv(w.tables, a);
  }

  lemma TerminalNotHeld(w: World, a: ApplicationId)
    requires WorldInv(w) && Managed(w.tables, a) && Terminal(w.tables.executions[a].phase)
    ensures !Held(w, a)
  {
    hide TablesInv, LogInv, OneHolder;
  }

  /** A terminal application is final: none of its rows ever changes again, and nothing is dispatched
      for it again. */
  lemma {:induction false} TerminalIsFinal(w: World, events: seq<Event>, a: ApplicationId)
    requires WorldInv(w) && Managed(w.tables, a) && Terminal(w.tables.executions[a].phase)
    ensures SameRows(w.tables, Run(w, events).tables, a)
    ensures DispatchesOf(Run(w, events).log, a) == DispatchesOf(w.log, a)
    decreases |events|
  {
    hide WorldInv, Next, NoStrayRows, RowInv, Keyed;
    if events != [] {
      var v := Next(w, events[0]);
      EventAdvances(w, events[0], a);
      NextKeeps(w, events[0]);
      TerminalNotHeld(w, a);
      NoDispatchUnlessHeld(w, events[0], a);
      TerminalIsFinal(v, events[1..], a);
      SameRowsTransitive(w.tables, v.tables, Run(v, events[1..]).tables, a);
    }
  }

  /** Only the holder of a claim on the application dispatches for it. */
  ghost predicate Held(w: World, a: ApplicationId) {
    exists c :: c in w.clients && w.clients[c].Holding? && w.clients[c].ctx.application == a
  }

  lemma NoDispatchUnlessHeld(w: World, e: Event, a: ApplicationId)
    requires WorldInv(w) && !Held(w, a)
    ensures DispatchesOf(Next(w, e).log, a) == DispatchesOf(w.log, a)
  {
    var v := Next(w, e);
    if v.log != w.log {
      assert e.Advance? && e.client in w.clients;
      var k := w.clients[e.client];
      assert k.Holding?;
      assert ClientInv(w.tables, w.log, k);
      assert |v.log| == |w.log| + 1 && v.log[..|v.log| - 1] == w.log;
      assert v.log[|w.log|].id == k.attempt.Id();
    }
  }

  /** A claim whose holder has gone is never taken over: its application stays as it is for ever,
      nothing is dispatched for it, and no later applier can hold it. */
  lemma {:induction false} OrphanedClaimIsFrozen(w: World, events: seq<Event>, a: ApplicationId)
    requires WorldInv(w) && Managed(w.tables, a) && w.tables.executions[a].phase.Applying? && !Held(w, a)
    ensures var v := Run(w, events);
      && SameRows(w.tables, v.tables, a) && !Held(v, a)
      && DispatchesOf(v.log, a) == DispatchesOf(w.log, a)
    decreases |events|
  {
    hide WorldInv, Next, NoStrayRows, Held;
    if events != [] {
      var e := events[0];
      var v := Next(w, e);
      EventAdvances(w, e, a);
      NextKeeps(w, e);
      NoDispatchUnlessHeld(w, e, a);
      ApplyingIsNotClaimed(w, e, a);
      OrphanedClaimIsFrozen(v, events[1..], a);
      SameRowsTransitive(w.tables, v.tables, Run(v, events[1..]).tables, a);
    }
  }

  lemma ApplyingIsNotClaimed(w: World, e: Event, a: ApplicationId)
    requires WorldInv(w) && Managed(w.tables, a) && w.tables.executions[a].phase.Applying? && !Held(w, a)
    ensures !Held(Next(w, e), a) && SameRows(w.tables, Next(w, e).tables, a)
  {
    hide Create, Claim, Complete, Settle, Finalize, Materialized, TrustedSuccess, GetReplay, TablesInv, LogInv,
         OneHolder, HoldsCurrentClaim, RowMoves, NoStrayRows, SameRows, PerformOne;
    EventAdvances(w, e, a);
    SameRowsItself(w.tables, a);
    if e.Advance? && e.client in w.clients && w.clients[e.client].Ready? && w.clients[e.client].ctx.application == a {
      ReadyCannotMoveApplying(w.tables, w.clients[e.client].ctx, w.clients[e.client].state, e.input);
    }
  }

  lemma ReadyCannotMoveApplying(t: Tables, ctx: Context, s: ExecutionState, input: Input)
    requires TablesInv(t) && Managed(t, ctx.application) && t.executions[ctx.application].phase.Applying?
    ensures var m := Proceed(t, ctx, s, input); m.tables == t && !m.client.Holding?
  {
    if s.next < |ctx.application.operations| {
      if Claim(t, ctx, s, input.owner, input.now, input.guards).Ok? {
        ClaimKeeps(t, ctx, s, input.owner, input.now, input.guards);
      }
    } else if Finalize(t, ctx, s, input.now, input.guards).Ok? {
      FinalizeKeeps(t, ctx, s, input.now, input.guards);
    }
  }

  /** The table invariant of an application that had no rows when it was created, in every later world:
      rows are stored exactly where its progress says. */
  lemma {:induction false} CleanApplicationStaysExact(w: World, events: seq<Event>, a: ApplicationId)
    requires WorldInv(w) && Managed(w.tables, a) && NoStrayRows(w.tables, a)
    ensures var t := Run(w, events).tables;
      && Managed(t, a) && RowInv(t, a) && NoStrayRows(t, a)
      && (forall k :: 0 <= k < |a.operations| ==> (OperationAt(a, k) in t.receipts <==> k < t.executions[a].next))
    decreases |events|
  {
    if events == [] {
      assert RowInv(w.tables, a);
      forall k | 0 <= k < w.tables.executions[a].next
        ensures OperationAt(a, k) in w.tables.receipts
      {
        assert DoneRow(w.tables, w.tables.executions[a], k);
      }
    } else {
      EventAdvances(w, events[0], a);
      NextKeeps(w, events[0]);
      CleanApplicationStaysExact(Next(w, events[0]), events[1..], a);
    }
  }

  /** Creating an application of which no row is stored starts a clean one. */
  lemma CreationIsClean(w: World, c: nat, input: Input)
    requires WorldInv(w) && c in w.clients && w.clients[c].Starting? && NoRows(w.tables, w.clients[c].ctx.application)
    ensures var a := w.clients[c].ctx.application; var v := Next(w, Advance(c, input));
      Managed(v.tables, a) ==> NoStrayRows(v.tables, a) && Rank(v.tables.executions[a]) == 2 * |a.operations| + 1
  {
    var ctx := w.clients[c].ctx;
    if Create(w.tables, InitialFor(ctx, input.now), input.guards).Ok? {
      CreateKeeps(w.tables, InitialFor(ctx, input.now), input.guards);
    }
  }

  // ---- replay ----

  lemma {:induction false} ReplayLoadsAll(t: Tables, a: ApplicationId, r: ApplicationReceipt,
                                          done: seq<OperationReceipt>)
    requires |done| <= |a.operations| == |r.refs|
    requires forall k :: 0 <= k < |a.operations| ==>
               OperationAt(a, k) in t.receipts && r.refs[k] == RefOf(t.receipts[OperationAt(a, k)])
    requires forall k :: 0 <= k < |done| ==> done[k] == t.receipts[OperationAt(a, k)]
    ensures var loaded := LoadReplay(t, a, a.operations, r, done);
      && loaded.Ok? && |loaded.value| == |a.operations|
      && forall k :: 0 <= k < |a.operations| ==> loaded.value[k] == t.receipts[OperationAt(a, k)]
    decreases |a.operations| - |done|
  {
    var i := |done|;
    if i < |a.operations| {
      var id := OperationAt(a, i);
      assert r.refs[i] == RefOf(t.receipts[id]);
      ReplayLoadsAll(t, a, r, done + [t.receipts[id]]);
    }
  }

  /** What finalising wrote is what the replay check demands: loading an applied application with its
      expected operations succeeds, and the application receipt validates against the stored receipts. */
  lemma ReplayAccepts(t: Tables, a: ApplicationId)
    requires TablesInv(t) && Managed(t, a) && t.executions[a].phase.Applied?
    ensures GetReplay(t, a, a.operations) == Ok(t.executions[a])
    ensures var loaded := LoadReplay(t, a, a.operations, t.applicationReceipts[a], []);
      loaded.Ok? && t.applicationReceipts[a].Matches(a.operations, loaded.value)
  {
    assert RowInv(t, a);
    var s, r := t.executions[a], t.applicationReceipts[a];
    ReplayLoadsAll(t, a, r, []);
    var loaded := LoadReplay(t, a, a.operations, r, []).value;
    forall k | 0 <= k < |a.operations|
      ensures r.MatchesAt(k, a.operations[k], loaded[k]) && loaded[k].index == k && r.refs[k].id == s.refs[k]
    {
      assert DoneRow(t, s, k);
      assert loaded[k] == t.receipts[OperationAt(a, k)];
    }
    assert seq(|r.refs|, i requires 0 <= i < |r.refs| => r.refs[i].id) == s.refs;
  }

  lemma AppliedStarts(t: Tables, ctx: Context, input: Input)
    requires TablesInv(t) && input.guards == Guards(None, None)
    requires var a := ctx.application;
      Managed(t, a) && t.executions[a].phase.Applied? && t.executions[a].anchor == ctx.Anchor()
    ensures Start(t, ctx, input) == Moved(t, Concluding(ctx, t.executions[ctx.application], true), [])
  {
    assert RowInv(t, ctx.application);
    assert Create(t, InitialFor(ctx, input.now), input.guards) == Ok(Created(t, t.executions[ctx.application]));
  }

  /** One apply call on an applied application, run without interruption. */
  lemma ReapplyOnce(v: World, c: nat, ctx: Context, start: Input, finish: Input)
    requires WorldInv(v) && c !in v.clients && start.guards == Guards(None, None)
    requires var a := ctx.application;
      Managed(v.tables, a) && v.tables.executions[a].phase.Applied? && v.tables.executions[a].anchor == ctx.Anchor()
    ensures var a := ctx.application;
      var u := Next(Next(Next(v, Arrive(c, ctx)), Advance(c, start)), Advance(c, finish));
      && c in u.clients
      && u.clients[c] == Stopped(Returned(ApplyResult(a, Applied, |a.operations|, Some(ApplicationReceiptId(a)), None)))
      && u.tables == v.tables && u.log == v.log
  {
    hide Create, GetReplay, LoadReplay, Start, Claim, Finalize, Complete, Settle, Materialized, TrustedSuccess,
         LogInv, OneHolder, ClientInv, Keyed;
    var a := ctx.application;
    assert RowInv(v.tables, a);
    ReplayAccepts(v.tables, a);
    var s := v.tables.executions[a];
    AppliedStarts(v.tables, ctx, start);
    assert v.log + [] == v.log;
    var v2 := Next(Next(v, Arrive(c, ctx)), Advance(c, start));
    assert v2.clients[c] == Concluding(ctx, s, true) && v2.tables == v.tables && v2.log == v.log;
  }

  /** Every later apply of an applied application, after any run, returns its receipt id, dispatches
      nothing and changes nothing. */
  lemma ReapplyReturnsReceipt(w: World, events: seq<Event>, c: nat, ctx: Context, start: Input, finish: Input)
    requires WorldInv(w)
    requires var a := ctx.application;
      Managed(w.tables, a) && w.tables.executions[a].phase.Applied? && w.tables.executions[a].anchor == ctx.Anchor()
    requires start.guards == Guards(None, None) && c !in Run(w, events).clients
    ensures var a := ctx.application; var v := Run(w, events);
      var u := Next(Next(Next(v, Arrive(c, ctx)), Advance(c, start)), Advance(c, finish));
      && c in u.clients
      && u.clients[c] == Stopped(Returned(ApplyResult(a, Applied, |a.operations|, Some(ApplicationReceiptId(a)), None)))
      && u.tables == v.tables && u.log == v.log
      && SameRows(w.tables, v.tables, a)
  {
    TerminalIsFinal(w, events, ctx.application);
    RunKeeps(w, events);
    assert SameAt(w.tables.executions, Run(w, events).tables.executions, ctx.application);
    ReapplyOnce(Run(w, events), c, ctx, start, finish);
  }

  /** In a run that reaches Applied, the completion time is no earlier than the start, the last update
      or any receipt's completion. */
  lemma CompletionIsLast(t: Tables, a: ApplicationId)
    requires TablesInv(t) && Managed(t, a) && t.executions[a].phase.Applied?
    ensures var s := t.executions[a];
      && s.completedAt == Some(s.updatedAt) && s.startedAt.At? && s.updatedAt.At?
      && s.startedAt.time <= s.updatedAt.time
      && (forall k :: 0 <= k < |a.operations| ==>
            OperationAt(a, k) in t.receipts
            && NotBefore(s.updatedAt, t.receipts[OperationAt(a, k)].completedAt))
  {
    assert RowInv(t, a);
    forall k | 0 <= k < |a.operations|
      ensures OperationAt(a, k) in t.receipts
      ensures NotBefore(t.executions[a].updatedAt, t.receipts[OperationAt(a, k)].completedAt)
    {
      assert DoneRow(t, t.executions[a], k);
    }
  }

  /** Finalising a completed application fails only for the clock, the live runtime, a different
      continuity anchor, or a stray application receipt: never for a missing or wrong receipt. */
  lemma {:induction false} LoadReceiptsNeverIncomplete(t: Tables, a: ApplicationId, now: Stamp,
                                                       done: seq<OperationReceipt>)
    requires TablesInv(t) && Managed(t, a) && t.executions[a].next == |a.operations| && |done| <= |a.operations|
    requires t.executions[a].phase.PartiallyApplied? && NotBefore(now, t.executions[a].updatedAt)
    ensures LoadReceipts(t, a, now, done).Ok?
    decreases |a.operations| - |done|
  {
    var i := |done|;
    if i < |a.operations| {
      assert RowInv(t, a);
      assert DoneRow(t, t.executions[a], i);
      LoadReceiptsNeverIncomplete(t, a, now, done + [t.receipts[OperationAt(a, i)]]);
    }
  }

  lemma FinalizeSucceedsExactly(t: Tables, ctx: Context, now: Stamp, guards: Guards)
    requires var a := ctx.application;
      TablesInv(t) && Managed(t, a) && t.executions[a].phase.PartiallyApplied? && t.executions[a].next == |a.operations|
    ensures var a := ctx.application; var s := t.executions[a];
      Finalize(t, ctx, s, now, guards).Ok? <==>
        && guards == Guards(None, None)
        && NotBefore(now, s.updatedAt)
        && s.anchor == ctx.Anchor()
        && a !in t.applicationReceipts
  {
    var a := ctx.application;
    var s := t.executions[a];
    assert RowInv(t, a);
    assert [s.startedAt, s.updatedAt][1] == s.updatedAt;
    if NotBefore(now, s.updatedAt) {
      LoadReceiptsNeverIncomplete(t, a, now, []);
      LoadReceiptsLoadsAll(t, a, now, []);
      var receipts := LoadReceipts(t, a, now, []).value;
      forall i, j | 0 <= i < j < |receipts|
        ensures RefsOf(receipts)[i] != RefsOf(receipts)[j]
      {
        assert LoadedAt(t, a, now, receipts, i) && LoadedAt(t, a, now, receipts, j);
      }
      assert NoDuplicates(RefsOf(receipts)) && receipts != [];
    }
  }
}
