/** The invariant of one managed application over all four tables, and how every step keeps it. */
module ManagedRows {
  import opened Outcomes
  import opened WriteOperations
  import opened ExecutionRecords
  import opened ExecutionTables
  import opened GenericCalls

  predicate Managed(t: Tables, a: ApplicationId) {
    a in t.executions && t.executions[a].managed
  }

  /** Every row is stored under the key that its own fields determine. */
  ghost predicate Keyed(t: Tables) {
    && (forall a :: a in t.executions ==> t.executions[a].application == a)
    && (forall o :: o in t.attempts ==> t.attempts[o].Id() == o)
    && (forall o :: o in t.receipts ==> t.receipts[o].Id() == o)
    && (forall a :: a in t.applicationReceipts ==> t.applicationReceipts[a].application == a)
  }

  /** All rows of one application agree in two table sets. */
  ghost predicate SameRows(t: Tables, u: Tables, a: ApplicationId) {
    && SameAt(t.executions, u.executions, a)
    && SameAt(t.applicationReceipts, u.applicationReceipts, a)
    && (forall o: OperationId :: o.application == a ==> SameAt(t.attempts, u.attempts, o))
    && (forall o: OperationId :: o.application == a ==> SameAt(t.receipts, u.receipts, o))
  }

  ghost predicate SameAt<K(!new), V(!new)>(m: map<K, V>, n: map<K, V>, k: K) {
    (k in m <==> k in n) && (k in m ==> m[k] == n[k])
  }

  /** What the rows below the next index hold: the operation ran, and its receipt is the one referenced. */
  ghost predicate DoneRow(t: Tables, s: ExecutionState, k: nat)
    requires k < |s.application.operations| && k < |s.refs|
  {
    var id := OperationAt(s.application, k);
    && s.refs[k] == ReceiptId(id)
    && id in t.receipts && t.receipts[id].Id() == id
    && id in t.attempts && t.attempts[id].Id() == id && t.attempts[id].phase.Applied?
  }

  /** The attempt row at the next index follows the application's phase. */
  ghost predicate CurrentRow(t: Tables, s: ExecutionState)
    requires s.next <= |s.application.operations|
  {
    match s.phase
    case Pending => s.next == 0 && s.owner.None? && s.attempt.None? && s.recovery.None? && s.completedAt.None?
    case PartiallyApplied => s.next > 0 && s.owner.None? && s.attempt.None? && s.recovery.None? && s.completedAt.None?
    case Applying =>
      && s.owner.Some? && s.recovery.None? && s.completedAt.None?
      && AttemptAt(t, s, Applying) && s.attempt == Some(OperationAt(s.application, s.next))
    case Applied =>
      && s.next == |s.application.operations| > 0 && s.owner.None? && s.attempt.None?
      && s.completedAt == Some(s.updatedAt)
      && s.application in t.applicationReceipts
      && FinalReceipt(t, s, t.applicationReceipts[s.application])
    case _ =>
      && s.owner.None? && s.recovery.Some? && s.completedAt.None?
      && AttemptAt(t, s, s.phase) && s.attempt == Some(OperationAt(s.application, s.next))
      && t.attempts[OperationAt(s.application, s.next)].failure == s.recovery
  }

  ghost predicate AttemptAt(t: Tables, s: ExecutionState, phase: Phase) {
    && s.next < |s.application.operations|
    && var id := OperationAt(s.application, s.next);
    id in t.attempts && t.attempts[id].Id() == id && t.attempts[id].phase == phase
  }

  /** The application receipt refers to exactly the stored receipts, in operation order. */
  ghost predicate FinalReceipt(t: Tables, s: ExecutionState, r: ApplicationReceipt) {
    var a := s.application;
    && r.application == a && r.operationSet == a.operations && |r.refs| == |a.operations|
    && Some(r.completedAt) == s.completedAt
    && forall k :: 0 <= k < |a.operations| ==>
         OperationAt(a, k) in t.receipts && r.refs[k] == RefOf(t.receipts[OperationAt(a, k)])
  }

  /** Clocks: in a run that has not been settled, `updatedAt` is no earlier than the start and than
      any receipt completed so far. */
  ghost predicate ClockRow(t: Tables, s: ExecutionState)
    requires s.next <= |s.application.operations|
  {
    s.phase in {Applying, PartiallyApplied, Applied} ==>
      && s.startedAt.At? && s.updatedAt.At? && s.startedAt.time <= s.updatedAt.time
      && forall k :: 0 <= k < s.next && OperationAt(s.application, k) in t.receipts ==>
           var done := t.receipts[OperationAt(s.application, k)];
           done.startedAt.At? && done.completedAt.At? && done.completedAt.time <= s.updatedAt.time
  }

  /** The row invariant. */
  ghost predicate RowInv(t: Tables, a: ApplicationId)
    requires a in t.executions
  {
    var s := t.executions[a];
    && s.application == a && s.managed
    && s.next == |s.refs| && s.next <= |a.operations|
    && (forall k :: 0 <= k < s.next ==> DoneRow(t, s, k))
    && CurrentRow(t, s)
    && ClockRow(t, s)
  }

  ghost predicate TablesInv(t: Tables) {
    Keyed(t) && forall a :: Managed(t, a) ==> RowInv(t, a)
  }

  /** A managed row is always one that the record's constructor accepts. */
  lemma ManagedRowsAreConstructed(t: Tables, a: ApplicationId)
    requires TablesInv(t) && Managed(t, a)
    ensures t.executions[a].Constructed()
  {
    var s := t.executions[a];
    assert RowInv(t, a);
    forall i, j | 0 <= i < j < |s.refs|
      ensures s.refs[i] != s.refs[j]
    {
      assert DoneRow(t, s, i) && DoneRow(t, s, j);
    }
  }

  /** The rows of an application that had none when it was created: nothing is stored beyond what
      the row invariant accounts for. */
  ghost predicate NoStrayRows(t: Tables, a: ApplicationId)
    requires a in t.executions
  {
    var s := t.executions[a];
    && (forall o :: o in t.receipts && o.application == a ==> o.index < s.next && IsOperation(o))
    && (forall o :: o in t.attempts && o.application == a ==> IsOperation(o) && AttemptExpected(s, o.index))
    && (a in t.applicationReceipts <==> s.phase.Applied?)
  }

  /** Attempt rows exist below the next index, and at it once it has been claimed. */
  predicate AttemptExpected(s: ExecutionState, index: nat) {
    index < s.next || (index == s.next && !s.phase.Pending? && !s.phase.PartiallyApplied?)
  }

  predicate IsOperation(o: OperationId) {
    o.index < |o.application.operations| && o.operation == o.application.operations[o.index]
  }

  /** No attempt, receipt or application receipt row of the application is stored. */
  ghost predicate NoRows(t: Tables, a: ApplicationId) {
    && a !in t.executions && a !in t.applicationReceipts
    && (forall o :: o in t.attempts ==> o.application != a)
    && (forall o :: o in t.receipts ==> o.application != a)
  }

  // ---- frames ----

  lemma RowInvFrame(t: Tables, u: Tables, a: ApplicationId)
    requires Managed(t, a) && RowInv(t, a) && SameRows(t, u, a)
    ensures Managed(u, a) && RowInv(u, a)
    ensures NoStrayRows(t, a) ==> NoStrayRows(u, a)
  {
    var s := t.executions[a];
    assert u.executions[a] == s;
    forall k | 0 <= k < s.next
      ensures DoneRow(u, s, k)
    {
      assert DoneRow(t, s, k);
      assert SameAt(t.receipts, u.receipts, OperationAt(a, k));
      assert SameAt(t.attempts, u.attempts, OperationAt(a, k));
    }
    if s.next < |a.operations| {
      assert SameAt(t.attempts, u.attempts, OperationAt(a, s.next));
    }
    forall k | 0 <= k < |a.operations|
      ensures SameAt(t.receipts, u.receipts, OperationAt(a, k))
    {
    }
    assert SameAt(t.applicationReceipts, u.applicationReceipts, a);
    if NoStrayRows(t, a) {
      forall o | o in u.receipts && o.application == a
        ensures o.index < s.next && IsOperation(o)
      {
        assert SameAt(t.receipts, u.receipts, o);
      }
      forall o | o in u.attempts && o.application == a
        ensures o in t.attempts
      {
        assert SameAt(t.attempts, u.attempts, o);
      }
    }
  }

  /** Once the row of `a` is known to be good, the invariant follows from every other row being kept. */
  lemma TablesInvFrame(t: Tables, u: Tables, a: ApplicationId)
    requires TablesInv(t) && Keyed(u)
    requires forall b :: b != a ==> SameRows(t, u, b)
    requires Managed(u, a) ==> RowInv(u, a)
    ensures TablesInv(u)
  {
    forall b | Managed(u, b)
      ensures RowInv(u, b)
    {
      if b != a {
        assert SameRows(t, u, b);
        assert SameAt(t.executions, u.executions, b);
        RowInvFrame(t, u, b);
      }
    }
  }

  /** `u` differs from `t` at most in rows of `a`, whose new execution row is `s`. */
  ghost predicate Writes(t: Tables, u: Tables, a: ApplicationId, s: ExecutionState) {
    && s.application == a
    && u.executions == t.executions[a := s]
    && (forall b :: b != a ==> SameAt(t.applicationReceipts, u.applicationReceipts, b))
    && (forall o: OperationId :: o.application != a ==> SameAt(t.attempts, u.attempts, o))
    && (forall o: OperationId :: o.application != a ==> SameAt(t.receipts, u.receipts, o))
  }

  lemma WritesFrame(t: Tables, u: Tables, a: ApplicationId, s: ExecutionState)
    requires Writes(t, u, a, s)
    ensures forall b :: b != a ==> SameRows(t, u, b)
  {
  }

  // ---- the managed steps ----

  predicate ClaimedState(s: ExecutionState, s': ExecutionState, owner: string, now: Stamp) {
    && (s.phase.Pending? || s.phase.PartiallyApplied?) && s.owner.None? && s.attempt.None?
    && s.next < |s.application.operations| && NotBefore(now, s.startedAt) && NotBefore(now, s.updatedAt)
    && owner != ""
    && s' == s.(phase := Applying, owner := Some(owner), attempt := Some(OperationAt(s.application, s.next)), updatedAt := now)
  }

  predicate CompletedState(s: ExecutionState, s': ExecutionState, now: Stamp) {
    && s.phase.Applying? && s.next < |s.application.operations| && NotBefore(now, s.updatedAt)
    && s' == s.(phase := PartiallyApplied, next := s.next + 1,
                refs := s.refs + [ReceiptId(OperationAt(s.application, s.next))],
                owner := None, attempt := None, updatedAt := now)
  }

  predicate SettledState(s: ExecutionState, s': ExecutionState, target: Phase, code: string, now: Stamp) {
    && s.phase.Applying? && s.next < |s.application.operations| && target in {Failed, Blocked, OutcomeUnknown}
    && s' == s.(phase := target, owner := None, recovery := Some(code), updatedAt := now)
  }

  predicate FinalizedState(s: ExecutionState, s': ExecutionState, now: Stamp) {
    && s.phase.PartiallyApplied? && s.next == |s.application.operations| && NotBefore(now, s.updatedAt)
    && s' == s.(phase := Applied, completedAt := Some(now), updatedAt := now)
  }

  /** Finished rows survive a step that keeps the receipts and every attempt below the next index. */
  lemma DoneRowsKept(t: Tables, u: Tables, p: ExecutionState, s: ExecutionState)
    requires s.application == p.application && s.refs == p.refs && s.next == p.next == |p.refs| <= |p.application.operations|
    requires forall k :: 0 <= k < p.next ==> DoneRow(t, p, k)
    requires u.receipts == t.receipts
    requires forall k :: 0 <= k < p.next ==> SameAt(t.attempts, u.attempts, OperationAt(p.application, k))
    ensures forall k :: 0 <= k < s.next ==> DoneRow(u, s, k)
  {
    forall k | 0 <= k < s.next
      ensures DoneRow(u, s, k)
    {
      assert DoneRow(t, p, k);
      assert SameAt(t.attempts, u.attempts, OperationAt(p.application, k));
    }
  }

  lemma CreateKeeps(t: Tables, s: ExecutionState, guards: Guards)
    requires TablesInv(t) && s.managed && Create(t, s, guards).Ok?
    ensures var c := Create(t, s, guards).value;
      && TablesInv(c.tables) && Managed(c.tables, s.application) && c.tables.executions[s.application] == c.state
      && c.state.anchor == s.anchor
      && (s.application in t.executions ==> c.tables == t)
      && (s.application !in t.executions ==> c.state == s && c.state.next == 0 && c.state.phase.Pending?)
      && (forall b :: b != s.application ==> SameRows(t, c.tables, b))
      && (NoRows(t, s.application) ==> NoStrayRows(c.tables, s.application))
  {
    hide SameRows;
    var c := Create(t, s, guards).value;
    forall b ensures SameRows(t, t, b) { SameRowsItself(t, b); }
    if s.application !in t.executions {
      WritesFrame(t, c.tables, s.application, s);
      TablesInvFrame(t, c.tables, s.application);
    }
  }

  /** Claiming an operation: the attempt row is new and the execution row starts applying. */
  ghost predicate ClaimStep(t: Tables, u: Tables, a: ApplicationId, s: ExecutionState, owner: string, x: Attempt)
    requires Managed(t, a)
  {
    && (var p := t.executions[a];
      && (p.phase.Pending? || p.phase.PartiallyApplied?) && p.next < |a.operations|
      && x.Id() == OperationAt(a, p.next) && x.phase.Applying? && x.Id() !in t.attempts
      && s == p.(phase := Applying, owner := Some(owner), attempt := Some(x.Id()), updatedAt := x.updatedAt)
      && p.startedAt.At? && x.updatedAt.At? && p.startedAt.time <= x.updatedAt.time
      && p.updatedAt.At? && p.updatedAt.time <= x.updatedAt.time)
    && u == t.(attempts := t.attempts[x.Id() := x], executions := t.executions[a := s])
  }

  lemma ClaimRowInv(t: Tables, u: Tables, a: ApplicationId, s: ExecutionState, owner: string, x: Attempt)
    requires TablesInv(t) && Managed(t, a) && ClaimStep(t, u, a, s, owner, x)
    ensures Managed(u, a) && RowInv(u, a)
  {
    hide DoneRow;
    var p := t.executions[a];
    assert RowInv(t, a);
    DoneRowsKept(t, u, p, s);
  }

  lemma ClaimNoStray(t: Tables, u: Tables, a: ApplicationId, s: ExecutionState, owner: string, x: Attempt)
    requires TablesInv(t) && Managed(t, a) && ClaimStep(t, u, a, s, owner, x) && NoStrayRows(t, a)
    ensures NoStrayRows(u, a)
  {
    hide DoneRow, ClockRow;
    assert RowInv(t, a);
  }

  lemma ClaimRow(t: Tables, u: Tables, a: ApplicationId, s: ExecutionState, owner: string, x: Attempt)
    requires TablesInv(t) && Managed(t, a) && ClaimStep(t, u, a, s, owner, x)
    ensures TablesInv(u) && Managed(u, a) && (forall b :: b != a ==> SameRows(t, u, b))
    ensures NoStrayRows(t, a) ==> NoStrayRows(u, a)
  {
    hide RowInv, NoStrayRows, SameRows;
    ClaimRowInv(t, u, a, s, owner, x);
    WritesFrame(t, u, a, s);
    TablesInvFrame(t, u, a);
    if NoStrayRows(t, a) {
      ClaimNoStray(t, u, a, s, owner, x);
    }
  }

  lemma ClaimKeeps(t: Tables, ctx: Context, expected: ExecutionState, owner: string, now: Stamp, guards: Guards)
    requires TablesInv(t) && Claim(t, ctx, expected, owner, now, guards).Ok?
    ensures var a := ctx.application; var c := Claim(t, ctx, expected, owner, now, guards).value;
      && TablesInv(c.tables) && Managed(t, a) && Managed(c.tables, a)
      && t.executions[a] == expected && c.tables.executions[a] == c.state
      && (forall b :: b != a ==> SameRows(t, c.tables, b))
      && expected.next < |a.operations|
      && c.attempt.Id() == OperationAt(a, expected.next) && c.attempt.Id() !in t.attempts
      && c.state.next == expected.next && c.tables.receipts == t.receipts
      && c.tables.attempts == t.attempts[c.attempt.Id() := c.attempt]
      && ClaimedState(expected, c.state, owner, now)
      && HoldsClaim(c.state, c.attempt, c.state, c.attempt, owner)
      && c.state.anchor == ctx.Anchor() && c.attempt.provenance == ctx.provenance
      && (NoStrayRows(t, a) ==> NoStrayRows(c.tables, a))
  {
    hide NoStrayRows, SameRows, RowInv;
    var a := ctx.application;
    var c := Claim(t, ctx, expected, owner, now, guards).value;
    assert NotBefore(now, [expected.startedAt, expected.updatedAt][0]);
    assert NotBefore(now, [expected.startedAt, expected.updatedAt][1]);
    ClaimRow(t, c.tables, a, c.state, owner, c.attempt);
  }

  /** What the compare-and-swap guard of a claimed operation says under the invariant. */
  lemma ClaimedRowIsCurrent(t: Tables, ctx: Context, state: ExecutionState, attempt: Attempt, owner: string)
    requires TablesInv(t) && ClaimedRow(t, ctx, state, attempt, owner).Ok?
    ensures var a := ctx.application;
      && Managed(t, a) && t.executions[a] == state && state.phase.Applying? && state.next < |a.operations|
      && attempt.Id() == OperationAt(a, state.next) && attempt.Id() in t.attempts && t.attempts[attempt.Id()] == attempt
  {
    assert RowInv(t, ctx.application);
  }

  /** Completing an operation: its receipt is new, its attempt is done, and the next index moves on. */
  ghost predicate CompleteStep(t: Tables, u: Tables, a: ApplicationId, s: ExecutionState, x: Attempt,
                               r: OperationReceipt)
    requires Managed(t, a)
  {
    && (var p := t.executions[a];
      && p.phase.Applying? && p.next < |a.operations| && r.Id() == x.Id() == OperationAt(a, p.next)
      && x.phase.Applied? && r.Id() !in t.receipts
      && s == p.(phase := PartiallyApplied, next := p.next + 1, refs := p.refs + [ReceiptId(r.Id())],
                 owner := None, attempt := None, updatedAt := x.updatedAt)
      && x.updatedAt.At? && p.updatedAt.At? && p.updatedAt.time <= x.updatedAt.time
      && r.startedAt.At? && r.completedAt.At? && r.completedAt.time <= x.updatedAt.time)
    && u == t.(receipts := t.receipts[r.Id() := r], attempts := t.attempts[x.Id() := x],
                     executions := t.executions[a := s])
  }

  lemma CompleteRowInv(t: Tables, u: Tables, a: ApplicationId, s: ExecutionState, x: Attempt, r: OperationReceipt)
    requires TablesInv(t) && Managed(t, a) && CompleteStep(t, u, a, s, x, r)
    ensures Managed(u, a) && RowInv(u, a)
  {
    hide DoneRow;
    var p := t.executions[a];
    assert RowInv(t, a);
    CompleteDoneRows(t, u, p, s, x, r);
    CompleteClock(t, u, p, s, r);
  }

  lemma CompleteNoStray(t: Tables, u: Tables, a: ApplicationId, s: ExecutionState, x: Attempt, r: OperationReceipt)
    requires TablesInv(t) && Managed(t, a) && CompleteStep(t, u, a, s, x, r) && NoStrayRows(t, a)
    ensures NoStrayRows(u, a)
  {
    hide DoneRow, ClockRow;
    assert RowInv(t, a);
  }

  lemma CompleteRow(t: Tables, u: Tables, a: ApplicationId, s: ExecutionState, x: Attempt, r: OperationReceipt)
    requires TablesInv(t) && Managed(t, a) && CompleteStep(t, u, a, s, x, r)
    ensures TablesInv(u) && Managed(u, a) && (forall b :: b != a ==> SameRows(t, u, b))
    ensures NoStrayRows(t, a) ==> NoStrayRows(u, a)
  {
    hide RowInv, NoStrayRows, SameRows;
    CompleteRowInv(t, u, a, s, x, r);
    WritesFrame(t, u, a, s);
    TablesInvFrame(t, u, a);
    if NoStrayRows(t, a) {
      CompleteNoStray(t, u, a, s, x, r);
    }
  }

  lemma CompleteDoneRows(t: Tables, u: Tables, p: ExecutionState, s: ExecutionState, x: Attempt, r: OperationReceipt)
    requires p.application == s.application && p.next < |p.application.operations| && p.next == |p.refs|
    requires forall k :: 0 <= k < p.next ==> DoneRow(t, p, k)
    requires r.Id() == x.Id() == OperationAt(p.application, p.next) && x.phase.Applied?
    requires s.refs == p.refs + [ReceiptId(r.Id())] && s.next == p.next + 1
    requires u.receipts == t.receipts[r.Id() := r] && u.attempts == t.attempts[x.Id() := x]
    ensures forall k :: 0 <= k < s.next ==> DoneRow(u, s, k)
  {
    forall k | 0 <= k < s.next
      ensures DoneRow(u, s, k)
    {
      if k < p.next {
        assert DoneRow(t, p, k);
      }
    }
  }

  lemma CompleteClock(t: Tables, u: Tables, p: ExecutionState, s: ExecutionState, r: OperationReceipt)
    requires p.application == s.application && p.next < |p.application.operations| && s.next == p.next + 1
    requires ClockRow(t, p) && p.phase.Applying? && s.startedAt == p.startedAt
    requires r.Id() == OperationAt(p.application, p.next) && u.receipts == t.receipts[r.Id() := r]
    requires p.updatedAt.At? && s.updatedAt.At? && p.updatedAt.time <= s.updatedAt.time
    requires r.startedAt.At? && r.completedAt.At? && r.completedAt.time <= s.updatedAt.time
    ensures ClockRow(u, s)
  {
  }

  lemma CompleteKeeps(t: Tables, ctx: Context, state: ExecutionState, attempt: Attempt, owner: string,
                      receipt: OperationReceipt, now: Stamp, guards: Guards)
    requires TablesInv(t) && Complete(t, ctx, state, attempt, owner, receipt, now, guards).Ok?
    ensures var a := ctx.application; var c := Complete(t, ctx, state, attempt, owner, receipt, now, guards).value;
      && TablesInv(c.tables) && Managed(t, a) && Managed(c.tables, a)
      && t.executions[a] == state && c.tables.executions[a] == c.state
      && (forall b :: b != a ==> SameRows(t, c.tables, b))
      && CompletedState(state, c.state, now)
      && receipt.Id() == OperationAt(a, state.next) && receipt.Id() !in t.receipts
      && c.tables.receipts == t.receipts[receipt.Id() := receipt]
      && (NoStrayRows(t, a) ==> NoStrayRows(c.tables, a))
  {
    hide NoStrayRows, SameRows, DoneRow, ClockRow;
    var a := ctx.application;
    var c := Complete(t, ctx, state, attempt, owner, receipt, now, guards).value;
    ClaimedRowIsCurrent(t, ctx, state, attempt, owner);
    assert RowInv(t, a);
    var prior := [state.startedAt, state.updatedAt, attempt.startedAt, attempt.updatedAt];
    assert NotBefore(now, prior[1]);
    var ends := [receipt.startedAt, receipt.completedAt];
    assert NotBefore(now, ends[0]) && NotBefore(now, ends[1]);
    CompleteRow(t, c.tables, a, c.state, attempt.(phase := Applied, updatedAt := now), receipt);
  }

  /** Settling an operation: attempt and application end in the same phase with the same code. */
  ghost predicate SettleStep(t: Tables, u: Tables, a: ApplicationId, s: ExecutionState, x: Attempt, code: string)
    requires Managed(t, a)
  {
    && (var p := t.executions[a];
      && p.phase.Applying? && p.next < |a.operations| && x.Id() == OperationAt(a, p.next)
      && x.phase in {Failed, Blocked, OutcomeUnknown} && x.failure == Some(code)
      && s == p.(phase := x.phase, owner := None, recovery := Some(code), updatedAt := x.updatedAt))
    && u == t.(attempts := t.attempts[x.Id() := x], executions := t.executions[a := s])
  }

  lemma SettleRowInv(t: Tables, u: Tables, a: ApplicationId, s: ExecutionState, x: Attempt, code: string)
    requires TablesInv(t) && Managed(t, a) && SettleStep(t, u, a, s, x, code)
    ensures Managed(u, a) && RowInv(u, a)
  {
    hide DoneRow;
    var p := t.executions[a];
    assert RowInv(t, a);
    DoneRowsKept(t, u, p, s);
  }

  lemma SettleNoStray(t: Tables, u: Tables, a: ApplicationId, s: ExecutionState, x: Attempt, code: string)
    requires TablesInv(t) && Managed(t, a) && SettleStep(t, u, a, s, x, code) && NoStrayRows(t, a)
    ensures NoStrayRows(u, a)
  {
    hide DoneRow, ClockRow;
    assert RowInv(t, a);
  }

  lemma SettleRow(t: Tables, u: Tables, a: ApplicationId, s: ExecutionState, x: Attempt, code: string)
    requires TablesInv(t) && Managed(t, a) && SettleStep(t, u, a, s, x, code)
    ensures TablesInv(u) && Managed(u, a) && (forall b :: b != a ==> SameRows(t, u, b))
    ensures NoStrayRows(t, a) ==> NoStrayRows(u, a)
  {
    hide RowInv, NoStrayRows, SameRows;
    SettleRowInv(t, u, a, s, x, code);
    WritesFrame(t, u, a, s);
    TablesInvFrame(t, u, a);
    if NoStrayRows(t, a) {
      SettleNoStray(t, u, a, s, x, code);
    }
  }

  lemma SettleKeeps(t: Tables, ctx: Context, state: ExecutionState, attempt: Attempt, owner: string,
                    target: Phase, code: string, now: Stamp, guards: Guards)
    requires TablesInv(t) && Settle(t, ctx, state, attempt, owner, target, code, now, guards).Ok?
    ensures var a := ctx.application; var c := Settle(t, ctx, state, attempt, owner, target, code, now, guards).value;
      && TablesInv(c.tables) && Managed(t, a) && Managed(c.tables, a)
      && t.executions[a] == state && c.tables.executions[a] == c.state
      && (forall b :: b != a ==> SameRows(t, c.tables, b))
      && SettledState(state, c.state, target, code, now) && c.tables.receipts == t.receipts
      && (NoStrayRows(t, a) ==> NoStrayRows(c.tables, a))
  {
    var c := Settle(t, ctx, state, attempt, owner, target, code, now, guards).value;
    ClaimedRowIsCurrent(t, ctx, state, attempt, owner);
    SettleRow(t, c.tables, ctx.application, c.state, attempt.(phase := target, updatedAt := now, failure := Some(code)), code);
  }

  /** What loading the receipts for finalisation returns: all of them, in order. */
  lemma {:induction false} LoadReceiptsLoadsAll(t: Tables, a: ApplicationId, now: Stamp, done: seq<OperationReceipt>)
    requires |done| <= |a.operations| && LoadReceipts(t, a, now, done).Ok?
    requires forall k :: 0 <= k < |done| ==> LoadedAt(t, a, now, done, k)
    ensures var r := LoadReceipts(t, a, now, done).value;
      |r| == |a.operations| && forall k :: 0 <= k < |r| ==> LoadedAt(t, a, now, r, k)
    decreases |a.operations| - |done|
  {
    var i := |done|;
    if i < |a.operations| {
      var more := done + [t.receipts[OperationAt(a, i)]];
      assert NotBefore(now, [more[i].completedAt][0]);
      forall k | 0 <= k < |more|
        ensures LoadedAt(t, a, now, more, k)
      {
        assert k < i ==> LoadedAt(t, a, now, done, k);
      }
      LoadReceiptsLoadsAll(t, a, now, more);
    }
  }

  ghost predicate LoadedAt(t: Tables, a: ApplicationId, now: Stamp, loaded: seq<OperationReceipt>, k: nat)
    requires k < |loaded| <= |a.operations|
  {
    && OperationAt(a, k) in t.receipts && loaded[k] == t.receipts[OperationAt(a, k)]
    && NotBefore(now, loaded[k].completedAt)
  }

  /** Finalising: the application receipt is new and refers to every stored receipt. */
  ghost predicate FinalizeStep(t: Tables, u: Tables, a: ApplicationId, s: ExecutionState, r: ApplicationReceipt)
    requires Managed(t, a)
  {
    && (var p := t.executions[a];
      && p.phase.PartiallyApplied? && p.next == |a.operations|
      && s == p.(phase := Applied, completedAt := Some(r.completedAt), updatedAt := r.completedAt)
      && r.completedAt.At? && p.updatedAt.At? && p.updatedAt.time <= r.completedAt.time)
    && FinalReceipt(t, s, r)
    && u == t.(applicationReceipts := t.applicationReceipts[a := r], executions := t.executions[a := s])
  }

  lemma FinalizeRowInv(t: Tables, u: Tables, a: ApplicationId, s: ExecutionState, r: ApplicationReceipt)
    requires TablesInv(t) && Managed(t, a) && FinalizeStep(t, u, a, s, r)
    ensures Managed(u, a) && RowInv(u, a)
  {
    hide DoneRow;
    var p := t.executions[a];
    assert RowInv(t, a);
    DoneRowsKept(t, u, p, s);
  }

  lemma FinalizeNoStray(t: Tables, u: Tables, a: ApplicationId, s: ExecutionState, r: ApplicationReceipt)
    requires TablesInv(t) && Managed(t, a) && FinalizeStep(t, u, a, s, r) && NoStrayRows(t, a)
    ensures NoStrayRows(u, a)
  {
    hide DoneRow, ClockRow;
    assert RowInv(t, a);
  }

  lemma FinalizeRow(t: Tables, u: Tables, a: ApplicationId, s: ExecutionState, r: ApplicationReceipt)
    requires TablesInv(t) && Managed(t, a) && FinalizeStep(t, u, a, s, r)
    ensures TablesInv(u) && Managed(u, a) && (forall b :: b != a ==> SameRows(t, u, b))
    ensures NoStrayRows(t, a) ==> NoStrayRows(u, a)
  {
    hide RowInv, NoStrayRows, SameRows;
    FinalizeRowInv(t, u, a, s, r);
    WritesFrame(t, u, a, s);
    TablesInvFrame(t, u, a);
    if NoStrayRows(t, a) {
      FinalizeNoStray(t, u, a, s, r);
    }
  }

  lemma FinalizeKeeps(t: Tables, ctx: Context, state: ExecutionState, now: Stamp, guards: Guards)
    requires TablesInv(t) && Finalize(t, ctx, state, now, guards).Ok?
    ensures var a := ctx.application; var c := Finalize(t, ctx, state, now, guards).value;
      && TablesInv(c.tables) && Managed(t, a) && Managed(c.tables, a)
      && t.executions[a] == state && c.tables.executions[a] == c.state && c.state.phase.Applied?
      && (forall b :: b != a ==> SameRows(t, c.tables, b))
      && FinalizedState(state, c.state, now)
      && c.tables.receipts == t.receipts && c.tables.attempts == t.attempts
      && (NoStrayRows(t, a) ==> NoStrayRows(c.tables, a))
  {
    hide NoStrayRows, SameRows, RowInv, DoneRow;
    var a := ctx.application;
    var c := Finalize(t, ctx, state, now, guards).value;
    LoadReceiptsLoadsAll(t, a, now, []);
    var receipts := LoadReceipts(t, a, now, []).value;
    var prior := [state.startedAt, state.updatedAt];
    assert NotBefore(now, prior[0]) && NotBefore(now, prior[1]);
    forall k | 0 <= k < |a.operations|
      ensures OperationAt(a, k) in t.receipts && RefsOf(receipts)[k] == RefOf(t.receipts[OperationAt(a, k)])
    {
      assert LoadedAt(t, a, now, receipts, k);
    }
    FinalizeRow(t, c.tables, a, c.state, ApplicationReceipt(a, a.operations, RefsOf(receipts), now, now));
  }

  // ---- the generic calls ----

  /** What a successful generic call writes: at most one row, of its own unmanaged application. */
  ghost predicate WritesOneRow(t: Tables, u: Tables, a: ApplicationId) {
    || u == t
    || (exists s: ExecutionState :: s.application == a && !s.managed && u == t.(executions := t.executions[a := s]))
    || (exists x: Attempt :: x.application == a && u == t.(attempts := t.attempts[x.Id() := x]))
    || (exists r: OperationReceipt :: r.application == a && u == t.(receipts := t.receipts[r.Id() := r]))
    || (exists r: ApplicationReceipt ::
          r.application == a && u == t.(applicationReceipts := t.applicationReceipts[a := r]))
  }

  lemma SaveExecutionWrites(t: Tables, s: ExecutionState, refusal: Option<string>)
    requires PerformSaveExecution(t, s, refusal).Ok? && !s.managed
    ensures WritesOneRow(t, PerformSaveExecution(t, s, refusal).value, s.application)
  {
  }

  lemma TransitionExecutionWrites(t: Tables, expected: ExecutionState, s: ExecutionState, refusal: Option<string>)
    requires PerformTransitionExecution(t, expected, s, refusal).Ok? && !Managed(t, s.application)
    ensures WritesOneRow(t, PerformTransitionExecution(t, expected, s, refusal).value, s.application)
  {
  }

  lemma AttemptWrites(t: Tables, expected: Attempt, x: Attempt, refusal: Option<string>)
    ensures var r := PerformSaveAttempt(t, x, refusal); r.Ok? ==> WritesOneRow(t, r.value, x.application)
    ensures var r := PerformTransitionAttempt(t, expected, x, refusal); r.Ok? ==> WritesOneRow(t, r.value, x.application)
  {
  }

  lemma GenericWrites(t: Tables, call: GenericCall, orchestrated: bool, refusal: Option<string>)
    requires Perform(t, call, orchestrated, refusal).Ok?
    ensures !Managed(t, call.Application())
    ensures WritesOneRow(t, Perform(t, call, orchestrated, refusal).value, call.Application())
  {
    hide SameAttemptBinding, PerformTransitionExecution, PerformTransitionAttempt, PerformSaveExecution, PerformSaveAttempt;
    match call
    case SaveExecution(s) => SaveExecutionWrites(t, s, refusal);
    case SaveAttempt(x) => AttemptWrites(t, x, x, refusal);
    case CreateAttemptIfAbsent(x) =>
    case TransitionAttempt(e, x) => AttemptWrites(t, e, x, refusal);
    case TransitionExecution(e, s) => TransitionExecutionWrites(t, e, s, refusal);
    case RecordOperationReceipt(r) =>
    case RecordApplicationReceipt(r) =>
  }

  ghost predicate OnlyRowsOf(t: Tables, u: Tables, a: ApplicationId) {
    Keyed(u) && !Managed(u, a) && forall b :: b != a ==> SameRows(t, u, b)
  }

  lemma ExecutionWrite(t: Tables, s: ExecutionState)
    requires Keyed(t) && !s.managed
    ensures OnlyRowsOf(t, t.(executions := t.executions[s.application := s]), s.application)
  {
  }

  lemma AttemptWrite(t: Tables, x: Attempt)
    requires Keyed(t) && !Managed(t, x.application)
    ensures OnlyRowsOf(t, t.(attempts := t.attempts[x.Id() := x]), x.application)
  {
  }

  lemma ReceiptWrite(t: Tables, r: OperationReceipt)
    requires Keyed(t) && !Managed(t, r.application)
    ensures OnlyRowsOf(t, t.(receipts := t.receipts[r.Id() := r]), r.application)
  {
  }

  lemma ApplicationReceiptWrite(t: Tables, r: ApplicationReceipt)
    requires Keyed(t) && !Managed(t, r.application)
    ensures OnlyRowsOf(t, t.(applicationReceipts := t.applicationReceipts[r.application := r]), r.application)
  {
  }

  lemma NothingWritten(t: Tables, a: ApplicationId)
    requires Keyed(t) && !Managed(t, a)
    ensures OnlyRowsOf(t, t, a)
  {
  }

  lemma OneRowFrame(t: Tables, u: Tables, a: ApplicationId)
    requires Keyed(t) && WritesOneRow(t, u, a) && !Managed(t, a)
    ensures OnlyRowsOf(t, u, a)
  {
    hide OnlyRowsOf, Keyed, Managed;
    if u == t {
      NothingWritten(t, a);
    } else if s: ExecutionState :| s.application == a && !s.managed && u == t.(executions := t.executions[a := s]) {
      ExecutionWrite(t, s);
    } else if x: Attempt :| x.application == a && u == t.(attempts := t.attempts[x.Id() := x]) {
      AttemptWrite(t, x);
    } else if r: OperationReceipt :| r.application == a && u == t.(receipts := t.receipts[r.Id() := r]) {
      ReceiptWrite(t, r);
    } else {
      var r: ApplicationReceipt :| r.application == a && u == t.(applicationReceipts := t.applicationReceipts[a := r]);
      ApplicationReceiptWrite(t, r);
    }
  }

  /** No generic call, from whatever store instance, touches a row of a managed application, makes a
      managed row, or turns an unmanaged row into a managed one. */
  lemma GenericNonInterference(t: Tables, call: GenericCall, orchestrated: bool, refusal: Option<string>)
    requires Keyed(t) && Perform(t, call, orchestrated, refusal).Ok?
    ensures var u := Perform(t, call, orchestrated, refusal).value;
      && Keyed(u)
      && (forall a :: Managed(u, a) <==> Managed(t, a))
      && (forall a :: a != call.Application() ==> SameRows(t, u, a))
      && (forall a :: Managed(t, a) ==> SameRows(t, u, a))
  {
    var u := Perform(t, call, orchestrated, refusal).value;
    GenericWrites(t, call, orchestrated, refusal);
    OneRowFrame(t, u, call.Application());
    forall a
      ensures Managed(u, a) <==> Managed(t, a)
    {
      if a != call.Application() {
        assert SameRows(t, u, a);
        assert SameAt(t.executions, u.executions, a);
      }
    }
  }

  lemma GenericKeeps(t: Tables, call: GenericCall, orchestrated: bool, refusal: Option<string>)
    requires TablesInv(t) && Perform(t, call, orchestrated, refusal).Ok?
    ensures TablesInv(Perform(t, call, orchestrated, refusal).value)
  {
    var u := Perform(t, call, orchestrated, refusal).value;
    GenericNonInterference(t, call, orchestrated, refusal);
    forall b | Managed(u, b)
      ensures RowInv(u, b)
    {
      RowInvFrame(t, u, b);
    }
  }

  datatype GenericStep = GenericStep(call: GenericCall, orchestrated: bool, refusal: Option<string>)

  /** The tables after one generic call; a call that raises changes nothing. */
  function PerformOne(t: Tables, step: GenericStep): Tables {
    var r := Perform(t, step.call, step.orchestrated, step.refusal);
    if r.Ok? then r.value else t
  }

  function PerformAll(t: Tables, steps: seq<GenericStep>): Tables
    decreases |steps|
  {
    if steps == [] then t else PerformAll(PerformOne(t, steps[0]), steps[1..])
  }

  /** Non-interference over every sequence of generic calls. */
  lemma {:induction false} GenericCallsNeverInterfere(t: Tables, steps: seq<GenericStep>, a: ApplicationId)
    requires Keyed(t)
    ensures Keyed(PerformAll(t, steps))
    ensures Managed(PerformAll(t, steps), a) <==> Managed(t, a)
    ensures Managed(t, a) ==> SameRows(t, PerformAll(t, steps), a)
    decreases |steps|
  {
    hide SameRows, Perform, Keyed;
    SameRowsItself(t, a);
    if steps != [] {
      var step := steps[0];
      if Perform(t, step.call, step.orchestrated, step.refusal).Ok? {
        GenericNonInterference(t, step.call, step.orchestrated, step.refusal);
      }
      var u := PerformOne(t, step);
      GenericCallsNeverInterfere(u, steps[1..], a);
      if Managed(t, a) {
        SameRowsTransitive(t, u, PerformAll(u, steps[1..]), a);
      }
    }
  }

  lemma SameRowsItself(t: Tables, a: ApplicationId)
    ensures SameRows(t, t, a)
  {
  }

  lemma SameRowsTransitive(t: Tables, u: Tables, v: Tables, a: ApplicationId)
    requires SameRows(t, u, a) && SameRows(u, v, a)
    ensures SameRows(t, v, a)
  {
    forall o: OperationId | o.application == a
      ensures SameAt(t.attempts, v.attempts, o) && SameAt(t.receipts, v.receipts, o)
    {
      assert SameAt(t.attempts, u.attempts, o) && SameAt(t.receipts, u.receipts, o);
    }
  }
}
