/** Authority-binding stores: one abstract map of bindings, and the in-memory and SQLite stores that
    keep it together with an index from operations to bindings.
    The canonical bytes of a record are modelled by the record. */
module AuthorityBindings {
  import opened Outcomes
  import opened Characters

  datatype Signed = Signed(workspace: string, issuance: string, operations: seq<string>, content: string,
                           issuer: string, key: string, algorithm: string, proof: string)

  const ALGORITHM := "ed25519"

  function Operations(b: Signed): set<string> {
    set i | 0 <= i < |b.operations| :: b.operations[i]
  }

  function Refusal(code: string): Error {
    ValueError("authority_binding_persistence_" + code)
  }

  predicate Hex(s: string) {
    forall i :: 0 <= i < |s| ==> IsDigit(s[i]) || 'a' <= s[i] <= 'f'
  }

  predicate Identity(s: string, prefix: string) {
    prefix <= s && |s| == |prefix| + 64 && Hex(s[|prefix|..])
  }

  predicate IsWorkspace(s: string) {
    s != [] && !IsSpace(s[0]) && !IsSpace(s[|s| - 1])
  }

  /** `_validated_binding`: the checks on a record read back under an issuance id. */
  function Validated(b: Signed, issuance: string, workspace: string): Result<Signed> {
    if b.workspace != workspace then Err(Refusal("workspace_mismatch"))
    else if b.issuance != issuance then Err(Refusal("issuance_id_corrupt"))
    else if b.algorithm != ALGORITHM then Err(Refusal("envelope_corrupt"))
    else Ok(b)
  }

  // ---- the abstract map ----

  type Bindings = map<string, Signed>

  /** Every binding is stored under its own issuance id and would be accepted again. */
  ghost predicate Sound(m: Bindings, workspace: string) {
    forall id :: id in m ==> Validated(m[id], id, workspace) == Ok(m[id])
  }

  /** No operation belongs to two bindings. */
  ghost predicate Disjoint(m: Bindings) {
    forall i, j :: i in m && j in m && i != j ==> Operations(m[i]) !! Operations(m[j])
  }

  predicate Overlaps(m: Bindings, b: Signed) {
    exists id :: id in m && !(Operations(m[id]) !! Operations(b))
  }

  /** Saving a binding: the map afterwards, and what the call returns or raises. */
  function Save(m: Bindings, b: Signed, workspace: string): (Bindings, Result<Signed>) {
    var candidate := Validated(b, b.issuance, workspace);
    if candidate.Err? then (m, candidate)
    else if b.issuance in m then
      (m, if m[b.issuance] == b then Ok(b) else Err(Refusal("conflict")))
    else if Overlaps(m, b) then (m, Err(Refusal("operation_conflict")))
    else (m[b.issuance := b], Ok(b))
  }

  function Load(m: Bindings, issuance: string): Option<Signed> {
    if issuance in m then Some(m[issuance]) else None
  }

  /** The binding that contains an operation, if there is one. */
  ghost predicate Resolves(m: Bindings, operation: string, r: Option<Signed>) {
    match r
    case Some(b) => b.issuance in m && m[b.issuance] == b && operation in Operations(b)
    case None => forall id :: id in m ==> operation !in Operations(m[id])
  }

  /** Resolving has one answer: a saved binding contains the operation in exactly one way. */
  lemma ResolvesOnce(m: Bindings, workspace: string, operation: string, r: Option<Signed>, r': Option<Signed>)
    requires Disjoint(m) && Sound(m, workspace) && Resolves(m, operation, r) && Resolves(m, operation, r')
    ensures r == r'
  {
  }

  function SaveAll(m: Bindings, bs: seq<Signed>, workspace: string): Bindings
    decreases |bs|
  {
    if bs == [] then m else SaveAll(Save(m, bs[0], workspace).0, bs[1..], workspace)
  }

  /** Over any sequence of saves, from a store that is in order: bindings stay disjoint, what was saved
      stays, and saving it again changes nothing and returns it. */
  lemma {:induction false} SavesStayDisjoint(m: Bindings, bs: seq<Signed>, workspace: string)
    requires Sound(m, workspace) && Disjoint(m)
    ensures var m' := SaveAll(m, bs, workspace);
      && Sound(m', workspace) && Disjoint(m')
      && (forall id :: id in m ==> id in m' && m'[id] == m[id] && Save(m', m[id], workspace) == (m', Ok(m[id])))
    decreases |bs|
  {
    if bs == [] {
      forall id | id in m
        ensures Save(m, m[id], workspace) == (m, Ok(m[id]))
      {
        assert Validated(m[id], id, workspace) == Ok(m[id]);
      }
    } else {
      SaveKeepsDisjoint(m, bs[0], workspace);
      SavesStayDisjoint(Save(m, bs[0], workspace).0, bs[1..], workspace);
    }
  }

  lemma SaveKeepsDisjoint(m: Bindings, b: Signed, workspace: string)
    requires Sound(m, workspace) && Disjoint(m)
    ensures var m' := Save(m, b, workspace).0;
      Sound(m', workspace) && Disjoint(m') && forall id :: id in m ==> id in m' && m'[id] == m[id]
  {
    hide Operations;
    var m' := Save(m, b, workspace).0;
    if m' != m {
      forall i, j | i in m' && j in m' && i != j
        ensures Operations(m'[i]) !! Operations(m'[j])
      {
        if i == b.issuance {
          assert !(!(Operations(m[j]) !! Operations(b)));
        } else if j == b.issuance {
          assert !(!(Operations(m[i]) !! Operations(b)));
        }
      }
    }
  }

  /** What any run of saves leaves stored was signed with the one algorithm for this workspace, and stands under its own
      issuance id. */
  lemma SavedAreOwn(bs: seq<Signed>, workspace: string, id: string)
    requires id in SaveAll(map[], bs, workspace)
    ensures var b := SaveAll(map[], bs, workspace)[id];
      b.workspace == workspace && b.issuance == id && b.algorithm == "ed25519"
  {
    hide SaveAll;
    SavesStayDisjoint(map[], bs, workspace);
    assert Validated(SaveAll(map[], bs, workspace)[id], id, workspace) == Ok(SaveAll(map[], bs, workspace)[id]);
  }

  /** Two bindings hold an operation in common. */
  ghost predicate Shares(b: Signed, c: Signed) {
    exists i, j :: 0 <= i < |b.operations| && 0 <= j < |c.operations| && b.operations[i] == c.operations[j]
  }

  lemma SharesExactly(b: Signed, c: Signed)
    ensures Shares(b, c) <==> !(Operations(b) !! Operations(c))
  {
    if i, j :| 0 <= i < |b.operations| && 0 <= j < |c.operations| && b.operations[i] == c.operations[j] {
      assert b.operations[i] in Operations(b) && b.operations[i] in Operations(c);
    }
    if operation :| operation in Operations(b) && operation in Operations(c) {
      var i :| 0 <= i < |b.operations| && b.operations[i] == operation;
      var j :| 0 <= j < |c.operations| && c.operations[j] == operation;
    }
  }

  /** What saving answers: a binding of another workspace or algorithm is refused, one with a used issuance id only if it
      differs from the one saved, and any other exactly if it shares an operation with a saved one. */
  lemma SaveAnswers(m: Bindings, b: Signed, workspace: string)
    ensures var (later, r) := Save(m, b, workspace);
      && (r.Ok? ==> r.value == b && later == m[b.issuance := b])
      && (r.Err? ==> later == m)
      && (b.workspace != workspace ==> r == Err(ValueError("authority_binding_persistence_" + "workspace_mismatch")))
      && (b.workspace == workspace && b.algorithm != "ed25519" ==>
            r == Err(ValueError("authority_binding_persistence_" + "envelope_corrupt")))
      && (b.workspace == workspace && b.algorithm == "ed25519" && b.issuance in m ==>
            r == if m[b.issuance] == b then Ok(b) else Err(ValueError("authority_binding_persistence_" + "conflict")))
    ensures b.workspace == workspace && b.algorithm == "ed25519" && b.issuance !in m ==>
      Save(m, b, workspace).1 ==
        if exists id :: id in m && Shares(m[id], b) then Err(ValueError("authority_binding_persistence_" + "operation_conflict"))
        else Ok(b)
  {
    hide Operations, Shares;
    forall id | id in m
      ensures Shares(m[id], b) <==> !(Operations(m[id]) !! Operations(b))
    {
      SharesExactly(m[id], b);
    }
    if b.issuance in m && m[b.issuance] == b {
      assert m[b.issuance := b] == m;
    }
  }

  // ---- the index ----

  type Assignments = map<string, string>

  /** The assignment table is the disjoint union of the operation sets of the bindings. */
  ghost predicate Indexes(m: Bindings, index: Assignments) {
    && (forall id, operation :: id in m && operation in Operations(m[id]) ==>
          operation in index && index[operation] == id)
    && (forall operation :: operation in index ==>
          index[operation] in m && operation in Operations(m[index[operation]]))
  }

  lemma IndexedAreDisjoint(m: Bindings, index: Assignments)
    requires Indexes(m, index)
    ensures Disjoint(m)
  {
    forall i, j | i in m && j in m && i != j
      ensures Operations(m[i]) !! Operations(m[j])
    {
      forall operation | operation in Operations(m[i])
        ensures operation !in Operations(m[j])
      {
        assert index[operation] == i;
      }
    }
  }

  function AssignedTo(index: Assignments, issuance: string): set<string> {
    set operation | operation in index && index[operation] == issuance
  }

  lemma AssignedAreOperations(m: Bindings, index: Assignments, issuance: string)
    requires Indexes(m, index)
    ensures AssignedTo(index, issuance) == if issuance in m then Operations(m[issuance]) else {}
  {
    hide Operations;
  }

  /** An overlap shows in the index. */
  lemma OverlapIndexed(m: Bindings, index: Assignments, b: Signed)
    requires Indexes(m, index)
    ensures Overlaps(m, b) <==> exists operation :: operation in Operations(b) && operation in index
  {
    hide Operations;
    if Overlaps(m, b) {
      var id :| id in m && !(Operations(m[id]) !! Operations(b));
      var operation :| operation in Operations(m[id]) && operation in Operations(b);
      assert operation in index;
    }
    if operation :| operation in Operations(b) && operation in index {
      var id := index[operation];
      assert operation in Operations(m[id]) && operation in Operations(b);
    }
  }

  /** Assigning every operation of a new binding. */
  function Assigned(index: Assignments, operations: set<string>, issuance: string): Assignments {
    map operation | operation in index.Keys + operations ::
      if operation in operations then issuance else index[operation]
  }

  lemma AssignedStep(index: Assignments, operations: set<string>, operation: string, issuance: string)
    ensures Assigned(index, {}, issuance) == index
    ensures Assigned(index, operations, issuance)[operation := issuance] == Assigned(index, operations + {operation}, issuance)
    ensures operation in Assigned(index, operations, issuance) <==> operation in index || operation in operations
  {
  }

  lemma AssignedIndexes(m: Bindings, index: Assignments, b: Signed)
    requires Indexes(m, index) && b.issuance !in m && !Overlaps(m, b)
    ensures Indexes(m[b.issuance := b], Assigned(index, Operations(b), b.issuance))
  {
    hide Operations;
    OverlapIndexed(m, index, b);
  }

  /** Reading a binding with its assignments, as both stores do before they trust it. */
  function ReadParent(m: Bindings, index: Assignments, issuance: string, workspace: string): Result<Option<Signed>> {
    if issuance !in m then
      if AssignedTo(index, issuance) != {} then Err(Refusal("projection_corrupt")) else Ok(None)
    else
      var checked :- Validated(m[issuance], issuance, workspace);
      if AssignedTo(index, issuance) != Operations(checked) then Err(Refusal("projection_corrupt")) else Ok(Some(checked))
  }

  /** The corruption checks never fire on a store that is in order. */
  lemma ParentReads(m: Bindings, index: Assignments, issuance: string, workspace: string)
    requires Indexes(m, index) && Sound(m, workspace)
    ensures ReadParent(m, index, issuance, workspace) == Ok(Load(m, issuance))
  {
    hide Operations;
    AssignedAreOperations(m, index, issuance);
  }

  /** The checks on the arguments of a lookup. */
  function LookupRefused(workspace: string, own: string, identity: string, prefix: string): Guard {
    if !IsWorkspace(workspace) then Fail(Refusal("workspace_invalid"))
    else if !Identity(identity, prefix) then Fail(Refusal("lookup_invalid"))
    else if workspace != own then Fail(Refusal("workspace_mismatch"))
    else Pass
  }

  const ISSUANCE_PREFIX := "authority-issuance-"
  const OPERATION_PREFIX := "operation-"

  /** A lookup is answered exactly for a workspace name without blanks at its ends that is the store's own, and an
      identity of the kind looked up with 64 lower-case hexadecimal digits. */
  lemma LookupAnswers(workspace: string, own: string, identity: string, prefix: string)
    ensures var named := |workspace| >= 1 && !IsSpace(workspace[0]) && !IsSpace(workspace[|workspace| - 1]);
      var formed := && |identity| == |prefix| + 64 && identity[..|prefix|] == prefix
                    && forall i :: |prefix| <= i < |identity| ==> '0' <= identity[i] <= '9' || 'a' <= identity[i] <= 'f';
      LookupRefused(workspace, own, identity, prefix) ==
        if !named then Fail(ValueError("authority_binding_persistence_" + "workspace_invalid"))
        else if !formed then Fail(ValueError("authority_binding_persistence_" + "lookup_invalid"))
        else if workspace != own then Fail(ValueError("authority_binding_persistence_" + "workspace_mismatch"))
        else Pass
  {
    if |identity| == |prefix| + 64 && prefix <= identity {
      var digits := identity[|prefix|..];
      assert forall i :: 0 <= i < |digits| ==> digits[i] == identity[|prefix| + i];
      assert forall i :: |prefix| <= i < |identity| ==> identity[i] == digits[i - |prefix|];
    }
  }

  // ---- the in-memory store ----

  class InMemoryStore {
    const workspace: string
    var bindings: Bindings
    var assignments: Assignments

    ghost predicate Valid()
      reads this
    {
      Indexes(bindings, assignments) && Sound(bindings, workspace)
    }

    constructor (workspace: string)
      requires IsWorkspace(workspace)
      ensures Valid() && this.workspace == workspace && bindings == map[]
    {
      this.workspace := workspace;
      bindings := map[];
      assignments := map[];
    }

    method SaveBinding(b: Signed) returns (r: Result<Signed>)
      requires Valid()
      modifies this
      ensures Valid()
      ensures (bindings, r) == Save(old(bindings), b, workspace)
    {
      var candidate := Validated(b, b.issuance, workspace);
      if candidate.Err? {
        return candidate;
      }
      var operations := Operations(b);
      ParentReads(bindings, assignments, b.issuance, workspace);
      match ReadParent(bindings, assignments, b.issuance, workspace) {
        case Err(e) =>
          return Err(e);
        case Ok(Some(existing)) =>
          return if existing == b then Ok(b) else Err(Refusal("conflict"));
        case Ok(None) =>
      }
      OverlapIndexed(bindings, assignments, b);
      var taken := AnyAssigned(operations);
      if taken {
        return Err(Refusal("operation_conflict"));
      }
      AssignedIndexes(bindings, assignments, b);
      Write(b);
      return Ok(b);
    }

    /** The two dictionary updates of a save. */
    method Write(b: Signed)
      modifies this
      ensures bindings == old(bindings)[b.issuance := b]
      ensures assignments == Assigned(old(assignments), Operations(b), b.issuance)
    {
      hide Operations, Assigned;
      var operations := Operations(b);
      bindings := bindings[b.issuance := b];
      var todo := operations;
      AssignedStep(assignments, {}, "", b.issuance);
      assert operations - todo == {};
      while todo != {}
        invariant todo <= operations
        invariant bindings == old(bindings)[b.issuance := b]
        invariant assignments == Assigned(old(assignments), operations - todo, b.issuance)
        decreases |todo|
      {
        var operation :| operation in todo;
        AssignedStep(old(assignments), operations - todo, operation, b.issuance);
        assert operations - (todo - {operation}) == (operations - todo) + {operation};
        assignments := assignments[operation := b.issuance];
        todo := todo - {operation};
      }
      assert operations - todo == operations;
    }

    method AnyAssigned(operations: set<string>) returns (taken: bool)
      ensures taken <==> exists operation :: operation in operations && operation in assignments
    {
      var todo := operations;
      while todo != {}
        invariant todo <= operations
        invariant forall operation :: operation in operations && operation !in todo ==> operation !in assignments
        decreases |todo|
      {
        var operation :| operation in todo;
        if operation in assignments {
          return true;
        }
        todo := todo - {operation};
      }
      return false;
    }

    method LoadBinding(workspaceIdentity: string, issuance: string) returns (r: Result<Option<Signed>>)
      requires Valid()
      ensures var g := LookupRefused(workspaceIdentity, workspace, issuance, ISSUANCE_PREFIX);
        r == if g.Fail? then Err(g.error) else Ok(Load(bindings, issuance))
    {
      var g := LookupRefused(workspaceIdentity, workspace, issuance, ISSUANCE_PREFIX);
      if g.Fail? {
        return Err(g.error);
      }
      ParentReads(bindings, assignments, issuance, workspace);
      return ReadParent(bindings, assignments, issuance, workspace);
    }

    method ResolveOperation(workspaceIdentity: string, operation: string) returns (r: Result<Option<Signed>>)
      requires Valid()
      ensures var g := LookupRefused(workspaceIdentity, workspace, operation, OPERATION_PREFIX);
        if g.Fail? then r == Err(g.error) else r.Ok? && Resolves(bindings, operation, r.value)
    {
      var g := LookupRefused(workspaceIdentity, workspace, operation, OPERATION_PREFIX);
      if g.Fail? {
        return Err(g.error);
      }
      if operation !in assignments {
        return Ok(None);
      }
      var issuance := assignments[operation];
      ParentReads(bindings, assignments, issuance, workspace);
      var binding := ReadParent(bindings, assignments, issuance, workspace);
      if binding.Err? {
        return binding;
      }
      if binding.value.None? || operation !in Operations(binding.value.value) {
        return Err(Refusal("projection_corrupt"));
      }
      return binding;
    }
  }

  // ---- the SQLite store ----

  /** A database call that fails: which one, counted from the start of the store call, and how.  `landed` says
      whether a commit that fails took effect. */
  datatype Failure = NoFailure | At(call: nat, busy: bool, landed: bool)

  function FailureError(f: Failure): Error {
    Refusal(if f.At? && f.busy then "sqlite_busy" else "sqlite_operational")
  }

  class SQLiteStore {
    const workspace: string
    var bindings: Bindings
    var assignments: Assignments

    ghost predicate Valid()
      reads this
    {
      Indexes(bindings, assignments) && Sound(bindings, workspace)
    }

    constructor (workspace: string)
      requires IsWorkspace(workspace)
      ensures Valid() && this.workspace == workspace && bindings == map[]
    {
      this.workspace := workspace;
      bindings := map[];
      assignments := map[];
    }

    /** One transaction: rows are written to a working copy, which only the commit makes durable.  A failed commit
        is reported like any other failure, also when it took effect. */
    method SaveBinding(b: Signed, failure: Failure) returns (r: Result<Signed>)
      requires Valid()
      modifies this
      ensures Valid()
      ensures || (bindings, r) == Save(old(bindings), b, workspace)
              || (failure.At? && r == Err(Refusal(if failure.busy then "sqlite_busy" else "sqlite_operational"))
                  && ((bindings == old(bindings) && assignments == old(assignments))
                      || (failure.landed && (bindings, Ok(b)) == Save(old(bindings), b, workspace))))
    {
      var candidate := Validated(b, b.issuance, workspace);
      if candidate.Err? {
        return candidate;
      }
      var operations := Operations(b);
      if failure.At? && failure.call <= 2 {
        return Err(FailureError(failure));
      }
      ParentReads(bindings, assignments, b.issuance, workspace);
      match ReadParent(bindings, assignments, b.issuance, workspace) {
        case Err(e) =>
          return Err(e);
        case Ok(Some(existing)) =>
          if existing != b {
            return Err(Refusal("conflict"));
          }
          return if failure.At? && failure.call == 3 then Err(FailureError(failure)) else Ok(b);
        case Ok(None) =>
      }
      if failure.At? && failure.call == 3 {
        return Err(FailureError(failure));
      }
      var rows := bindings[b.issuance := b];
      OverlapIndexed(bindings, assignments, b);
      var inserted := InsertAssignments(operations, b.issuance, failure);
      if inserted.Err? {
        return Err(inserted.error);
      }
      AssignedIndexes(bindings, assignments, b);
      var failed := failure.At? && failure.call == 4 + |operations|;
      if !failed || failure.landed {
        bindings, assignments := rows, inserted.value;
      }
      return if failed then Err(FailureError(failure)) else Ok(b);
    }

    /** The inserts into the assignment table, whose primary key refuses an operation already there. */
    method InsertAssignments(operations: set<string>, issuance: string,
                             failure: Failure) returns (r: Result<Assignments>)
      ensures r.Ok? ==> r.value == Assigned(assignments, operations, issuance)
      ensures r.Ok? ==> forall operation :: operation in operations ==> operation !in assignments
      ensures r.Err? ==>
        || (r.error == Refusal("operation_conflict") && exists operation :: operation in operations && operation in assignments)
        || (failure.At? && r.error == Refusal(if failure.busy then "sqlite_busy" else "sqlite_operational"))
    {
      hide Assigned;
      var rows := assignments;
      var todo := operations;
      var call := 4;
      AssignedStep(assignments, {}, "", issuance);
      assert operations - todo == {};
      while todo != {}
        invariant todo <= operations
        invariant rows == Assigned(assignments, operations - todo, issuance)
        invariant forall operation :: operation in operations - todo ==> operation !in assignments
        decreases |todo|
      {
        var operation :| operation in todo;
        if failure.At? && failure.call == call {
          return Err(FailureError(failure));
        }
        AssignedStep(assignments, operations - todo, operation, issuance);
        assert operations - (todo - {operation}) == (operations - todo) + {operation};
        if operation in rows {
          return Err(Refusal("operation_conflict"));
        }
        rows := rows[operation := issuance];
        todo := todo - {operation};
        call := call + 1;
      }
      assert operations - todo == operations;
      return Ok(rows);
    }

    method LoadBinding(workspaceIdentity: string, issuance: string,
                       failure: Failure) returns (r: Result<Option<Signed>>)
      requires Valid()
      ensures var g := LookupRefused(workspaceIdentity, workspace, issuance, ISSUANCE_PREFIX);
        || r == (if g.Fail? then Err(g.error) else Ok(Load(bindings, issuance)))
        || (failure.At? && r == Err(Refusal(if failure.busy then "sqlite_busy" else "sqlite_operational")))
    {
      var g := LookupRefused(workspaceIdentity, workspace, issuance, ISSUANCE_PREFIX);
      if g.Fail? {
        return Err(g.error);
      }
      if failure.At? && failure.call <= 3 {
        return Err(FailureError(failure));
      }
      ParentReads(bindings, assignments, issuance, workspace);
      return ReadParent(bindings, assignments, issuance, workspace);
    }

    method ResolveOperation(workspaceIdentity: string, operation: string, failure: Failure)
      returns (r: Result<Option<Signed>>)
      requires Valid()
      ensures var g := LookupRefused(workspaceIdentity, workspace, operation, OPERATION_PREFIX);
        || (failure.At? && r == Err(Refusal(if failure.busy then "sqlite_busy" else "sqlite_operational")))
        || (if g.Fail? then r == Err(g.error) else r.Ok? && Resolves(bindings, operation, r.value))
    {
      var g := LookupRefused(workspaceIdentity, workspace, operation, OPERATION_PREFIX);
      if g.Fail? {
        return Err(g.error);
      }
      if failure.At? && failure.call <= 4 {
        return Err(FailureError(failure));
      }
      if operation !in assignments {
        return Ok(None);
      }
      var issuance := assignments[operation];
      ParentReads(bindings, assignments, issuance, workspace);
      var binding := ReadParent(bindings, assignments, issuance, workspace);
      if binding.Err? {
        return binding;
      }
      if binding.value.None? || operation !in Operations(binding.value.value) {
        return Err(Refusal("projection_corrupt"));
      }
      return binding;
    }
  }
}
