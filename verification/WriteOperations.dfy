/** The first version of the write-operation contract: normalising an operation list and deciding
    whether it is exactly the list compiled from the items and the planned relationships. */
module WriteOperations {
  import opened Outcomes
  import opened Sequences

  /** One entry of an operation list. */
  datatype Operation = Operation(kind: string, clientRefs: seq<string>, dependsOn: seq<string>)

  /** A planned relationship between two references. */
  datatype Planned = Planned(kind: string, source: string, target: string)

  const CREATE := "create_issue"
  const SUB_ISSUE := "add_sub_issue"
  const DEPENDENCY := "add_dependency"
  const PLANNED_PARENT := "planned_parent"
  const PLANNED_DEPENDENCY := "planned_dependency"

  predicate IsRelationshipKind(kind: string) {
    kind == SUB_ISSUE || kind == DEPENDENCY
  }

  function PlannedKindOf(kind: string): string {
    if kind == SUB_ISSUE then PLANNED_PARENT else PLANNED_DEPENDENCY
  }

  function OperationKindOf(planned: string): string {
    if planned == PLANNED_PARENT then SUB_ISSUE else DEPENDENCY
  }

  predicate Shaped(op: Operation) {
    op.kind != "" && NonEmptyTexts(op.clientRefs) && NonEmptyTexts(op.dependsOn)
  }

  predicate Normal(op: Operation) {
    Shaped(op) && NoDuplicates(op.clientRefs)
  }

  ghost predicate FirstBad(ops: seq<Operation>, i: nat)
    requires i < |ops|
  {
    !Normal(ops[i]) && forall j :: 0 <= j < i ==> Normal(ops[j])
  }

  function NormalizeCode(op: Operation): string {
    if Shaped(op) then "write_operation_client_refs_duplicate" else "write_operation_shape_invalid"
  }

  /** `normalize_write_operations`: the list unchanged, or the error of the first bad entry. */
  method Normalize(ops: seq<Operation>) returns (r: Result<seq<Operation>>)
    ensures r.Ok? <==> forall i :: 0 <= i < |ops| ==> Normal(ops[i])
    ensures r.Ok? ==> r.value == ops
    ensures r.Err? ==> exists i :: 0 <= i < |ops| && FirstBad(ops, i) && r.error == ValueError(NormalizeCode(ops[i]))
  {
    var normalized: seq<Operation> := [];
    for i := 0 to |ops|
      invariant normalized == ops[..i]
      invariant forall j :: 0 <= j < i ==> Normal(ops[j])
    {
      if !Shaped(ops[i]) {
        return Err(ValueError("write_operation_shape_invalid"));
      }
      if !NoDuplicates(ops[i].clientRefs) {
        return Err(ValueError("write_operation_client_refs_duplicate"));
      }
      normalized := normalized + [Operation(ops[i].kind, ops[i].clientRefs, ops[i].dependsOn)];
    }
    return Ok(normalized);
  }

  datatype Blocker =
    | UnknownClientRef
    | DependenciesUnsupported
    | KindNotEligible
    | CreateShapeInvalid
    | RelationshipShapeInvalid
    | DuplicateCreate
    | CreateIncomplete
    | RelationshipIncomplete
    | RelationshipUnplanned
    | OrderInvalid

  datatype Evaluation = Evaluation(operations: seq<Operation>, eligible: bool, blockers: set<Blocker>)

  /** The references created by well-shaped create entries, in order. */
  function CreateRefs(ops: seq<Operation>): seq<string> {
    if ops == [] then [] else
    var rest := CreateRefs(ops[1..]);
    if ops[0].kind == CREATE && |ops[0].clientRefs| == 1 then [ops[0].clientRefs[0]] + rest else rest
  }

  predicate IsRelationship(op: Operation) {
    IsRelationshipKind(op.kind) && |op.clientRefs| == 2
  }

  function PairOf(op: Operation): Planned
    requires IsRelationship(op)
  {
    Planned(PlannedKindOf(op.kind), op.clientRefs[0], op.clientRefs[1])
  }

  function OperationPairs(ops: seq<Operation>): set<Planned> {
    set i | 0 <= i < |ops| && IsRelationship(ops[i]) :: PairOf(ops[i])
  }

  function CreateOf(ref: string): Operation {
    Operation(CREATE, [ref], [])
  }

  function RelationshipOf(p: Planned): Operation {
    Operation(OperationKindOf(p.kind), [p.source, p.target], [])
  }

  /** The one operation list that items and planned relationships determine. */
  function Compile(items: seq<string>, planned: seq<Planned>): seq<Operation> {
    seq(|items|, i requires 0 <= i < |items| => CreateOf(items[i]))
    + seq(|planned|, i requires 0 <= i < |planned| => RelationshipOf(planned[i]))
  }

  predicate ItemsValid(items: seq<string>) {
    items != [] && NonEmptyTexts(items) && NoDuplicates(items)
  }

  predicate PlannedValid(p: Planned) {
    (p.kind == PLANNED_PARENT || p.kind == PLANNED_DEPENDENCY) && p.source != "" && p.target != ""
  }

  /** The evaluator raises instead of giving a verdict. */
  ghost predicate Raises(ops: seq<Operation>, items: seq<string>, planned: seq<Planned>) {
    || (exists i :: 0 <= i < |ops| && !Normal(ops[i]))
    || !ItemsValid(items)
    || (exists i :: 0 <= i < |planned| && !PlannedValid(planned[i]))
  }

  /** What it raises: the first bad entry comes before the item set, and the item set before the relationships. */
  ghost predicate RaisesWith(error: Error, ops: seq<Operation>, items: seq<string>) {
    if exists i :: 0 <= i < |ops| && !Normal(ops[i]) then
      exists i :: && 0 <= i < |ops| && FirstBad(ops, i)
                  && error == ValueError(if Shaped(ops[i]) then "write_operation_client_refs_duplicate"
                                         else "write_operation_shape_invalid")
    else
      error == ValueError(if ItemsValid(items) then "write_operation_relationships_invalid"
                          else "write_operation_item_set_invalid")
  }

  predicate UnknownRefIn(op: Operation, items: seq<string>) {
    exists j :: 0 <= j < |op.clientRefs| && op.clientRefs[j] !in items
  }

  predicate KindEligible(op: Operation) {
    op.kind == CREATE || IsRelationshipKind(op.kind)
  }

  predicate BadCreate(op: Operation) {
    op.kind == CREATE && |op.clientRefs| != 1
  }

  predicate BadRelationship(op: Operation) {
    IsRelationshipKind(op.kind) && (|op.clientRefs| != 2 || op.clientRefs[0] == op.clientRefs[1])
  }

  /** When one entry raises a blocker. */
  predicate EntryBlocks(b: Blocker, op: Operation, items: seq<string>) {
    match b
    case UnknownClientRef => UnknownRefIn(op, items)
    case DependenciesUnsupported => op.dependsOn != []
    case KindNotEligible => !KindEligible(op)
    case CreateShapeInvalid => BadCreate(op)
    case RelationshipShapeInvalid => BadRelationship(op)
    case _ => false
  }

  predicate CreatesExactly(created: seq<string>, known: set<string>) {
    Members(created) == known && |created| == |known|
  }

  /** When the list as a whole raises a blocker. */
  predicate ListBlocks(b: Blocker, ops: seq<Operation>, items: seq<string>, planned: seq<Planned>) {
    match b
    case DuplicateCreate => !NoDuplicates(CreateRefs(ops))
    case CreateIncomplete => !CreatesExactly(CreateRefs(ops), Members(items))
    case RelationshipIncomplete => !(Members(planned) <= OperationPairs(ops))
    case RelationshipUnplanned => !(OperationPairs(ops) <= Members(planned))
    case OrderInvalid => ops != Compile(items, planned)
    case _ => false
  }

  /** When each blocker is raised. */
  ghost predicate Blocks(b: Blocker, ops: seq<Operation>, items: seq<string>, planned: seq<Planned>) {
    (exists i :: 0 <= i < |ops| && EntryBlocks(b, ops[i], items)) || ListBlocks(b, ops, items, planned)
  }

  method CheckEntry(op: Operation, items: seq<string>) returns (blockers: set<Blocker>)
    ensures forall b :: b in blockers <==> EntryBlocks(b, op, items)
  {
    blockers := {};
    if UnknownRefIn(op, items) {
      blockers := blockers + {UnknownClientRef};
    }
    if op.dependsOn != [] {
      blockers := blockers + {DependenciesUnsupported};
    }
    if !KindEligible(op) {
      blockers := blockers + {KindNotEligible};
    } else if BadCreate(op) {
      blockers := blockers + {CreateShapeInvalid};
    } else if BadRelationship(op) {
      blockers := blockers + {RelationshipShapeInvalid};
    }
  }

  /** The loop over the entries. */
  method CheckEntries(ops: seq<Operation>, items: seq<string>) returns (blockers: set<Blocker>)
    ensures forall b :: b in blockers <==> exists i :: 0 <= i < |ops| && EntryBlocks(b, ops[i], items)
  {
    blockers := {};
    for i := 0 to |ops|
      invariant forall b :: b in blockers <==> exists j :: 0 <= j < i && EntryBlocks(b, ops[j], items)
    {
      var more := CheckEntry(ops[i], items);
      blockers := blockers + more;
    }
  }

  /** The checks on the list as a whole. */
  method CheckList(ops: seq<Operation>, items: seq<string>, planned: seq<Planned>) returns (blockers: set<Blocker>)
    ensures forall b :: b in blockers <==> ListBlocks(b, ops, items, planned)
  {
    hide NoDuplicates, CreatesExactly, Members, OperationPairs, Compile, CreateRefs;
    blockers := {};
    var created := CreateRefs(ops);
    if !NoDuplicates(created) {
      blockers := blockers + {DuplicateCreate};
    }
    if !CreatesExactly(created, Members(items)) {
      blockers := blockers + {CreateIncomplete};
    }
    var pairs := OperationPairs(ops);
    if !(Members(planned) <= pairs) {
      blockers := blockers + {RelationshipIncomplete};
    }
    if !(pairs <= Members(planned)) {
      blockers := blockers + {RelationshipUnplanned};
    }
    if ops != Compile(items, planned) {
      blockers := blockers + {OrderInvalid};
    }
  }

  /** The loop over the planned relationships. */
  method CheckPlanned(planned: seq<Planned>) returns (r: Result<seq<Planned>>)
    ensures r.Ok? <==> forall i :: 0 <= i < |planned| ==> PlannedValid(planned[i])
    ensures r.Ok? ==> r.value == planned
    ensures r.Err? ==> r.error == ValueError("write_operation_relationships_invalid")
  {
    var pairs: seq<Planned> := [];
    for i := 0 to |planned|
      invariant pairs == planned[..i]
      invariant forall j :: 0 <= j < i ==> PlannedValid(planned[j])
    {
      if !PlannedValid(planned[i]) {
        return Err(ValueError("write_operation_relationships_invalid"));
      }
      pairs := pairs + [planned[i]];
    }
    return Ok(pairs);
  }

  /** `evaluate_write_operations`. */
  method Evaluate(ops: seq<Operation>, items: seq<string>, planned: seq<Planned>) returns (r: Result<Evaluation>)
    ensures r.Err? <==> Raises(ops, items, planned)
    ensures r.Err? ==> RaisesWith(r.error, ops, items)
    ensures r.Ok? ==>
      && r.value.operations == ops
      && (forall b :: b in r.value.blockers <==> Blocks(b, ops, items, planned))
      && (r.value.eligible <==> r.value.blockers == {})
  {
    var normalized := Normalize(ops);
    if normalized.Err? {
      return Err(normalized.error);
    }
    if !ItemsValid(items) {
      return Err(ValueError("write_operation_item_set_invalid"));
    }
    var entryBlockers := CheckEntries(ops, items);
    var pairs := CheckPlanned(planned);
    if pairs.Err? {
      return Err(pairs.error);
    }
    var listBlockers := CheckList(ops, items, pairs.value);
    var blockers := entryBlockers + listBlockers;
    return Ok(Evaluation(normalized.value, blockers == {}, blockers));
  }

  // ---- the collapse of the eligibility check ----

  /** Every endpoint of the planned relationships is an item. */
  predicate EndpointsKnown(items: seq<string>, planned: seq<Planned>) {
    forall i :: 0 <= i < |planned| ==> planned[i].source in items && planned[i].target in items
  }

  /** No blocker at all. */
  ghost predicate Unblocked(ops: seq<Operation>, items: seq<string>, planned: seq<Planned>) {
    forall b :: !Blocks(b, ops, items, planned)
  }

  lemma {:induction false} CreateRefsConcat(xs: seq<Operation>, ys: seq<Operation>)
    ensures CreateRefs(xs + ys) == CreateRefs(xs) + CreateRefs(ys)
    decreases |xs|
  {
    if xs == [] {
      assert xs + ys == ys;
    } else {
      assert (xs + ys)[1..] == xs[1..] + ys;
      CreateRefsConcat(xs[1..], ys);
    }
  }

  lemma {:induction false} CreateRefsOfCreates(ops: seq<Operation>, items: seq<string>)
    requires |ops| == |items| && forall i :: 0 <= i < |ops| ==> ops[i] == CreateOf(items[i])
    ensures CreateRefs(ops) == items
    decreases |ops|
  {
    if ops != [] {
      CreateRefsOfCreates(ops[1..], items[1..]);
    }
  }

  lemma {:induction false} CreateRefsOfRelationships(ops: seq<Operation>)
    requires forall i :: 0 <= i < |ops| ==> IsRelationshipKind(ops[i].kind)
    ensures CreateRefs(ops) == []
    decreases |ops|
  {
    if ops != [] {
      CreateRefsOfRelationships(ops[1..]);
    }
  }

  lemma {:induction false} MembersCount<T>(s: seq<T>)
    requires NoDuplicates(s)
    ensures |Members(s)| == |s|
    decreases |s|
  {
    if s != [] {
      MembersCount(s[1..]);
      assert Members(s) == {s[0]} + Members(s[1..]);
    }
  }

  lemma CompileCreatesItems(items: seq<string>, planned: seq<Planned>)
    ensures CreateRefs(Compile(items, planned)) == items
  {
    var ops := Compile(items, planned);
    CreateRefsConcat(ops[..|items|], ops[|items|..]);
    assert ops == ops[..|items|] + ops[|items|..];
    CreateRefsOfCreates(ops[..|items|], items);
    CreateRefsOfRelationships(ops[|items|..]);
  }

  lemma CompileAt(items: seq<string>, planned: seq<Planned>, i: nat)
    requires i < |items| + |planned|
    ensures |Compile(items, planned)| == |items| + |planned|
    ensures Compile(items, planned)[i] == if i < |items| then CreateOf(items[i]) else RelationshipOf(planned[i - |items|])
  {
  }

  lemma PairOfRelationship(p: Planned)
    requires PlannedValid(p)
    ensures IsRelationship(RelationshipOf(p)) && PairOf(RelationshipOf(p)) == p
  {
  }

  lemma CompilePairs(items: seq<string>, planned: seq<Planned>)
    requires forall i :: 0 <= i < |planned| ==> PlannedValid(planned[i])
    ensures OperationPairs(Compile(items, planned)) == Members(planned)
  {
    var ops := Compile(items, planned);
    forall p
      ensures p in OperationPairs(ops) <==> p in Members(planned)
    {
      if p in Members(planned) {
        var i :| 0 <= i < |planned| && planned[i] == p;
        CompileAt(items, planned, |items| + i);
        PairOfRelationship(p);
        assert ops[|items| + i] == RelationshipOf(p);
      }
      if p in OperationPairs(ops) {
        var i :| 0 <= i < |ops| && IsRelationship(ops[i]) && PairOf(ops[i]) == p;
        CompileAt(items, planned, i);
        PairOfRelationship(planned[i - |items|]);
      }
    }
  }

  lemma UnblockedIsCompiled(ops: seq<Operation>, items: seq<string>, planned: seq<Planned>)
    requires Unblocked(ops, items, planned)
    ensures ops == Compile(items, planned) && EndpointsKnown(items, planned)
  {
    assert !Blocks(OrderInvalid, ops, items, planned) && !Blocks(UnknownClientRef, ops, items, planned);
    forall i | 0 <= i < |planned|
      ensures planned[i].source in items && planned[i].target in items
    {
      var op := ops[|items| + i];
      CompileAt(items, planned, |items| + i);
      assert op == RelationshipOf(planned[i]) && !EntryBlocks(UnknownClientRef, op, items);
      assert op.clientRefs[0] == planned[i].source && op.clientRefs[1] == planned[i].target;
    }
  }

  lemma CompiledEntryUnblocked(b: Blocker, items: seq<string>, planned: seq<Planned>, i: nat)
    requires EndpointsKnown(items, planned) && i < |items| + |planned| == |Compile(items, planned)|
    requires Normal(Compile(items, planned)[i])
    ensures !EntryBlocks(b, Compile(items, planned)[i], items)
  {
    CompileAt(items, planned, i);
    if i >= |items| {
      var p := planned[i - |items|];
      assert p.source in items && p.target in items;
      assert [p.source, p.target][0] != [p.source, p.target][1];
    }
  }

  lemma CompiledListUnblocked(b: Blocker, items: seq<string>, planned: seq<Planned>)
    requires ItemsValid(items) && forall i :: 0 <= i < |planned| ==> PlannedValid(planned[i])
    ensures !ListBlocks(b, Compile(items, planned), items, planned)
  {
    CompileCreatesItems(items, planned);
    CompilePairs(items, planned);
    MembersCount(items);
  }

  /** The ten overlapping blockers collapse: a list the evaluator does not reject outright is eligible
      exactly when it is the compiled list and every relationship endpoint is an item. */
  lemma EligibilityCollapses(ops: seq<Operation>, items: seq<string>, planned: seq<Planned>)
    requires !Raises(ops, items, planned)
    ensures Unblocked(ops, items, planned) <==> ops == Compile(items, planned) && EndpointsKnown(items, planned)
  {
    if Unblocked(ops, items, planned) {
      UnblockedIsCompiled(ops, items, planned);
    } else if ops == Compile(items, planned) && EndpointsKnown(items, planned) {
      var b :| Blocks(b, ops, items, planned);
      CompiledListUnblocked(b, items, planned);
      var i :| 0 <= i < |ops| && EntryBlocks(b, ops[i], items);
      CompiledEntryUnblocked(b, items, planned, i);
    }
  }

  /** In an eligible list, each reference a relationship uses is created by exactly one entry, and
      that entry comes earlier. */
  lemma CreatesComeFirst(ops: seq<Operation>, items: seq<string>, planned: seq<Planned>, i: nat, ref: string)
    requires ItemsValid(items) && ops == Compile(items, planned) && EndpointsKnown(items, planned)
    requires i < |ops| && IsRelationshipKind(ops[i].kind) && ref in ops[i].clientRefs
    ensures exists k :: 0 <= k < i && ops[k] == CreateOf(ref)
              && forall m :: 0 <= m < |ops| && ops[m].kind == CREATE && ops[m].clientRefs == [ref] ==> m == k
  {
    assert ops[i] == RelationshipOf(planned[i - |items|]);
    assert ref in items;
    var k :| 0 <= k < |items| && items[k] == ref;
    assert ops[k] == CreateOf(ref);
    forall m | 0 <= m < |ops| && ops[m].kind == CREATE && ops[m].clientRefs == [ref]
      ensures m == k
    {
      assert m < |items| && ops[m] == CreateOf(items[m]);
      assert ops[m].clientRefs[0] == items[m];
    }
  }
}
