/** The second version of the write-operation contract, with typed endpoints, and its relation to the
    first. */
module WriteOperationsV2 {
  import opened Outcomes
  import opened Sequences
  import opened WriteOperations

  /** An endpoint as submitted: its type, the field that holds its reference, and the reference. */
  datatype RawEndpoint = RawEndpoint(kind: string, field: string, ref: string)

  datatype Endpoint = WorkItem(ref: string) | ExistingIssue(ref: string)

  const WORK_ITEM_TYPE := "work_item"
  const EXISTING_ISSUE_TYPE := "existing_issue"

  predicate EndpointValid(e: RawEndpoint) {
    && e.ref != ""
    && ((e.kind == WORK_ITEM_TYPE && e.field == "client_ref") || (e.kind == EXISTING_ISSUE_TYPE && e.field == "endpoint_ref"))
  }

  /** `_v2_endpoint`. */
  function Typed(e: RawEndpoint): Endpoint {
    if e.kind == WORK_ITEM_TYPE then WorkItem(e.ref) else ExistingIssue(e.ref)
  }

  function Raw(e: Endpoint): RawEndpoint {
    match e
    case WorkItem(ref) => RawEndpoint(WORK_ITEM_TYPE, "client_ref", ref)
    case ExistingIssue(ref) => RawEndpoint(EXISTING_ISSUE_TYPE, "endpoint_ref", ref)
  }

  /** A valid endpoint is determined by its type and reference. */
  lemma TypedRaw(e: RawEndpoint)
    requires EndpointValid(e)
    ensures Raw(Typed(e)) == e
  {
  }

  datatype OperationV2 = OperationV2(kind: string, endpoint: Option<RawEndpoint>, operands: Option<seq<RawEndpoint>>,
                                     dependsOn: seq<string>)

  predicate NormalV2(op: OperationV2) {
    && NonEmptyTexts(op.dependsOn)
    && if op.kind == CREATE then
         op.endpoint.Some? && op.operands.None? && EndpointValid(op.endpoint.value) && Typed(op.endpoint.value).WorkItem?
       else
         && IsRelationshipKind(op.kind) && op.operands.Some? && op.endpoint.None?
         && |op.operands.value| == 2
         && EndpointValid(op.operands.value[0]) && EndpointValid(op.operands.value[1])
         && Typed(op.operands.value[0]) != Typed(op.operands.value[1])
  }

  ghost predicate FirstBadV2(ops: seq<OperationV2>, i: nat)
    requires i < |ops|
  {
    !NormalV2(ops[i]) && forall j :: 0 <= j < i ==> NormalV2(ops[j])
  }

  /** Why an entry is not normal: its fields, then its endpoints, then what they stand for. */
  ghost function NormalizeCodeV2(op: OperationV2): string {
    if !NonEmptyTexts(op.dependsOn) then "write_operation_shape_invalid"
    else if op.kind == "create_issue" then
      if !(op.endpoint.Some? && op.operands.None?) then "write_operation_shape_invalid"
      else if !EndpointValid(op.endpoint.value) then "write_operation_endpoint_invalid"
      else "write_operation_create_endpoint_invalid"
    else if op.kind != "add_sub_issue" && op.kind != "add_dependency" then "write_operation_kind_not_write_eligible"
    else if !(op.operands.Some? && op.endpoint.None?) then "write_operation_shape_invalid"
    else if |op.operands.value| == 2 && !(EndpointValid(op.operands.value[0]) && EndpointValid(op.operands.value[1])) then
      "write_operation_endpoint_invalid"
    else "write_operation_relationship_shape_invalid"
  }

  /** `normalize_write_operations_v2`: the list unchanged, or the error of the first bad entry. */
  method NormalizeV2(ops: seq<OperationV2>) returns (r: Result<seq<OperationV2>>)
    ensures r.Ok? <==> forall i :: 0 <= i < |ops| ==> NormalV2(ops[i])
    ensures r.Ok? ==> r.value == ops
    ensures r.Err? ==> exists i :: 0 <= i < |ops| && FirstBadV2(ops, i) && r.error == ValueError(NormalizeCodeV2(ops[i]))
  {
    var normalized: seq<OperationV2> := [];
    for i := 0 to |ops|
      invariant normalized == ops[..i]
      invariant forall j :: 0 <= j < i ==> NormalV2(ops[j])
    {
      var op := ops[i];
      if !NonEmptyTexts(op.dependsOn) {
        return Err(ValueError("write_operation_shape_invalid"));
      }
      if op.kind == CREATE {
        if op.endpoint.None? || op.operands.Some? {
          return Err(ValueError("write_operation_shape_invalid"));
        }
        if !EndpointValid(op.endpoint.value) {
          return Err(ValueError("write_operation_endpoint_invalid"));
        }
        if !Typed(op.endpoint.value).WorkItem? {
          return Err(ValueError("write_operation_create_endpoint_invalid"));
        }
      } else if IsRelationshipKind(op.kind) {
        if op.operands.None? || op.endpoint.Some? {
          return Err(ValueError("write_operation_shape_invalid"));
        }
        var operands := op.operands.value;
        if |operands| != 2 {
          return Err(ValueError("write_operation_relationship_shape_invalid"));
        }
        if !EndpointValid(operands[0]) || !EndpointValid(operands[1]) {
          return Err(ValueError("write_operation_endpoint_invalid"));
        }
        if Typed(operands[0]) == Typed(operands[1]) {
          return Err(ValueError("write_operation_relationship_shape_invalid"));
        }
      } else {
        return Err(ValueError("write_operation_kind_not_write_eligible"));
      }
      normalized := normalized + [op];
    }
    return Ok(normalized);
  }

  datatype RawPlanned = RawPlanned(kind: string, source: RawEndpoint, target: RawEndpoint)

  datatype TypedPlanned = TypedPlanned(kind: string, source: Endpoint, target: Endpoint)

  predicate PlannedV2Valid(p: RawPlanned) {
    && (p.kind == PLANNED_PARENT || p.kind == PLANNED_DEPENDENCY)
    && EndpointValid(p.source) && EndpointValid(p.target)
  }

  function TypedPair(p: RawPlanned): TypedPlanned {
    TypedPlanned(p.kind, Typed(p.source), Typed(p.target))
  }

  function TypedPairs(planned: seq<RawPlanned>): seq<TypedPlanned> {
    seq(|planned|, i requires 0 <= i < |planned| => TypedPair(planned[i]))
  }

  datatype Binding = Binding(ref: string, issue: Option<string>)

  datatype RemoteRelationship = RemoteRelationship(kind: string, source: string, target: string)

  datatype BlockerV2 =
    | DependenciesUnsupportedV2
    | UnknownEndpoint
    | CreateIncompleteV2
    | RelationshipToItself
    | ExistingToExisting
    | RelationshipMismatch
    | AlreadyExists
    | OrderInvalidV2

  datatype EvaluationV2 = EvaluationV2(operations: seq<OperationV2>, eligible: bool, blockers: set<BlockerV2>)

  function Refs(bindings: seq<Binding>): (refs: seq<string>)
    ensures |refs| == |bindings|
  {
    seq(|bindings|, i requires 0 <= i < |bindings| => bindings[i].ref)
  }

  predicate BindingsValid(items: seq<string>, bindings: seq<Binding>) {
    && NonEmptyTexts(Refs(bindings)) && NoDuplicates(Refs(bindings))
    && Members(items) !! Members(Refs(bindings))
  }

  ghost predicate RaisesV2(ops: seq<OperationV2>, items: seq<string>, planned: seq<RawPlanned>,
                           bindings: seq<Binding>) {
    || (exists i :: 0 <= i < |ops| && !NormalV2(ops[i]))
    || !ItemsValid(items) || !BindingsValid(items, bindings)
    || (exists i :: 0 <= i < |planned| && !PlannedV2Valid(planned[i]))
  }

  /** What it raises: the first bad entry, then the item set, then the bindings, then a name they share with the items,
      then the first bad relationship, by its kind or by an endpoint. */
  ghost predicate RaisesWithV2(error: Error, ops: seq<OperationV2>, items: seq<string>, planned: seq<RawPlanned>,
                               bindings: seq<Binding>) {
    if exists i :: 0 <= i < |ops| && !NormalV2(ops[i]) then
      exists i :: 0 <= i < |ops| && FirstBadV2(ops, i) && error == ValueError(NormalizeCodeV2(ops[i]))
    else if ReferencesRefusal(items, bindings).Some? then error == ValueError(ReferencesRefusal(items, bindings).value)
    else PlannedRaisesWith(error, planned)
  }

  ghost function ReferencesRefusal(items: seq<string>, bindings: seq<Binding>): Option<string> {
    if !ItemsValid(items) then Some("write_operation_item_set_invalid")
    else if !NonEmptyTexts(Refs(bindings)) || !NoDuplicates(Refs(bindings)) then
      Some("write_operation_endpoint_set_invalid")
    else if !(Members(items) !! Members(Refs(bindings))) then Some("write_operation_reference_namespace_collision")
    else None
  }

  lemma ReferencesAccepted(items: seq<string>, bindings: seq<Binding>)
    ensures ReferencesRefusal(items, bindings).None? <==> ItemsValid(items) && BindingsValid(items, bindings)
  {
  }

  /** The references of the items and of the bindings, which must not share a name. */
  method CheckReferences(items: seq<string>, bindings: seq<Binding>) returns (refusal: Option<string>)
    ensures refusal == ReferencesRefusal(items, bindings)
  {
    hide NoDuplicates, NonEmptyTexts;
    if !ItemsValid(items) {
      return Some("write_operation_item_set_invalid");
    }
    if !NonEmptyTexts(Refs(bindings)) || !NoDuplicates(Refs(bindings)) {
      return Some("write_operation_endpoint_set_invalid");
    }
    var itemRefs, bindingRefs := Members(items), Members(Refs(bindings));
    if itemRefs * bindingRefs != {} {
      return Some("write_operation_reference_namespace_collision");
    }
    forall ref | ref in itemRefs
      ensures ref !in bindingRefs
    {
      assert ref in bindingRefs ==> ref in itemRefs * bindingRefs;
    }
    return None;
  }

  ghost predicate PlannedRaisesWith(error: Error, planned: seq<RawPlanned>) {
    exists i :: && 0 <= i < |planned| && !PlannedV2Valid(planned[i]) && (forall j :: 0 <= j < i ==> PlannedV2Valid(planned[j]))
                && error == ValueError(if planned[i].kind == "planned_parent" || planned[i].kind == "planned_dependency"
                                       then "write_operation_endpoint_invalid"
                                       else "write_operation_relationships_invalid")
  }

  predicate Known(e: Endpoint, items: seq<string>, bindings: seq<Binding>) {
    if e.WorkItem? then e.ref in items else e.ref in Refs(bindings)
  }

  predicate UnknownIn(op: OperationV2, items: seq<string>, bindings: seq<Binding>)
    requires NormalV2(op)
  {
    if op.kind == CREATE then !Known(Typed(op.endpoint.value), items, bindings)
    else !Known(Typed(op.operands.value[0]), items, bindings) || !Known(Typed(op.operands.value[1]), items, bindings)
  }

  function CreateRefsV2(ops: seq<OperationV2>): seq<string> {
    if ops == [] then [] else
    var rest := CreateRefsV2(ops[1..]);
    if ops[0].kind == CREATE && ops[0].endpoint.Some? then [ops[0].endpoint.value.ref] + rest else rest
  }

  function PairOfV2(op: OperationV2): TypedPlanned
    requires NormalV2(op) && op.kind != CREATE
  {
    TypedPlanned(PlannedKindOf(op.kind), Typed(op.operands.value[0]), Typed(op.operands.value[1]))
  }

  function OperationPairsV2(ops: seq<OperationV2>): set<TypedPlanned> {
    set i | 0 <= i < |ops| && NormalV2(ops[i]) && ops[i].kind != CREATE :: PairOfV2(ops[i])
  }

  function CreateOfV2(ref: string): OperationV2 {
    OperationV2(CREATE, Some(Raw(WorkItem(ref))), None, [])
  }

  function RelationshipOfV2(p: TypedPlanned): OperationV2 {
    OperationV2(OperationKindOf(p.kind), None, Some([Raw(p.source), Raw(p.target)]), [])
  }

  function CompileV2(items: seq<string>, pairs: seq<TypedPlanned>): seq<OperationV2> {
    seq(|items|, i requires 0 <= i < |items| => CreateOfV2(items[i]))
    + seq(|pairs|, i requires 0 <= i < |pairs| => RelationshipOfV2(pairs[i]))
  }

  predicate BothExisting(p: TypedPlanned) {
    p.source.ExistingIssue? && p.target.ExistingIssue?
  }

  function IssueOf(bindings: seq<Binding>, ref: string): Option<string> {
    if bindings == [] then None
    else if bindings[|bindings| - 1].ref == ref then bindings[|bindings| - 1].issue
    else IssueOf(bindings[..|bindings| - 1], ref)
  }

  predicate Exists(p: TypedPlanned, bindings: seq<Binding>, remote: seq<RemoteRelationship>) {
    && BothExisting(p)
    && var source, target := IssueOf(bindings, p.source.ref), IssueOf(bindings, p.target.ref);
    && source.Some? && target.Some?
    && RemoteRelationship(if p.kind == PLANNED_PARENT then "existing_parent" else "existing_dependency",
                          source.value, target.value) in remote
  }

  predicate EntryBlocksV2(b: BlockerV2, op: OperationV2, items: seq<string>, bindings: seq<Binding>)
    requires NormalV2(op)
  {
    match b
    case DependenciesUnsupportedV2 => op.dependsOn != []
    case UnknownEndpoint => UnknownIn(op, items, bindings)
    case _ => false
  }

  predicate PairBlocks(b: BlockerV2, p: TypedPlanned, bindings: seq<Binding>, remote: seq<RemoteRelationship>) {
    match b
    case RelationshipToItself => p.source == p.target
    case ExistingToExisting => BothExisting(p)
    case AlreadyExists => Exists(p, bindings, remote)
    case _ => false
  }

  predicate ListBlocksV2(b: BlockerV2, ops: seq<OperationV2>, items: seq<string>, pairs: seq<TypedPlanned>) {
    match b
    case CreateIncompleteV2 => !NoDuplicates(CreateRefsV2(ops)) || Members(CreateRefsV2(ops)) != Members(items)
    case RelationshipMismatch => Members(pairs) != OperationPairsV2(ops)
    case OrderInvalidV2 => ops != CompileV2(items, pairs)
    case _ => false
  }

  ghost predicate BlocksV2(b: BlockerV2, ops: seq<OperationV2>, items: seq<string>, pairs: seq<TypedPlanned>,
                           bindings: seq<Binding>, remote: seq<RemoteRelationship>)
    requires forall i :: 0 <= i < |ops| ==> NormalV2(ops[i])
  {
    || (exists i :: 0 <= i < |ops| && EntryBlocksV2(b, ops[i], items, bindings))
    || (exists i :: 0 <= i < |pairs| && PairBlocks(b, pairs[i], bindings, remote))
    || ListBlocksV2(b, ops, items, pairs)
  }

  method CheckEntriesV2(ops: seq<OperationV2>, items: seq<string>, bindings: seq<Binding>)
    returns (blockers: set<BlockerV2>)
    requires forall i :: 0 <= i < |ops| ==> NormalV2(ops[i])
    ensures forall b :: b in blockers <==> exists i :: 0 <= i < |ops| && EntryBlocksV2(b, ops[i], items, bindings)
  {
    blockers := {};
    for i := 0 to |ops|
      invariant forall b :: b in blockers <==> exists j :: 0 <= j < i && EntryBlocksV2(b, ops[j], items, bindings)
    {
      var more := {};
      if ops[i].dependsOn != [] {
        more := more + {DependenciesUnsupportedV2};
      }
      if UnknownIn(ops[i], items, bindings) {
        more := more + {UnknownEndpoint};
      }
      assert forall b :: b in more <==> EntryBlocksV2(b, ops[i], items, bindings);
      blockers := blockers + more;
    }
  }

  method CheckPairV2(pair: TypedPlanned, bindings: seq<Binding>, remote: seq<RemoteRelationship>)
    returns (blockers: set<BlockerV2>)
    ensures forall b :: b in blockers <==> PairBlocks(b, pair, bindings, remote)
  {
    hide Exists;
    blockers := {};
    if pair.source == pair.target {
      blockers := blockers + {RelationshipToItself};
    }
    if BothExisting(pair) {
      blockers := blockers + {ExistingToExisting};
    }
    if Exists(pair, bindings, remote) {
      blockers := blockers + {AlreadyExists};
    }
  }

  /** The loop over the planned relationships, which both types them and collects blockers. */
  method CheckPlannedV2(planned: seq<RawPlanned>, bindings: seq<Binding>, remote: seq<RemoteRelationship>)
    returns (r: Result<(seq<TypedPlanned>, set<BlockerV2>)>)
    ensures r.Ok? <==> forall i :: 0 <= i < |planned| ==> PlannedV2Valid(planned[i])
    ensures r.Err? ==> PlannedRaisesWith(r.error, planned)
    ensures r.Ok? ==>
      && r.value.0 == TypedPairs(planned)
      && forall b :: b in r.value.1 <==> exists i :: 0 <= i < |planned| && PairBlocks(b, TypedPair(planned[i]), bindings, remote)
  {
    hide PairBlocks, TypedPair;
    var pairs: seq<TypedPlanned> := [];
    var blockers: set<BlockerV2> := {};
    for i := 0 to |planned|
      invariant |pairs| == i && pairs == TypedPairs(planned)[..i]
      invariant forall j :: 0 <= j < i ==> PlannedV2Valid(planned[j])
      invariant forall b :: b in blockers <==> exists j :: 0 <= j < i && PairBlocks(b, TypedPair(planned[j]), bindings, remote)
    {
      if planned[i].kind != PLANNED_PARENT && planned[i].kind != PLANNED_DEPENDENCY {
        return Err(ValueError("write_operation_relationships_invalid"));
      }
      if !EndpointValid(planned[i].source) || !EndpointValid(planned[i].target) {
        return Err(ValueError("write_operation_endpoint_invalid"));
      }
      var pair := TypedPair(planned[i]);
      var more := CheckPairV2(pair, bindings, remote);
      pairs := pairs + [pair];
      blockers := blockers + more;
    }
    return Ok((pairs, blockers));
  }

  /** The checks on the list as a whole. */
  method CheckListV2(ops: seq<OperationV2>, items: seq<string>, pairs: seq<TypedPlanned>)
    returns (blockers: set<BlockerV2>)
    ensures forall b :: b in blockers <==> ListBlocksV2(b, ops, items, pairs)
  {
    hide NoDuplicates, Members, OperationPairsV2, CompileV2, CreateRefsV2;
    blockers := {};
    if !NoDuplicates(CreateRefsV2(ops)) || Members(CreateRefsV2(ops)) != Members(items) {
      blockers := blockers + {CreateIncompleteV2};
    }
    if Members(pairs) != OperationPairsV2(ops) {
      blockers := blockers + {RelationshipMismatch};
    }
    if ops != CompileV2(items, pairs) {
      blockers := blockers + {OrderInvalidV2};
    }
  }

  /** `evaluate_write_operations_v2`. */
  method EvaluateV2(ops: seq<OperationV2>, items: seq<string>, planned: seq<RawPlanned>, bindings: seq<Binding>,
                    remote: seq<RemoteRelationship>) returns (r: Result<EvaluationV2>)
    ensures r.Err? <==> RaisesV2(ops, items, planned, bindings)
    ensures r.Err? ==> RaisesWithV2(r.error, ops, items, planned, bindings)
    ensures r.Ok? ==>
      && r.value.operations == ops
      && (forall b :: b in r.value.blockers <==> BlocksV2(b, ops, items, TypedPairs(planned), bindings, remote))
      && (r.value.eligible <==> r.value.blockers == {})
  {
    hide NormalV2, FirstBadV2, NormalizeCodeV2, ItemsValid, BindingsValid, PlannedV2Valid, PlannedRaisesWith,
         ReferencesRefusal, EntryBlocksV2, PairBlocks, ListBlocksV2, TypedPair;
    var normalized := NormalizeV2(ops);
    if normalized.Err? {
      return Err(normalized.error);
    }
    ReferencesAccepted(items, bindings);
    var refusal := CheckReferences(items, bindings);
    if refusal.Some? {
      return Err(ValueError(refusal.value));
    }
    var entryBlockers := CheckEntriesV2(ops, items, bindings);
    var typed := CheckPlannedV2(planned, bindings, remote);
    if typed.Err? {
      return Err(typed.error);
    }
    var pairs := typed.value.0;
    var listBlockers := CheckListV2(ops, items, pairs);
    assert forall i :: 0 <= i < |pairs| ==> pairs[i] == TypedPair(planned[i]);
    var blockers := entryBlockers + typed.value.1 + listBlockers;
    return Ok(EvaluationV2(normalized.value, blockers == {}, blockers));
  }

  // ---- the collapse ----

  predicate EndpointsKnownV2(items: seq<string>, pairs: seq<TypedPlanned>, bindings: seq<Binding>) {
    forall i :: 0 <= i < |pairs| ==> Known(pairs[i].source, items, bindings) && Known(pairs[i].target, items, bindings)
  }

  predicate NoneBothExisting(pairs: seq<TypedPlanned>) {
    forall i :: 0 <= i < |pairs| ==> !BothExisting(pairs[i])
  }

  ghost predicate UnblockedV2(ops: seq<OperationV2>, items: seq<string>, pairs: seq<TypedPlanned>,
                              bindings: seq<Binding>, remote: seq<RemoteRelationship>)
    requires forall i :: 0 <= i < |ops| ==> NormalV2(ops[i])
  {
    forall b :: !BlocksV2(b, ops, items, pairs, bindings, remote)
  }

  lemma CompileV2At(items: seq<string>, pairs: seq<TypedPlanned>, i: nat)
    requires i < |items| + |pairs|
    ensures |CompileV2(items, pairs)| == |items| + |pairs|
    ensures CompileV2(items, pairs)[i] == if i < |items| then CreateOfV2(items[i]) else RelationshipOfV2(pairs[i - |items|])
  {
  }

  lemma CompileV2Length(items: seq<string>, pairs: seq<TypedPlanned>)
    ensures |CompileV2(items, pairs)| == |items| + |pairs|
  {
  }

  lemma {:induction false} CreateRefsV2Concat(xs: seq<OperationV2>, ys: seq<OperationV2>)
    ensures CreateRefsV2(xs + ys) == CreateRefsV2(xs) + CreateRefsV2(ys)
    decreases |xs|
  {
    if xs == [] {
      assert xs + ys == ys;
    } else {
      assert (xs + ys)[1..] == xs[1..] + ys;
      CreateRefsV2Concat(xs[1..], ys);
    }
  }

  lemma {:induction false} CreateRefsV2OfCreates(ops: seq<OperationV2>, items: seq<string>)
    requires |ops| == |items| && forall i :: 0 <= i < |ops| ==> ops[i] == CreateOfV2(items[i])
    ensures CreateRefsV2(ops) == items
    decreases |ops|
  {
    if ops != [] {
      CreateRefsV2OfCreates(ops[1..], items[1..]);
    }
  }

  lemma {:induction false} CreateRefsV2OfRelationships(ops: seq<OperationV2>)
    requires forall i :: 0 <= i < |ops| ==> IsRelationshipKind(ops[i].kind)
    ensures CreateRefsV2(ops) == []
    decreases |ops|
  {
    if ops != [] {
      CreateRefsV2OfRelationships(ops[1..]);
    }
  }

  lemma CompileV2CreatesItems(items: seq<string>, pairs: seq<TypedPlanned>)
    ensures CreateRefsV2(CompileV2(items, pairs)) == items
  {
    var ops := CompileV2(items, pairs);
    CreateRefsV2Concat(ops[..|items|], ops[|items|..]);
    assert ops == ops[..|items|] + ops[|items|..];
    CreateRefsV2OfCreates(ops[..|items|], items);
    CreateRefsV2OfRelationships(ops[|items|..]);
  }

  predicate PairKindValid(p: TypedPlanned) {
    p.kind == PLANNED_PARENT || p.kind == PLANNED_DEPENDENCY
  }

  lemma PairOfRelationshipV2(p: TypedPlanned)
    requires PairKindValid(p) && NormalV2(RelationshipOfV2(p))
    ensures PairOfV2(RelationshipOfV2(p)) == p
  {
  }

  lemma CompileV2Pairs(items: seq<string>, pairs: seq<TypedPlanned>)
    requires forall i :: 0 <= i < |pairs| ==> PairKindValid(pairs[i])
    requires forall i :: 0 <= i < |CompileV2(items, pairs)| ==> NormalV2(CompileV2(items, pairs)[i])
    ensures OperationPairsV2(CompileV2(items, pairs)) == Members(pairs)
  {
    var ops := CompileV2(items, pairs);
    forall p
      ensures p in OperationPairsV2(ops) <==> p in Members(pairs)
    {
      if p in Members(pairs) {
        var i :| 0 <= i < |pairs| && pairs[i] == p;
        CompileV2At(items, pairs, |items| + i);
        assert NormalV2(ops[|items| + i]);
        PairOfRelationshipV2(p);
      }
      if p in OperationPairsV2(ops) {
        var i :| 0 <= i < |ops| && NormalV2(ops[i]) && ops[i].kind != CREATE && PairOfV2(ops[i]) == p;
        CompileV2At(items, pairs, i);
        PairOfRelationshipV2(pairs[i - |items|]);
      }
    }
  }

  lemma UnblockedIsCompiledV2(ops: seq<OperationV2>, items: seq<string>, pairs: seq<TypedPlanned>,
                              bindings: seq<Binding>, remote: seq<RemoteRelationship>)
    requires (forall i :: 0 <= i < |ops| ==> NormalV2(ops[i])) && UnblockedV2(ops, items, pairs, bindings, remote)
    ensures ops == CompileV2(items, pairs) && EndpointsKnownV2(items, pairs, bindings) && NoneBothExisting(pairs)
  {
    assert !BlocksV2(OrderInvalidV2, ops, items, pairs, bindings, remote);
    forall i | 0 <= i < |pairs|
      ensures Known(pairs[i].source, items, bindings) && Known(pairs[i].target, items, bindings) && !BothExisting(pairs[i])
    {
      CompileV2At(items, pairs, |items| + i);
      var op := ops[|items| + i];
      assert !BlocksV2(UnknownEndpoint, ops, items, pairs, bindings, remote);
      assert !EntryBlocksV2(UnknownEndpoint, op, items, bindings);
      assert !BlocksV2(ExistingToExisting, ops, items, pairs, bindings, remote);
      assert !PairBlocks(ExistingToExisting, pairs[i], bindings, remote);
    }
  }

  lemma CompiledIsUnblockedV2(b: BlockerV2, items: seq<string>, pairs: seq<TypedPlanned>, bindings: seq<Binding>,
                              remote: seq<RemoteRelationship>)
    requires var ops := CompileV2(items, pairs);
      && (forall i :: 0 <= i < |ops| ==> NormalV2(ops[i])) && (forall i :: 0 <= i < |pairs| ==> PairKindValid(pairs[i]))
      && ItemsValid(items) && EndpointsKnownV2(items, pairs, bindings) && NoneBothExisting(pairs)
    ensures !BlocksV2(b, CompileV2(items, pairs), items, pairs, bindings, remote)
  {
    hide CompileV2, CreateRefsV2, OperationPairsV2;
    var ops := CompileV2(items, pairs);
    CompileV2CreatesItems(items, pairs);
    CompileV2Pairs(items, pairs);
    CompileV2Length(items, pairs);
    forall i | 0 <= i < |ops|
      ensures !EntryBlocksV2(b, ops[i], items, bindings)
    {
      CompileV2At(items, pairs, i);
    }
    forall i | 0 <= i < |pairs|
      ensures !PairBlocks(b, pairs[i], bindings, remote)
    {
      CompileV2At(items, pairs, |items| + i);
      assert NormalV2(ops[|items| + i]);
    }
  }

  /** The typed check collapses likewise: the list is the compiled one, every endpoint is known in its
      own name space, and no relationship joins two existing issues. */
  lemma EligibilityCollapsesV2(ops: seq<OperationV2>, items: seq<string>, planned: seq<RawPlanned>,
                               bindings: seq<Binding>, remote: seq<RemoteRelationship>)
    requires !RaisesV2(ops, items, planned, bindings)
    ensures var pairs := TypedPairs(planned);
      UnblockedV2(ops, items, pairs, bindings, remote) <==>
        ops == CompileV2(items, pairs) && EndpointsKnownV2(items, pairs, bindings) && NoneBothExisting(pairs)
  {
    var pairs := TypedPairs(planned);
    forall i | 0 <= i < |pairs|
      ensures PairKindValid(pairs[i])
    {
      assert PlannedV2Valid(planned[i]);
    }
    if UnblockedV2(ops, items, pairs, bindings, remote) {
      UnblockedIsCompiledV2(ops, items, pairs, bindings, remote);
    } else if ops == CompileV2(items, pairs) && EndpointsKnownV2(items, pairs, bindings) && NoneBothExisting(pairs) {
      var b :| BlocksV2(b, ops, items, pairs, bindings, remote);
      CompiledIsUnblockedV2(b, items, pairs, bindings, remote);
    }
  }

  // ---- embedding the first version ----

  function EmbedEndpoint(ref: string): RawEndpoint {
    Raw(WorkItem(ref))
  }

  function EmbedRefs(refs: seq<string>): seq<RawEndpoint> {
    seq(|refs|, i requires 0 <= i < |refs| => EmbedEndpoint(refs[i]))
  }

  /** A first-version entry as a typed one; entries of the wrong arity become malformed. */
  function Embed(op: Operation): OperationV2 {
    if op.kind == CREATE then
      OperationV2(op.kind, if |op.clientRefs| == 1 then Some(EmbedEndpoint(op.clientRefs[0])) else None, None, op.dependsOn)
    else
      OperationV2(op.kind, None, Some(EmbedRefs(op.clientRefs)), op.dependsOn)
  }

  function EmbedAll(ops: seq<Operation>): seq<OperationV2> {
    seq(|ops|, i requires 0 <= i < |ops| => Embed(ops[i]))
  }

  function EmbedPlanned(p: Planned): RawPlanned {
    RawPlanned(p.kind, EmbedEndpoint(p.source), EmbedEndpoint(p.target))
  }

  function EmbedAllPlanned(planned: seq<Planned>): seq<RawPlanned> {
    seq(|planned|, i requires 0 <= i < |planned| => EmbedPlanned(planned[i]))
  }

  /** The first evaluator gives a verdict, and it is "eligible". */
  ghost predicate Verdict(ops: seq<Operation>, items: seq<string>, planned: seq<Planned>) {
    !Raises(ops, items, planned) && Unblocked(ops, items, planned)
  }

  ghost predicate VerdictV2(ops: seq<OperationV2>, items: seq<string>, planned: seq<RawPlanned>, bindings: seq<Binding>,
                            remote: seq<RemoteRelationship>)
  {
    !RaisesV2(ops, items, planned, bindings) && UnblockedV2(ops, items, TypedPairs(planned), bindings, remote)
  }

  lemma EmbedPlannedValid(p: Planned)
    ensures PlannedV2Valid(EmbedPlanned(p)) <==> PlannedValid(p)
    ensures TypedPair(EmbedPlanned(p)) == TypedPlanned(p.kind, WorkItem(p.source), WorkItem(p.target))
  {
  }

  lemma EmbedRelationship(p: Planned)
    requires p.kind == PLANNED_PARENT || p.kind == PLANNED_DEPENDENCY
    ensures Embed(RelationshipOf(p)) == RelationshipOfV2(TypedPair(EmbedPlanned(p)))
  {
    var op := RelationshipOf(p);
    assert EmbedRefs(op.clientRefs) == [EmbedEndpoint(p.source), EmbedEndpoint(p.target)];
  }

  lemma EmbedRelationshipBack(op: Operation, p: Planned)
    requires Embed(op) == RelationshipOfV2(TypedPair(EmbedPlanned(p)))
    ensures op == RelationshipOf(p)
  {
    var raw := EmbedRefs(op.clientRefs);
    assert |raw| == |op.clientRefs|;
    assert raw == [EmbedEndpoint(p.source), EmbedEndpoint(p.target)];
    assert raw[0] == EmbedEndpoint(op.clientRefs[0]) && raw[1] == EmbedEndpoint(op.clientRefs[1]);
  }

  lemma EmbedCompile(ops: seq<Operation>, items: seq<string>, planned: seq<Planned>)
    requires forall i :: 0 <= i < |planned| ==> PlannedValid(planned[i])
    ensures EmbedAll(ops) == CompileV2(items, TypedPairs(EmbedAllPlanned(planned))) <==> ops == Compile(items, planned)
  {
    var pairs := TypedPairs(EmbedAllPlanned(planned));
    if ops == Compile(items, planned) {
      forall i | 0 <= i < |ops|
        ensures |items| + |pairs| == |ops| && EmbedAll(ops)[i] == CompileV2(items, pairs)[i]
      {
        CompileAt(items, planned, i);
        CompileV2At(items, pairs, i);
        if i >= |items| {
          EmbedRelationship(planned[i - |items|]);
        }
      }
      assert EmbedAll(ops) == CompileV2(items, pairs);
    }
    if EmbedAll(ops) == CompileV2(items, pairs) {
      assert |EmbedAll(ops)| == |ops|;
      forall i | 0 <= i < |ops|
        ensures |items| + |planned| == |ops| && ops[i] == Compile(items, planned)[i]
      {
        CompileV2At(items, pairs, i);
        CompileAt(items, planned, i);
        assert EmbedAll(ops)[i] == Embed(ops[i]);
        if i < |items| {
          assert ops[i].clientRefs == [items[i]];
        } else {
          EmbedRelationshipBack(ops[i], planned[i - |items|]);
        }
      }
      assert ops == Compile(items, planned);
    }
  }

  lemma CompiledNormal(items: seq<string>, planned: seq<Planned>, i: nat)
    requires i < |items| + |planned| == |Compile(items, planned)|
    requires ItemsValid(items) && forall k :: 0 <= k < |planned| ==> PlannedValid(planned[k])
    ensures Normal(Compile(items, planned)[i]) <==> NormalV2(Embed(Compile(items, planned)[i]))
  {
    CompileAt(items, planned, i);
    if i >= |items| {
      var p := planned[i - |items|];
      EmbedRelationship(p);
      assert PlannedValid(p);
      var refs := [p.source, p.target];
      assert refs[0] == p.source && refs[1] == p.target;
      assert NoDuplicates(refs) <==> p.source != p.target;
    }
  }

  /** Reading a first-version plan as a typed plan without bindings gives the same verdict, a raise
      counting as not eligible. */
  lemma EmbeddingKeepsVerdict(ops: seq<Operation>, items: seq<string>, planned: seq<Planned>,
                              remote: seq<RemoteRelationship>)
    ensures Verdict(ops, items, planned) <==> VerdictV2(EmbedAll(ops), items, EmbedAllPlanned(planned), [], remote)
  {
    var ops2, planned2 := EmbedAll(ops), EmbedAllPlanned(planned);
    var pairs := TypedPairs(planned2);
    forall i | 0 <= i < |planned|
      ensures PlannedV2Valid(planned2[i]) <==> PlannedValid(planned[i])
      ensures Known(pairs[i].source, items, []) <==> planned[i].source in items
      ensures Known(pairs[i].target, items, []) <==> planned[i].target in items
      ensures !BothExisting(pairs[i])
    {
      EmbedPlannedValid(planned[i]);
    }
    assert Refs([]) == [];
    if ItemsValid(items) && forall i :: 0 <= i < |planned| ==> PlannedValid(planned[i]) {
      EmbedCompile(ops, items, planned);
      if ops == Compile(items, planned) {
        forall i | 0 <= i < |ops|
          ensures Normal(ops[i]) <==> NormalV2(ops2[i])
        {
          CompiledNormal(items, planned, i);
        }
        SameRaises(ops, items, planned);
      }
      if !Raises(ops, items, planned) {
        EligibilityCollapses(ops, items, planned);
      }
      if !RaisesV2(ops2, items, planned2, []) {
        EligibilityCollapsesV2(ops2, items, planned2, [], remote);
      }
    } else {
      NotEligibleWhenInvalid(ops, items, planned);
    }
  }

  lemma SameRaises(ops: seq<Operation>, items: seq<string>, planned: seq<Planned>)
    requires ItemsValid(items) && forall i :: 0 <= i < |planned| ==> PlannedValid(planned[i])
    requires forall i :: 0 <= i < |ops| ==> (Normal(ops[i]) <==> NormalV2(EmbedAll(ops)[i]))
    ensures Raises(ops, items, planned) <==> RaisesV2(EmbedAll(ops), items, EmbedAllPlanned(planned), [])
  {
    assert Refs([]) == [];
    forall i | 0 <= i < |planned|
      ensures PlannedV2Valid(EmbedAllPlanned(planned)[i])
    {
      EmbedPlannedValid(planned[i]);
    }
    if Raises(ops, items, planned) {
      var i :| 0 <= i < |ops| && !Normal(ops[i]);
      assert !NormalV2(EmbedAll(ops)[i]);
    }
  }

  lemma NotEligibleWhenInvalid(ops: seq<Operation>, items: seq<string>, planned: seq<Planned>)
    requires !(ItemsValid(items) && forall i :: 0 <= i < |planned| ==> PlannedValid(planned[i]))
    ensures Raises(ops, items, planned) && RaisesV2(EmbedAll(ops), items, EmbedAllPlanned(planned), [])
  {
    if ItemsValid(items) {
      var i :| 0 <= i < |planned| && !PlannedValid(planned[i]);
      EmbedPlannedValid(planned[i]);
      assert !PlannedV2Valid(EmbedAllPlanned(planned)[i]);
    }
  }
}
