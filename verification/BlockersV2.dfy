/** What each blocker of the typed eligibility check means, in terms of the endpoints as they were submitted. */
module BlockersV2 {
  import opened Outcomes
  import opened Sequences
  import opened WriteOperations
  import opened WriteOperationsV2
  import opened Blockers

  // ---- endpoints ----

  /** The endpoint names nothing that is known in its own name space. */
  predicate UnknownRef(e: RawEndpoint, items: seq<string>, bindings: seq<Binding>) {
    if e.kind == "work_item" then e.ref !in items
    else forall k :: 0 <= k < |bindings| ==> bindings[k].ref != e.ref
  }

  lemma UnknownExactly(e: RawEndpoint, items: seq<string>, bindings: seq<Binding>)
    requires EndpointValid(e)
    ensures UnknownRef(e, items, bindings) <==> !Known(Typed(e), items, bindings)
  {
    if Typed(e).ref in Refs(bindings) {
      var k :| 0 <= k < |bindings| && Refs(bindings)[k] == e.ref;
    }
    if k :| 0 <= k < |bindings| && bindings[k].ref == e.ref {
      assert Refs(bindings)[k] == e.ref;
    }
  }

  predicate NamesUnknown(op: OperationV2, items: seq<string>, bindings: seq<Binding>) {
    || (op.kind == "create_issue" && op.endpoint.Some? && UnknownRef(op.endpoint.value, items, bindings))
    || (op.kind in {"add_sub_issue", "add_dependency"} && op.operands.Some?
        && exists j :: 0 <= j < |op.operands.value| && UnknownRef(op.operands.value[j], items, bindings))
  }

  lemma NamesUnknownExactly(op: OperationV2, items: seq<string>, bindings: seq<Binding>)
    requires NormalV2(op)
    ensures NamesUnknown(op, items, bindings) <==> UnknownIn(op, items, bindings)
  {
    hide UnknownRef, Known;
    if op.kind == CREATE {
      UnknownExactly(op.endpoint.value, items, bindings);
    } else {
      UnknownExactly(op.operands.value[0], items, bindings);
      UnknownExactly(op.operands.value[1], items, bindings);
      assert |op.operands.value| == 2;
    }
  }

  // ---- creates ----

  predicate CreatesItem(op: OperationV2, ref: string) {
    op.kind == "create_issue" && op.endpoint == Some(RawEndpoint("work_item", "client_ref", ref))
  }

  ghost predicate ItemCreated(ops: seq<OperationV2>, ref: string) {
    exists i :: 0 <= i < |ops| && CreatesItem(ops[i], ref)
  }

  ghost predicate ItemsDiffer(ops: seq<OperationV2>, items: seq<string>) {
    || (exists ref :: ref in items && !ItemCreated(ops, ref))
    || (exists ref :: ItemCreated(ops, ref) && ref !in items)
    || (exists i, j, ref :: 0 <= i < j < |ops| && CreatesItem(ops[i], ref) && CreatesItem(ops[j], ref))
  }

  /** The creates of a typed list, as entries of the first version. */
  function Plain(op: OperationV2): Operation {
    if op.kind == CREATE && op.endpoint.Some? then CreateOf(op.endpoint.value.ref) else Operation("", [], [])
  }

  function PlainAll(ops: seq<OperationV2>): (plain: seq<Operation>)
    ensures |plain| == |ops| && forall i :: 0 <= i < |ops| ==> plain[i] == Plain(ops[i])
  {
    seq(|ops|, i requires 0 <= i < |ops| => Plain(ops[i]))
  }

  lemma {:induction false} PlainRefs(ops: seq<OperationV2>)
    ensures CreateRefs(PlainAll(ops)) == CreateRefsV2(ops)
    decreases |ops|
  {
    if ops != [] {
      PlainRefs(ops[1..]);
      assert PlainAll(ops)[1..] == PlainAll(ops[1..]);
    }
  }

  lemma PlainCreates(ops: seq<OperationV2>, i: nat, ref: string)
    requires i < |ops| && NormalV2(ops[i])
    ensures Creates(PlainAll(ops)[i], ref) <==> CreatesItem(ops[i], ref)
  {
  }

  lemma ItemsDifferExactly(ops: seq<OperationV2>, items: seq<string>)
    requires forall i :: 0 <= i < |ops| ==> NormalV2(ops[i])
    ensures ItemsDiffer(ops, items) <==> !NoDuplicates(CreateRefsV2(ops)) || Members(CreateRefsV2(ops)) != Members(items)
  {
    hide NormalV2, NoDuplicates, CreateRefs, CreateRefsV2, Creates, CreatesItem, CreatesExactly, Members, Plain;
    var plain := PlainAll(ops);
    PlainRefs(ops);
    forall i, ref | 0 <= i < |ops|
      ensures Creates(plain[i], ref) <==> CreatesItem(ops[i], ref)
    {
      PlainCreates(ops, i, ref);
    }
    CreatesDifferExactly(plain, items);
    DuplicatesAre(plain);
    CreatesExactlyMeans(CreateRefs(plain), items);
    SameDifference(plain, ops, items);
  }

  lemma CreatesExactlyMeans(created: seq<string>, items: seq<string>)
    ensures CreatesExactly(created, Members(items)) <==> NoDuplicates(created) && Members(created) == Members(items)
  {
    hide NoDuplicates;
    CountDecides(created);
  }

  lemma SameDifference(plain: seq<Operation>, ops: seq<OperationV2>, items: seq<string>)
    requires |plain| == |ops|
    requires forall i, ref :: 0 <= i < |ops| ==> (Creates(plain[i], ref) <==> CreatesItem(ops[i], ref))
    ensures CreatesDiffer(plain, items) <==> ItemsDiffer(ops, items)
  {
    hide Creates, CreatesItem;
    forall ref
      ensures CreatedIn(plain, ref) <==> ItemCreated(ops, ref)
    {
      if i :| 0 <= i < |plain| && Creates(plain[i], ref) {
        assert CreatesItem(ops[i], ref);
      }
      if i :| 0 <= i < |ops| && CreatesItem(ops[i], ref) {
        assert Creates(plain[i], ref);
      }
    }
    if i, j, ref :| 0 <= i < j < |plain| && Creates(plain[i], ref) && Creates(plain[j], ref) {
      assert CreatesItem(ops[i], ref) && CreatesItem(ops[j], ref);
    }
    if i, j, ref :| 0 <= i < j < |ops| && CreatesItem(ops[i], ref) && CreatesItem(ops[j], ref) {
      assert Creates(plain[i], ref) && Creates(plain[j], ref);
    }
  }

  // ---- relationships ----

  /** The entry makes the planned relationship between the same endpoints, in its direction. */
  predicate MakesPlanned(op: OperationV2, p: RawPlanned) {
    && op.operands == Some([p.source, p.target])
    && ((op.kind == "add_sub_issue" && p.kind == "planned_parent")
        || (op.kind == "add_dependency" && p.kind == "planned_dependency"))
  }

  lemma MakesExactly(op: OperationV2, p: RawPlanned)
    requires NormalV2(op) && PlannedV2Valid(p)
    ensures MakesPlanned(op, p) <==> op.kind != CREATE && PairOfV2(op) == TypedPair(p)
  {
    if op.kind != CREATE {
      var operands := op.operands.value;
      assert operands == [operands[0], operands[1]];
      TypedRaw(operands[0]);
      TypedRaw(operands[1]);
      TypedRaw(p.source);
      TypedRaw(p.target);
    }
  }

  ghost predicate UnmadeV2(ops: seq<OperationV2>, p: RawPlanned) {
    forall i :: 0 <= i < |ops| ==> !MakesPlanned(ops[i], p)
  }

  ghost predicate Unplanned(op: OperationV2, planned: seq<RawPlanned>) {
    op.kind != "create_issue" && forall k :: 0 <= k < |planned| ==> !MakesPlanned(op, planned[k])
  }

  lemma MismatchExactly(ops: seq<OperationV2>, planned: seq<RawPlanned>)
    requires forall i :: 0 <= i < |ops| ==> NormalV2(ops[i])
    requires forall k :: 0 <= k < |planned| ==> PlannedV2Valid(planned[k])
    ensures Members(TypedPairs(planned)) == OperationPairsV2(ops) <==>
              (forall k :: 0 <= k < |planned| ==> !UnmadeV2(ops, planned[k]))
              && (forall i :: 0 <= i < |ops| ==> !Unplanned(ops[i], planned))
  {
    hide MakesPlanned, TypedPair, PairOfV2, NormalV2, PlannedV2Valid;
    var pairs := TypedPairs(planned);
    forall i, k | 0 <= i < |ops| && 0 <= k < |planned|
      ensures MakesPlanned(ops[i], planned[k]) <==> ops[i].kind != CREATE && PairOfV2(ops[i]) == pairs[k]
    {
      assert NormalV2(ops[i]);
      MakesExactly(ops[i], planned[k]);
    }
    if Members(pairs) == OperationPairsV2(ops) {
      forall k | 0 <= k < |planned|
        ensures !UnmadeV2(ops, planned[k])
      {
        assert pairs[k] in Members(pairs);
        var i :| 0 <= i < |ops| && NormalV2(ops[i]) && ops[i].kind != CREATE && PairOfV2(ops[i]) == pairs[k];
        assert MakesPlanned(ops[i], planned[k]);
      }
      forall i | 0 <= i < |ops|
        ensures !Unplanned(ops[i], planned)
      {
        if ops[i].kind != CREATE {
          assert NormalV2(ops[i]) && PairOfV2(ops[i]) in OperationPairsV2(ops);
          var k :| 0 <= k < |pairs| && pairs[k] == PairOfV2(ops[i]);
          assert MakesPlanned(ops[i], planned[k]);
        }
      }
    } else {
      AllMatched(ops, planned);
    }
  }

  lemma AllMatched(ops: seq<OperationV2>, planned: seq<RawPlanned>)
    requires forall i :: 0 <= i < |ops| ==> NormalV2(ops[i])
    requires forall k :: 0 <= k < |planned| ==> PlannedV2Valid(planned[k])
    requires Members(TypedPairs(planned)) != OperationPairsV2(ops)
    ensures (exists k :: 0 <= k < |planned| && UnmadeV2(ops, planned[k]))
            || (exists i :: 0 <= i < |ops| && Unplanned(ops[i], planned))
  {
    hide MakesPlanned, TypedPair, PairOfV2, NormalV2, PlannedV2Valid;
    var pairs := TypedPairs(planned);
    forall i, k | 0 <= i < |ops| && 0 <= k < |planned|
      ensures MakesPlanned(ops[i], planned[k]) <==> ops[i].kind != CREATE && PairOfV2(ops[i]) == pairs[k]
    {
      assert NormalV2(ops[i]);
      MakesExactly(ops[i], planned[k]);
    }
    if p :| p in Members(pairs) && p !in OperationPairsV2(ops) {
      var k :| 0 <= k < |pairs| && pairs[k] == p;
      assert UnmadeV2(ops, planned[k]);
    } else {
      var p :| p in OperationPairsV2(ops) && p !in Members(pairs);
      var i :| 0 <= i < |ops| && NormalV2(ops[i]) && ops[i].kind != CREATE && PairOfV2(ops[i]) == p;
      assert Unplanned(ops[i], planned);
    }
  }

  /** The issue bound to an endpoint reference. */
  ghost predicate BoundTo(bindings: seq<Binding>, e: RawEndpoint, issue: string) {
    exists k :: 0 <= k < |bindings| && bindings[k] == Binding(e.ref, Some(issue))
  }

  lemma {:induction false} BoundExactly(bindings: seq<Binding>, e: RawEndpoint, issue: string)
    requires NoDuplicates(Refs(bindings))
    ensures BoundTo(bindings, e, issue) <==> IssueOf(bindings, e.ref) == Some(issue)
    decreases |bindings|
  {
    if bindings != [] {
      var last, front := bindings[|bindings| - 1], bindings[..|bindings| - 1];
      assert Refs(front) == Refs(bindings)[..|front|];
      BoundExactly(front, e, issue);
      if k :| 0 <= k < |front| && front[k] == Binding(e.ref, Some(issue)) {
        assert bindings[k] == front[k];
        assert Refs(bindings)[k] != Refs(bindings)[|front|];
      }
      if k :| 0 <= k < |bindings| && bindings[k] == Binding(e.ref, Some(issue)) {
        if k < |front| {
          assert front[k] == Binding(e.ref, Some(issue));
          assert Refs(bindings)[k] != Refs(bindings)[|front|];
        }
      }
    }
  }

  /** The remote system already holds the planned relationship between two existing issues. */
  ghost predicate HeldRemotely(p: RawPlanned, bindings: seq<Binding>, remote: seq<RemoteRelationship>) {
    && p.source.kind == "existing_issue" && p.target.kind == "existing_issue"
    && exists r :: && r in remote && BoundTo(bindings, p.source, r.source) && BoundTo(bindings, p.target, r.target)
                   && ((p.kind == "planned_parent" && r.kind == "existing_parent")
                       || (p.kind == "planned_dependency" && r.kind == "existing_dependency"))
  }

  lemma HeldExactly(p: RawPlanned, bindings: seq<Binding>, remote: seq<RemoteRelationship>)
    requires PlannedV2Valid(p) && NoDuplicates(Refs(bindings))
    ensures HeldRemotely(p, bindings, remote) <==> Exists(TypedPair(p), bindings, remote)
  {
    hide BoundTo, IssueOf, NoDuplicates;
    forall issue
      ensures BoundTo(bindings, p.source, issue) <==> IssueOf(bindings, p.source.ref) == Some(issue)
      ensures BoundTo(bindings, p.target, issue) <==> IssueOf(bindings, p.target.ref) == Some(issue)
    {
      BoundExactly(bindings, p.source, issue);
      BoundExactly(bindings, p.target, issue);
    }
    if Exists(TypedPair(p), bindings, remote) {
      var source, target := IssueOf(bindings, p.source.ref).value, IssueOf(bindings, p.target.ref).value;
      var r := RemoteRelationship(if p.kind == PLANNED_PARENT then "existing_parent" else "existing_dependency", source, target);
      assert r in remote && BoundTo(bindings, p.source, r.source) && BoundTo(bindings, p.target, r.target);
    }
  }

  // ---- order ----

  predicate PlacedV2(op: OperationV2, items: seq<string>, planned: seq<RawPlanned>, i: nat)
    requires i < |items| + |planned|
  {
    && op.dependsOn == []
    && if i < |items| then CreatesItem(op, items[i]) && op.operands.None?
       else MakesPlanned(op, planned[i - |items|]) && op.endpoint.None?
  }

  lemma PlacedV2Exactly(op: OperationV2, items: seq<string>, planned: seq<RawPlanned>, i: nat)
    requires i < |items| + |planned| && forall k :: 0 <= k < |planned| ==> PlannedV2Valid(planned[k])
    ensures |CompileV2(items, TypedPairs(planned))| == |items| + |planned|
    ensures op == CompileV2(items, TypedPairs(planned))[i] <==> PlacedV2(op, items, planned, i)
  {
    CompileV2At(items, TypedPairs(planned), i);
    hide CompileV2;
    if i >= |items| {
      var p := planned[i - |items|];
      assert PlannedV2Valid(p) && TypedPairs(planned)[i - |items|] == TypedPair(p);
      TypedRaw(p.source);
      TypedRaw(p.target);
    }
  }

  lemma OrderExactly(ops: seq<OperationV2>, items: seq<string>, planned: seq<RawPlanned>)
    requires forall k :: 0 <= k < |planned| ==> PlannedV2Valid(planned[k])
    ensures ops != CompileV2(items, TypedPairs(planned)) <==>
              || |ops| != |items| + |planned|
              || exists i :: 0 <= i < |ops| && !PlacedV2(ops[i], items, planned, i)
  {
    hide CompileV2, PlacedV2, PlannedV2Valid;
    var expected := CompileV2(items, TypedPairs(planned));
    CompileV2Length(items, TypedPairs(planned));
    if |ops| == |expected| {
      forall i | 0 <= i < |ops|
        ensures ops[i] == expected[i] <==> PlacedV2(ops[i], items, planned, i)
      {
        PlacedV2Exactly(ops[i], items, planned, i);
      }
      if ops != expected {
        var i :| 0 <= i < |ops| && ops[i] != expected[i];
        assert !PlacedV2(ops[i], items, planned, i);
      } else {
        forall i | 0 <= i < |ops|
          ensures PlacedV2(ops[i], items, planned, i)
        {
          assert ops[i] == expected[i];
        }
      }
    }
  }

  // ---- the blockers ----

  /** What the second-version blockers mean. */
  ghost predicate MeansV2(b: BlockerV2, ops: seq<OperationV2>, items: seq<string>, planned: seq<RawPlanned>,
                          bindings: seq<Binding>, remote: seq<RemoteRelationship>) {
    match b
    case DependenciesUnsupportedV2 => exists i :: 0 <= i < |ops| && |ops[i].dependsOn| > 0
    case UnknownEndpoint => exists i :: 0 <= i < |ops| && NamesUnknown(ops[i], items, bindings)
    case CreateIncompleteV2 => ItemsDiffer(ops, items)
    case RelationshipToItself => exists k :: 0 <= k < |planned| && planned[k].source == planned[k].target
    case ExistingToExisting =>
      exists k :: && 0 <= k < |planned| && planned[k].source.kind == "existing_issue"
                  && planned[k].target.kind == "existing_issue"
    case RelationshipMismatch =>
      || (exists k :: 0 <= k < |planned| && UnmadeV2(ops, planned[k]))
      || (exists i :: 0 <= i < |ops| && Unplanned(ops[i], planned))
    case AlreadyExists => exists k :: 0 <= k < |planned| && HeldRemotely(planned[k], bindings, remote)
    case OrderInvalidV2 =>
      |ops| != |items| + |planned| || exists i :: 0 <= i < |ops| && !PlacedV2(ops[i], items, planned, i)
  }

  lemma EntriesMean(b: BlockerV2, ops: seq<OperationV2>, items: seq<string>, planned: seq<RawPlanned>,
                    bindings: seq<Binding>, remote: seq<RemoteRelationship>)
    requires forall i :: 0 <= i < |ops| ==> NormalV2(ops[i])
    requires b.DependenciesUnsupportedV2? || b.UnknownEndpoint?
    ensures BlocksV2(b, ops, items, TypedPairs(planned), bindings, remote) <==> MeansV2(b, ops, items, planned, bindings, remote)
  {
    hide NormalV2, NamesUnknown, UnknownIn, TypedPair;
    forall i | 0 <= i < |ops|
      ensures NormalV2(ops[i]) && (NamesUnknown(ops[i], items, bindings) <==> UnknownIn(ops[i], items, bindings))
    {
      NamesUnknownExactly(ops[i], items, bindings);
    }
  }

  lemma ListsMean(b: BlockerV2, ops: seq<OperationV2>, items: seq<string>, planned: seq<RawPlanned>,
                  bindings: seq<Binding>, remote: seq<RemoteRelationship>)
    requires forall i :: 0 <= i < |ops| ==> NormalV2(ops[i])
    requires forall k :: 0 <= k < |planned| ==> PlannedV2Valid(planned[k])
    requires b.CreateIncompleteV2? || b.RelationshipMismatch? || b.OrderInvalidV2?
    ensures BlocksV2(b, ops, items, TypedPairs(planned), bindings, remote) <==> MeansV2(b, ops, items, planned, bindings, remote)
  {
    hide NormalV2, PlannedV2Valid, CompileV2, OperationPairsV2, CreateRefsV2, NoDuplicates, Members, ItemsDiffer, UnmadeV2,
         Unplanned, PlacedV2, TypedPair;
    match b
    case CreateIncompleteV2 => ItemsDifferExactly(ops, items);
    case RelationshipMismatch => MismatchExactly(ops, planned);
    case OrderInvalidV2 => OrderExactly(ops, items, planned);
  }

  lemma PairMeans(p: RawPlanned, bindings: seq<Binding>, remote: seq<RemoteRelationship>)
    requires PlannedV2Valid(p) && NoDuplicates(Refs(bindings))
    ensures PairBlocks(RelationshipToItself, TypedPair(p), bindings, remote) <==> p.source == p.target
    ensures PairBlocks(ExistingToExisting, TypedPair(p), bindings, remote) <==>
              p.source.kind == "existing_issue" && p.target.kind == "existing_issue"
    ensures PairBlocks(AlreadyExists, TypedPair(p), bindings, remote) <==> HeldRemotely(p, bindings, remote)
  {
    hide HeldRemotely, Exists, NoDuplicates;
    HeldExactly(p, bindings, remote);
    TypedRaw(p.source);
    TypedRaw(p.target);
  }

  lemma PairsMean(b: BlockerV2, ops: seq<OperationV2>, items: seq<string>, planned: seq<RawPlanned>,
                  bindings: seq<Binding>, remote: seq<RemoteRelationship>)
    requires forall i :: 0 <= i < |ops| ==> NormalV2(ops[i])
    requires forall k :: 0 <= k < |planned| ==> PlannedV2Valid(planned[k])
    requires NoDuplicates(Refs(bindings)) && (b.RelationshipToItself? || b.ExistingToExisting? || b.AlreadyExists?)
    ensures BlocksV2(b, ops, items, TypedPairs(planned), bindings, remote) <==> MeansV2(b, ops, items, planned, bindings, remote)
  {
    hide PairBlocks, HeldRemotely, NoDuplicates, NormalV2, PlannedV2Valid, TypedPair;
    forall k | 0 <= k < |planned|
      ensures TypedPairs(planned)[k] == TypedPair(planned[k])
      ensures PairBlocks(b, TypedPair(planned[k]), bindings, remote) <==>
                if b.RelationshipToItself? then planned[k].source == planned[k].target
                else if b.ExistingToExisting? then
                  planned[k].source.kind == "existing_issue" && planned[k].target.kind == "existing_issue"
                else HeldRemotely(planned[k], bindings, remote)
    {
      PairMeans(planned[k], bindings, remote);
    }
    assert forall i :: 0 <= i < |ops| ==> !EntryBlocksV2(b, ops[i], items, bindings);
    if k :| 0 <= k < |TypedPairs(planned)| && PairBlocks(b, TypedPairs(planned)[k], bindings, remote) {
      assert PairBlocks(b, TypedPair(planned[k]), bindings, remote);
    }
  }

  /** Each blocker is reported exactly when its meaning holds. */
  lemma BlockersMeanV2(b: BlockerV2, ops: seq<OperationV2>, items: seq<string>, planned: seq<RawPlanned>,
                       bindings: seq<Binding>, remote: seq<RemoteRelationship>)
    requires !RaisesV2(ops, items, planned, bindings)
    ensures BlocksV2(b, ops, items, TypedPairs(planned), bindings, remote) <==> MeansV2(b, ops, items, planned, bindings, remote)
  {
    hide BlocksV2, MeansV2, NormalV2, PlannedV2Valid, ItemsValid, NoDuplicates;
    match b
    case DependenciesUnsupportedV2 => EntriesMean(b, ops, items, planned, bindings, remote);
    case UnknownEndpoint => EntriesMean(b, ops, items, planned, bindings, remote);
    case RelationshipToItself => PairsMean(b, ops, items, planned, bindings, remote);
    case ExistingToExisting => PairsMean(b, ops, items, planned, bindings, remote);
    case AlreadyExists => PairsMean(b, ops, items, planned, bindings, remote);
    case _ => ListsMean(b, ops, items, planned, bindings, remote);
  }
}
