/** What each blocker of the two eligibility checks means for the submitted list, the items and the planned
    relationships, spelled out entry by entry.  The collapse theorems say when there is no blocker at all; the
    overlapping blockers are told apart here. */
module Blockers {
  import opened Outcomes
  import opened Sequences
  import opened WriteOperations
  import V2 = WriteOperationsV2

  // ---- creates ----

  predicate Creates(op: Operation, ref: string) {
    op.kind == "create_issue" && op.clientRefs == [ref]
  }

  ghost predicate CreatedTwice(ops: seq<Operation>) {
    exists i, j, ref :: 0 <= i < j < |ops| && Creates(ops[i], ref) && Creates(ops[j], ref)
  }

  ghost predicate CreatedIn(ops: seq<Operation>, ref: string) {
    exists i :: 0 <= i < |ops| && Creates(ops[i], ref)
  }

  lemma CreatedTail(ops: seq<Operation>, ref: string)
    requires ops != []
    ensures CreatedIn(ops, ref) <==> Creates(ops[0], ref) || CreatedIn(ops[1..], ref)
  {
    if CreatedIn(ops[1..], ref) {
      var i :| 0 <= i < |ops[1..]| && Creates(ops[1..][i], ref);
      assert Creates(ops[i + 1], ref);
    }
    if CreatedIn(ops, ref) && !Creates(ops[0], ref) {
      var i :| 0 <= i < |ops| && Creates(ops[i], ref);
      assert Creates(ops[1..][i - 1], ref);
    }
  }

  lemma {:induction false} CreateRefsAre(ops: seq<Operation>, ref: string)
    ensures ref in CreateRefs(ops) <==> CreatedIn(ops, ref)
    decreases |ops|
  {
    hide CreatedIn;
    if ops == [] {
      assert !CreatedIn(ops, ref) by { NothingCreated(ref); }
    } else {
      CreatedTail(ops, ref);
      CreateRefsAre(ops[1..], ref);
      if ops[0].kind == CREATE && |ops[0].clientRefs| == 1 {
        assert ops[0].clientRefs == [ops[0].clientRefs[0]];
      }
    }
  }

  lemma NothingCreated(ref: string)
    ensures !CreatedIn([], ref)
  {
  }

  lemma NoDuplicatesCons<T>(x: T, s: seq<T>)
    ensures NoDuplicates([x] + s) <==> NoDuplicates(s) && x !in s
  {
    var t := [x] + s;
    if NoDuplicates(t) {
      forall i, j | 0 <= i < j < |s|
        ensures s[i] != s[j]
      {
        assert t[i + 1] != t[j + 1];
      }
      forall i | 0 <= i < |s|
        ensures s[i] != x
      {
        assert t[0] != t[i + 1];
      }
    }
  }

  lemma TwiceTail(ops: seq<Operation>)
    requires ops != []
    ensures CreatedTwice(ops) <==>
              CreatedTwice(ops[1..]) || exists ref :: Creates(ops[0], ref) && CreatedIn(ops[1..], ref)
  {
    var rest := ops[1..];
    if CreatedTwice(rest) {
      var i, j, ref :| 0 <= i < j < |rest| && Creates(rest[i], ref) && Creates(rest[j], ref);
      assert Creates(ops[i + 1], ref) && Creates(ops[j + 1], ref);
    }
    if exists ref :: Creates(ops[0], ref) && CreatedIn(rest, ref) {
      var ref :| Creates(ops[0], ref) && CreatedIn(rest, ref);
      var j :| 0 <= j < |rest| && Creates(rest[j], ref);
      assert Creates(ops[0], ref) && Creates(ops[j + 1], ref);
    }
    if CreatedTwice(ops) {
      var i, j, ref :| 0 <= i < j < |ops| && Creates(ops[i], ref) && Creates(ops[j], ref);
      assert Creates(rest[j - 1], ref);
      if i > 0 {
        assert Creates(rest[i - 1], ref);
      }
    }
  }

  lemma {:induction false} DuplicatesAre(ops: seq<Operation>)
    ensures NoDuplicates(CreateRefs(ops)) <==> !CreatedTwice(ops)
    decreases |ops|
  {
    hide CreatedTwice, CreatedIn, NoDuplicates;
    if ops == [] {
      assert NoDuplicates(CreateRefs(ops)) && !CreatedTwice(ops) by { NothingTwice(); }
    } else {
      TwiceTail(ops);
      DuplicatesAre(ops[1..]);
      if ops[0].kind == CREATE && |ops[0].clientRefs| == 1 {
        var ref := ops[0].clientRefs[0];
        assert ops[0].clientRefs == [ref];
        NoDuplicatesCons(ref, CreateRefs(ops[1..]));
        CreateRefsAre(ops[1..], ref);
      }
    }
  }

  lemma NothingTwice()
    ensures NoDuplicates<string>([]) && !CreatedTwice([])
  {
  }

  lemma {:induction false} CountDecides<T>(s: seq<T>)
    ensures |Members(s)| <= |s| && (|Members(s)| == |s| <==> NoDuplicates(s))
    decreases |s|
  {
    hide NoDuplicates;
    if s == [] {
      assert NoDuplicates(s) by { NothingRepeats<T>(); }
    } else {
      CountDecides(s[1..]);
      NoDuplicatesCons(s[0], s[1..]);
      assert s == [s[0]] + s[1..];
      assert Members(s) == {s[0]} + Members(s[1..]);
      if s[0] in s[1..] {
        assert Members(s) == Members(s[1..]);
      }
    }
  }

  lemma NothingRepeats<T>()
    ensures NoDuplicates<T>([])
  {
  }

  /** Some item is not created, or something is created that is no item or is created already. */
  ghost predicate CreatesDiffer(ops: seq<Operation>, items: seq<string>) {
    || (exists ref :: ref in items && !CreatedIn(ops, ref))
    || (exists ref :: CreatedIn(ops, ref) && ref !in items)
    || CreatedTwice(ops)
  }

  lemma CreatesDifferExactly(ops: seq<Operation>, items: seq<string>)
    ensures CreatesExactly(CreateRefs(ops), Members(items)) <==> !CreatesDiffer(ops, items)
  {
    hide CreatedIn, CreatedTwice, NoDuplicates;
    DuplicatesAre(ops);
    CountDecides(CreateRefs(ops));
    forall ref
      ensures ref in CreateRefs(ops) <==> CreatedIn(ops, ref)
    {
      CreateRefsAre(ops, ref);
    }
    var created := CreateRefs(ops);
    assert forall ref :: ref in Members(items) <==> ref in items;
    assert forall ref :: ref in Members(created) <==> ref in created;
    if Members(created) != Members(items) {
      assert exists ref :: (ref in Members(items)) != (ref in Members(created));
    }
  }

  // ---- relationships ----

  /** The entry makes the planned relationship, in its direction. */
  predicate Makes(op: Operation, p: Planned) {
    && op.clientRefs == [p.source, p.target]
    && ((op.kind == "add_sub_issue" && p.kind == "planned_parent")
        || (op.kind == "add_dependency" && p.kind == "planned_dependency"))
  }

  lemma PairsAre(ops: seq<Operation>, p: Planned)
    ensures p in OperationPairs(ops) <==> exists i :: 0 <= i < |ops| && Makes(ops[i], p)
  {
    if p in OperationPairs(ops) {
      var i :| 0 <= i < |ops| && IsRelationship(ops[i]) && PairOf(ops[i]) == p;
      assert ops[i].clientRefs == [p.source, p.target];
      assert Makes(ops[i], p);
    }
    if i :| 0 <= i < |ops| && Makes(ops[i], p) {
      assert IsRelationship(ops[i]) && PairOf(ops[i]) == p;
    }
  }

  // ---- the first version ----

  /** What the first-version blockers mean. */
  ghost predicate Means(b: Blocker, ops: seq<Operation>, items: seq<string>, planned: seq<Planned>) {
    match b
    case UnknownClientRef =>
      exists i, j :: 0 <= i < |ops| && 0 <= j < |ops[i].clientRefs| && ops[i].clientRefs[j] !in items
    case DependenciesUnsupported => exists i :: 0 <= i < |ops| && |ops[i].dependsOn| > 0
    case KindNotEligible =>
      exists i :: 0 <= i < |ops| && ops[i].kind !in {"create_issue", "add_sub_issue", "add_dependency"}
    case CreateShapeInvalid => exists i :: 0 <= i < |ops| && ops[i].kind == "create_issue" && |ops[i].clientRefs| != 1
    case RelationshipShapeInvalid =>
      exists i :: 0 <= i < |ops| && ops[i].kind in {"add_sub_issue", "add_dependency"} && |ops[i].clientRefs| != 2
    case DuplicateCreate => CreatedTwice(ops)
    case CreateIncomplete => CreatesDiffer(ops, items)
    case RelationshipIncomplete => exists k :: 0 <= k < |planned| && Unmade(ops, planned[k])
    case RelationshipUnplanned => exists i, p :: 0 <= i < |ops| && Makes(ops[i], p) && p !in planned
    case OrderInvalid =>
      |ops| != |items| + |planned| || exists i :: 0 <= i < |ops| && !Placed(ops[i], items, planned, i)
  }

  ghost predicate Unmade(ops: seq<Operation>, p: Planned) {
    forall i :: 0 <= i < |ops| ==> !Makes(ops[i], p)
  }

  lemma EntryMeans(b: Blocker, ops: seq<Operation>, items: seq<string>, planned: seq<Planned>)
    requires forall i :: 0 <= i < |ops| ==> Normal(ops[i])
    requires b.UnknownClientRef? || b.DependenciesUnsupported? || b.KindNotEligible? || b.CreateShapeInvalid?
             || b.RelationshipShapeInvalid?
    ensures Blocks(b, ops, items, planned) <==> Means(b, ops, items, planned)
  {
    hide CreateRefs, OperationPairs, Compile, CreatesExactly, CreatesDiffer, CreatedTwice;
    forall i | 0 <= i < |ops| && |ops[i].clientRefs| == 2
      ensures ops[i].clientRefs[0] != ops[i].clientRefs[1]
    {
      assert Normal(ops[i]);
    }
  }

  lemma CreatesMean(b: Blocker, ops: seq<Operation>, items: seq<string>, planned: seq<Planned>)
    requires b.DuplicateCreate? || b.CreateIncomplete?
    ensures Blocks(b, ops, items, planned) <==> Means(b, ops, items, planned)
  {
    hide CreateRefs, OperationPairs, Compile, CreatesExactly, CreatesDiffer, CreatedTwice, NoDuplicates;
    DuplicatesAre(ops);
    CreatesDifferExactly(ops, items);
  }

  lemma RelationshipsMean(b: Blocker, ops: seq<Operation>, items: seq<string>, planned: seq<Planned>)
    requires b.RelationshipIncomplete? || b.RelationshipUnplanned?
    ensures Blocks(b, ops, items, planned) <==> Means(b, ops, items, planned)
  {
    hide CreateRefs, OperationPairs, Compile, CreatesExactly, Makes, NoDuplicates;
    forall p
      ensures p in OperationPairs(ops) <==> exists i :: 0 <= i < |ops| && Makes(ops[i], p)
    {
      PairsAre(ops, p);
    }
    var pairs := OperationPairs(ops);
    assert forall p :: p in Members(planned) <==> p in planned;
    assert Blocks(b, ops, items, planned) <==> ListBlocks(b, ops, items, planned);
    if !(Members(planned) <= pairs) {
      var p :| p in Members(planned) && p !in pairs;
      var k :| 0 <= k < |planned| && planned[k] == p;
      assert Unmade(ops, planned[k]);
    }
    if k :| 0 <= k < |planned| && Unmade(ops, planned[k]) {
      assert planned[k] in Members(planned) && planned[k] !in pairs;
    }
    if !(pairs <= Members(planned)) {
      var p :| p in pairs && p !in Members(planned);
      var i :| 0 <= i < |ops| && Makes(ops[i], p);
    }
    if i, p :| 0 <= i < |ops| && Makes(ops[i], p) && p !in planned {
      assert p in pairs && p !in Members(planned);
    }
  }

  /** The entry is the one that belongs at this place. */
  predicate Placed(op: Operation, items: seq<string>, planned: seq<Planned>, i: nat)
    requires i < |items| + |planned|
  {
    && op.dependsOn == []
    && if i < |items| then Creates(op, items[i]) else Makes(op, planned[i - |items|])
  }

  lemma PlacedExactly(op: Operation, items: seq<string>, planned: seq<Planned>, i: nat)
    requires i < |items| + |planned| && forall k :: 0 <= k < |planned| ==> PlannedValid(planned[k])
    ensures |Compile(items, planned)| == |items| + |planned|
    ensures op == Compile(items, planned)[i] <==> Placed(op, items, planned, i)
  {
    CompileAt(items, planned, i);
    if i >= |items| {
      assert PlannedValid(planned[i - |items|]);
    }
  }

  lemma OrderMeans(ops: seq<Operation>, items: seq<string>, planned: seq<Planned>)
    requires forall k :: 0 <= k < |planned| ==> PlannedValid(planned[k])
    ensures Blocks(OrderInvalid, ops, items, planned) <==> Means(OrderInvalid, ops, items, planned)
  {
    hide Compile, Placed, PlannedValid, EntryBlocks;
    var expected := Compile(items, planned);
    assert |expected| == |items| + |planned| by { CompileLength(items, planned); }
    if |ops| == |expected| {
      forall i | 0 <= i < |ops|
        ensures ops[i] == expected[i] <==> Placed(ops[i], items, planned, i)
      {
        PlacedExactly(ops[i], items, planned, i);
      }
      if ops != expected {
        var i :| 0 <= i < |ops| && ops[i] != expected[i];
        assert !Placed(ops[i], items, planned, i);
      } else {
        forall i | 0 <= i < |ops|
          ensures Placed(ops[i], items, planned, i)
        {
          assert ops[i] == expected[i];
        }
      }
    }
    NoEntryBlocks(ops, items);
    assert Blocks(OrderInvalid, ops, items, planned) <==> ops != expected;
    assert Means(OrderInvalid, ops, items, planned) <==> ops != expected;
  }

  lemma CompileLength(items: seq<string>, planned: seq<Planned>)
    ensures |Compile(items, planned)| == |items| + |planned|
  {
  }

  lemma NoEntryBlocks(ops: seq<Operation>, items: seq<string>)
    ensures forall i :: 0 <= i < |ops| ==> !EntryBlocks(OrderInvalid, ops[i], items)
  {
  }

  /** Each blocker is reported exactly when its meaning holds. */
  lemma BlockersMean(b: Blocker, ops: seq<Operation>, items: seq<string>, planned: seq<Planned>)
    requires !Raises(ops, items, planned)
    ensures Blocks(b, ops, items, planned) <==> Means(b, ops, items, planned)
  {
    hide Blocks, Means;
    match b
    case DuplicateCreate => CreatesMean(b, ops, items, planned);
    case CreateIncomplete => CreatesMean(b, ops, items, planned);
    case RelationshipIncomplete => RelationshipsMean(b, ops, items, planned);
    case RelationshipUnplanned => RelationshipsMean(b, ops, items, planned);
    case OrderInvalid => OrderMeans(ops, items, planned);
    case _ => EntryMeans(b, ops, items, planned);
  }
}
