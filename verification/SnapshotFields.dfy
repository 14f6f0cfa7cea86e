/** What a snapshot of a remote repository accepts, which argument each of its fields keeps, and under which name each
    field stands in the dictionary that its digest is taken of. */
module SnapshotFields {
  import opened Outcomes
  import opened Sequences
  import opened Characters
  import opened Sorting
  import CanonicalText
  import opened JsonText
  import opened CanonicalValue
  import opened RemoteSnapshot

  // ---- acceptance ----

  /** An issue record that belongs in a snapshot of the repository. */
  ghost predicate RecordFits(version: Version, raw: RawIssue, repository: string) {
    && raw.itemType == "issue" && !Blank(raw.title) && raw.updatedAt.zoned
    && raw.repository == repository
    && match version
       case V1 => raw.id != "" && !Blank(raw.updatedAt.text)
       case V2 =>
         && raw.RawV2? && !Blank(raw.id) && raw.number >= 1
         && 1 <= |raw.numericId| <= 20 && raw.numericId[0] != '0'
         && (forall i :: 0 <= i < |raw.numericId| ==> '0' <= raw.numericId[i] <= '9')
         && (Fold(raw.state) == "open" || Fold(raw.state) == "closed")
  }

  ghost predicate RelationshipFits(rel: RawRelationship, issues: seq<RawIssue>) {
    && rel.kind in {"existing_dependency", "existing_parent", "proposed_dependency_candidate",
                    "proposed_parent_candidate"}
    && (exists i :: 0 <= i < |issues| && issues[i].id == rel.source)
    && (exists i :: 0 <= i < |issues| && issues[i].id == rel.target)
  }

  ghost predicate RecordsFit(version: Version, r: Records) {
    && !Blank(r.repository)
    && (forall i :: 0 <= i < |r.issues| ==> RecordFits(version, r.issues[i], r.repository))
    && (forall i, j :: 0 <= i < j < |r.issues| ==> r.issues[i].id != r.issues[j].id)
    && (forall i :: 0 <= i < |r.relationships| ==> RelationshipFits(r.relationships[i], r.issues))
    && NoDuplicates(r.evidence) && NoDuplicates(r.capabilities)
    && forall i :: 0 <= i < |r.capabilities| ==> r.capabilities[i] != ""
  }

  lemma RecordReads(version: Version, raw: RawIssue, repository: string)
    requires !Blank(repository)
    ensures RecordFits(version, raw, repository) <==>
              ReadIssue(version, raw).Ok?
              && ReadIssue(version, raw).value.repository == repository
              && ReadIssue(version, raw).value.itemType != "pull_request"
    ensures ReadIssue(version, raw).Ok? ==> ReadIssue(version, raw).value.id == raw.id
  {
    hide Blank, Fold;
  }

  lemma ReadIds(version: Version, r: Records)
    requires ReadIssues(version, r.issues).Ok?
    ensures var ids := Ids(ReadIssues(version, r.issues).value);
      |ids| == |r.issues| && forall i :: 0 <= i < |ids| ==> ids[i] == r.issues[i].id
  {
    hide ReadIssue;
    var issues := ReadIssues(version, r.issues).value;
    forall i | 0 <= i < |issues|
      ensures issues[i].id == r.issues[i].id
    {
      assert Ok(issues[i]) == ReadIssue(version, r.issues[i]);
      ReadKeepsId(version, r.issues[i]);
    }
  }

  lemma ReadKeepsId(version: Version, raw: RawIssue)
    requires ReadIssue(version, raw).Ok?
    ensures ReadIssue(version, raw).value.id == raw.id
  {
    hide Blank, Fold;
  }

  lemma IssuesFit(version: Version, r: Records)
    requires !Blank(r.repository)
    ensures (forall i :: 0 <= i < |r.issues| ==> RecordFits(version, r.issues[i], r.repository)) <==>
              var issues := ReadIssues(version, r.issues);
              issues.Ok? && IssuesBelong(issues.value, r.repository) && NoPullRequest(issues.value)
  {
    hide ReadIssue, RecordFits, Blank;
    var issues := ReadIssues(version, r.issues);
    forall i | 0 <= i < |r.issues|
      ensures RecordFits(version, r.issues[i], r.repository) <==>
                ReadIssue(version, r.issues[i]).Ok?
                && ReadIssue(version, r.issues[i]).value.repository == r.repository
                && ReadIssue(version, r.issues[i]).value.itemType != "pull_request"
    {
      RecordReads(version, r.issues[i], r.repository);
    }
    if issues.Ok? {
      forall i | 0 <= i < |issues.value|
        ensures issues.value[i].repository == ReadIssue(version, r.issues[i]).value.repository
        ensures issues.value[i].itemType == ReadIssue(version, r.issues[i]).value.itemType
      {
        assert Ok(issues.value[i]) == ReadIssue(version, r.issues[i]);
      }
    }
  }

  lemma RelationshipsFit(version: Version, r: Records)
    requires ReadIssues(version, r.issues).Ok?
    ensures (forall i :: 0 <= i < |r.relationships| ==> RelationshipFits(r.relationships[i], r.issues)) <==>
              RelationshipsValid(r.relationships)
              && RelationshipsKnown(r.relationships, ReadIssues(version, r.issues).value)
  {
    hide ReadIssues;
    ReadIds(version, r);
    var ids := Ids(ReadIssues(version, r.issues).value);
    forall x: string
      ensures x in ids <==> exists i :: 0 <= i < |r.issues| && r.issues[i].id == x
    {
      if i :| 0 <= i < |r.issues| && r.issues[i].id == x {
        assert ids[i] == x;
      }
    }
    forall i | 0 <= i < |r.relationships|
      ensures RelationshipFits(r.relationships[i], r.issues) <==>
                RelationshipValid(r.relationships[i]) && r.relationships[i].source in ids && r.relationships[i].target in ids
    {
    }
  }

  /** Records make a snapshot exactly when they fit. */
  lemma AcceptedExactly(version: Version, r: Records)
    ensures FromRecords(version, r).Ok? <==> RecordsFit(version, r)
  {
    hide ReadIssues, RecordFits, Blank, RelationshipFits, RelationshipsKnown, RelationshipsValid, Normalize, Sorted,
         IssuesBelong, NoPullRequest;
    if !Blank(r.repository) {
      IssuesFit(version, r);
      var issues := ReadIssues(version, r.issues);
      if issues.Ok? {
        ReadIds(version, r);
        RelationshipsFit(version, r);
        DistinctIds(Ids(issues.value), r.issues);
      }
    }
  }

  lemma DistinctIds(ids: seq<string>, issues: seq<RawIssue>)
    requires |ids| == |issues| && forall i :: 0 <= i < |ids| ==> ids[i] == issues[i].id
    ensures NoDuplicates(ids) <==> forall i, j :: 0 <= i < j < |issues| ==> issues[i].id != issues[j].id
  {
    if forall i, j :: 0 <= i < j < |issues| ==> issues[i].id != issues[j].id {
      forall i, j | 0 <= i < j < |ids|
        ensures ids[i] != ids[j]
      {
        assert issues[i].id != issues[j].id;
      }
    }
  }

  // ---- refusals ----

  /** What a code says of one issue record of the first version. */
  ghost predicate FaultV1(code: string, raw: RawIssue) {
    match code
    case "remote_issue_identity_incomplete" => raw.id == ""
    case "remote_item_type_required" => raw.itemType != "issue" && raw.itemType != "pull_request"
    case "remote_issue_title_required" => Blank(raw.title)
    case "remote_issue_updated_at_required" => Blank(raw.updatedAt.text)
    case "remote_issue_repository_identity_required" => Blank(raw.repository)
    case "remote_issue_updated_at_timezone_required" => !raw.updatedAt.zoned
    case "pull_request_not_issue_candidate" => raw.itemType == "pull_request"
    case _ => false
  }

  /** What a code says of one issue record of the second version. */
  ghost predicate FaultV2(code: string, raw: RawIssue) {
    match code
    case "remote_snapshot_v2_issue_schema_invalid" => raw.RawV1?
    case "remote_issue_identity_incomplete" => raw.RawV2? && (Blank(raw.id) || !NumericId(raw.numericId))
    case "remote_issue_number_invalid" => raw.RawV2? && raw.number < 1
    case "pull_request_not_issue_candidate" => raw.itemType != "issue"
    case "remote_issue_title_required" => Blank(raw.title)
    case "remote_issue_state_invalid" => raw.RawV2? && Fold(raw.state) != "open" && Fold(raw.state) != "closed"
    case "remote_issue_updated_at_timezone_required" => !raw.updatedAt.zoned
    case "remote_issue_repository_identity_required" => Blank(raw.repository)
    case _ => false
  }

  ghost predicate RecordFault(code: string, version: Version, raw: RawIssue) {
    if version.V1? then FaultV1(code, raw) else FaultV2(code, raw)
  }

  ghost predicate IssueOfAnother(r: Records) {
    exists i :: 0 <= i < |r.issues| && r.issues[i].repository != r.repository
  }

  ghost predicate SharesId(r: Records) {
    exists i, j :: 0 <= i < j < |r.issues| && r.issues[i].id == r.issues[j].id
  }

  ghost predicate OtherKind(r: Records) {
    exists i :: && 0 <= i < |r.relationships|
                && r.relationships[i].kind !in {"existing_dependency", "existing_parent",
                                                "proposed_dependency_candidate", "proposed_parent_candidate"}
  }

  /** An end of some relationship is no issue of the snapshot. */
  ghost predicate Dangles(r: Records) {
    exists i :: && 0 <= i < |r.relationships|
                && (NoIssue(r.relationships[i].source, r.issues) || NoIssue(r.relationships[i].target, r.issues))
  }

  ghost predicate NoIssue(id: string, issues: seq<RawIssue>) {
    forall i :: 0 <= i < |issues| ==> issues[i].id != id
  }

  ghost predicate Repeats(texts: seq<string>) {
    exists i, j :: 0 <= i < j < |texts| && texts[i] == texts[j]
  }

  /** What a code says of the records as a whole. */
  ghost predicate ListFault(code: string, r: Records) {
    match code
    case "remote_repository_identity_required" => Blank(r.repository)
    case "remote_issue_repository_identity_mismatch" => IssueOfAnother(r)
    case "duplicate_remote_issue_id" => SharesId(r)
    case "remote_relationship_type_required" => OtherKind(r)
    case "remote_relationship_reference_required" => Dangles(r)
    case "duplicate_remote_evidence_id" => Repeats(r.evidence)
    case "remote_capability_set_invalid" => "" in r.capabilities || Repeats(r.capabilities)
    case _ => false
  }

  ghost predicate SomeRecordFault(code: string, version: Version, r: Records) {
    exists i :: 0 <= i < |r.issues| && RecordFault(code, version, r.issues[i])
  }

  ghost predicate RefusedFor(error: Error, version: Version, r: Records) {
    error.ValueError? && (ListFault(error.code, r) || SomeRecordFault(error.code, version, r))
  }

  lemma RefusedV1(raw: RawIssue)
    requires ReadIssue(V1, raw).Err?
    ensures ReadIssue(V1, raw).error.ValueError? && FaultV1(ReadIssue(V1, raw).error.code, raw)
  {
    hide Blank, NumericId, Fold;
  }

  lemma RefusedV2(raw: RawIssue)
    requires ReadIssue(V2, raw).Err?
    ensures ReadIssue(V2, raw).error.ValueError? && FaultV2(ReadIssue(V2, raw).error.code, raw)
  {
    hide Blank, NumericId, Fold;
  }

  lemma {:induction false} IssuesRefused(version: Version, raws: seq<RawIssue>)
    requires ReadIssues(version, raws).Err?
    ensures exists i :: 0 <= i < |raws| && ReadIssue(version, raws[i]) == Err(ReadIssues(version, raws).error)
    decreases |raws|
  {
    hide ReadIssue;
    if ReadIssue(version, raws[0]).Ok? {
      IssuesRefused(version, raws[1..]);
      var i :| 0 <= i < |raws[1..]| && ReadIssue(version, raws[1..][i]) == Err(ReadIssues(version, raws[1..]).error);
      assert raws[i + 1] == raws[1..][i];
    }
  }

  lemma UnreadRefused(version: Version, r: Records)
    requires ReadIssues(version, r.issues).Err?
    ensures RefusedFor(ReadIssues(version, r.issues).error, version, r)
  {
    hide ReadIssue, FaultV1, FaultV2, ListFault, ReadIssues;
    IssuesRefused(version, r.issues);
    var i :| 0 <= i < |r.issues| && ReadIssue(version, r.issues[i]) == Err(ReadIssues(version, r.issues).error);
    match version
    case V1 => RefusedV1(r.issues[i]);
    case V2 => RefusedV2(r.issues[i]);
  }

  lemma ReadAsGiven(version: Version, r: Records, i: nat)
    requires ReadIssues(version, r.issues).Ok? && i < |r.issues|
    ensures var issues := ReadIssues(version, r.issues).value;
      && |issues| == |r.issues| && issues[i].repository == r.issues[i].repository
      && issues[i].itemType == r.issues[i].itemType && issues[i].id == r.issues[i].id
  {
    hide ReadIssue, KeepsRecord;
    var issues := ReadIssues(version, r.issues).value;
    assert Ok(issues[i]) == ReadIssue(version, r.issues[i]);
    ReadKeeps(version, r.issues[i]);
    KeptFields(version, r.issues[i], issues[i]);
  }

  lemma ReadFaults(version: Version, r: Records)
    requires ReadIssues(version, r.issues).Ok?
    ensures var issues := ReadIssues(version, r.issues).value;
      && (!IssuesBelong(issues, r.repository) ==> IssueOfAnother(r))
      && (!NoPullRequest(issues) ==> exists i :: 0 <= i < |r.issues| && r.issues[i].itemType == "pull_request")
      && (!NoDuplicates(Ids(issues)) ==> SharesId(r))
      && (!RelationshipsKnown(r.relationships, issues) ==> Dangles(r))
  {
    hide ReadIssue, ReadIssues;
    var issues := ReadIssues(version, r.issues).value;
    forall i: nat | i < |r.issues|
      ensures |issues| == |r.issues| && issues[i].repository == r.issues[i].repository
      ensures issues[i].itemType == r.issues[i].itemType && issues[i].id == r.issues[i].id
    {
      ReadAsGiven(version, r, i);
    }
    ReadIds(version, r);
    DistinctIds(Ids(issues), r.issues);
    if !RelationshipsKnown(r.relationships, issues) {
      var i :| 0 <= i < |r.relationships|
               && !(r.relationships[i].source in Ids(issues) && r.relationships[i].target in Ids(issues));
      UnknownId(r.relationships[i].source, Ids(issues), r.issues);
      UnknownId(r.relationships[i].target, Ids(issues), r.issues);
    }
  }

  lemma UnknownId(id: string, ids: seq<string>, issues: seq<RawIssue>)
    requires |ids| == |issues| && forall i :: 0 <= i < |ids| ==> ids[i] == issues[i].id
    ensures id !in ids ==> NoIssue(id, issues)
  {
    if id !in ids {
      forall i | 0 <= i < |issues|
        ensures issues[i].id != id
      {
        assert ids[i] != id;
      }
    }
  }

  lemma KeptFields(version: Version, raw: RawIssue, i: Issue)
    requires KeepsRecord(version, raw, i)
    ensures i.id == raw.id && i.repository == raw.repository && i.itemType == raw.itemType
  {
  }

  /** Whatever code the records are refused with, that is what is wrong with them. */
  lemma RefusedBecause(version: Version, r: Records)
    requires FromRecords(version, r).Err?
    ensures RefusedFor(FromRecords(version, r).error, version, r)
  {
    hide ReadIssues, Blank, Normalize, Sorted, IssuesBelong, NoPullRequest, RelationshipsKnown, Ids, RefusedFor,
         NonEmptyTexts, NoDuplicates, RelationshipsValid;
    if Blank(r.repository) {
      ListFaults(version, r);
    } else if ReadIssues(version, r.issues).Err? {
      UnreadRefused(version, r);
    } else {
      ListFaults(version, r);
      ReadRefused(version, r);
    }
  }

  lemma ListFaults(version: Version, r: Records)
    ensures Blank(r.repository) ==> RefusedFor(ValueError("remote_repository_identity_required"), version, r)
    ensures !RelationshipsValid(r.relationships) ==>
              RefusedFor(ValueError("remote_relationship_type_required"), version, r)
    ensures !NoDuplicates(r.evidence) ==> RefusedFor(ValueError("duplicate_remote_evidence_id"), version, r)
    ensures !NonEmptyTexts(r.capabilities) || !NoDuplicates(r.capabilities) ==>
              RefusedFor(ValueError("remote_capability_set_invalid"), version, r)
  {
    hide Blank, Dangles, SharesId, IssueOfAnother, SomeRecordFault;
  }

  lemma ReadRefused(version: Version, r: Records)
    requires ReadIssues(version, r.issues).Ok?
    ensures var issues := ReadIssues(version, r.issues).value;
      && (!IssuesBelong(issues, r.repository) ==>
            RefusedFor(ValueError("remote_issue_repository_identity_mismatch"), version, r))
      && (!NoPullRequest(issues) ==> RefusedFor(ValueError("pull_request_not_issue_candidate"), version, r))
      && (!NoDuplicates(Ids(issues)) ==> RefusedFor(ValueError("duplicate_remote_issue_id"), version, r))
      && (!RelationshipsKnown(r.relationships, issues) ==>
            RefusedFor(ValueError("remote_relationship_reference_required"), version, r))
  {
    hide ReadIssues, IssuesBelong, NoPullRequest, RelationshipsKnown, NoDuplicates, Ids, Dangles, SharesId, IssueOfAnother,
         SomeRecordFault;
    ReadFaults(version, r);
    PullRequestFault(version, r);
  }

  lemma PullRequestFault(version: Version, r: Records)
    ensures (exists i :: 0 <= i < |r.issues| && r.issues[i].itemType == "pull_request") ==>
              SomeRecordFault("pull_request_not_issue_candidate", version, r)
  {
    if i :| 0 <= i < |r.issues| && r.issues[i].itemType == "pull_request" {
      assert RecordFault("pull_request_not_issue_candidate", version, r.issues[i]);
    }
  }

  // ---- fields ----

  /** The record of a snapshot keeps the fields of the record it was read from; the second version gives a missing
      body as an empty one and the state in lower case. */
  ghost predicate KeepsRecord(version: Version, raw: RawIssue, i: Issue) {
    && i.id == raw.id && i.itemType == raw.itemType && i.title == raw.title && i.updatedAt == raw.updatedAt.text
    && i.repository == raw.repository
    && match version
       case V1 => i.IssueV1?
       case V2 =>
         && i.IssueV2? && raw.RawV2? && i.numericId == raw.numericId && i.number == raw.number
         && i.body == (if raw.body.Some? then raw.body.value else "")
         && |i.state| == |raw.state| && forall k :: 0 <= k < |raw.state| ==> i.state[k] == Lower(raw.state[k])
  }

  lemma ReadKeeps(version: Version, raw: RawIssue)
    requires ReadIssue(version, raw).Ok?
    ensures KeepsRecord(version, raw, ReadIssue(version, raw).value)
  {
    hide Blank;
  }

  /** Each argument is kept in its own field, and the evidence ids sorted. */
  lemma SnapshotKeeps(version: Version, r: Records)
    requires FromRecords(version, r).Ok?
    ensures var s := FromRecords(version, r).value;
      && s.version == version && s.repository == r.repository && s.scope == Normalize(Mapping(r.scope))
      && s.queryComplete == r.queryComplete && s.paginationComplete == r.paginationComplete
      && s.permissions == r.permissions && s.capabilities == r.capabilities && s.relationships == r.relationships
      && s.observedAt == r.observedAt
      && multiset(s.evidence) == multiset(r.evidence)
      && (forall i, j :: 0 <= i < j < |s.evidence| ==> TextLe(s.evidence[i], s.evidence[j]))
      && |s.issues| == |r.issues| && forall i :: 0 <= i < |s.issues| ==> KeepsRecord(version, r.issues[i], s.issues[i])
  {
    hide ReadIssue, Blank, RelationshipsKnown, RelationshipsValid, Normalize, Sorted, IssuesBelong, NoPullRequest,
         KeepsRecord, TextLe, KeyLe, NoDuplicates;
    var s := FromRecords(version, r).value;
    SortedOrdered(r.evidence, TextKey);
    forall i, j | 0 <= i < j < |s.evidence|
      ensures TextLe(s.evidence[i], s.evidence[j])
    {
      assert KeyLe(TextKey(s.evidence[i]), TextKey(s.evidence[j]));
      SingleKey(s.evidence[i], s.evidence[j]);
    }
    forall i | 0 <= i < |s.issues|
      ensures KeepsRecord(version, r.issues[i], s.issues[i])
    {
      assert Ok(s.issues[i]) == ReadIssue(version, r.issues[i]);
      ReadKeeps(version, r.issues[i]);
    }
  }

  // ---- names ----

  lemma FieldThere(es: seq<Entry>, k: nat)
    requires k < |es|
    ensures Field(es[k].key, Normalize(es[k].value)) in Normalize(Mapping(es)).fields
  {
    hide Normalize;
    NormalizeKeeps(Mapping(es));
    var fs := NormalizeEntries(es);
    assert fs[k] == Field(es[k].key, Normalize(es[k].value));
    assert fs[k] in multiset(fs);
  }

  lemma Scalars(text: string, bit: bool, number: int)
    ensures Normalize(Str(text)) == JStr(CanonicalText.Text(text)) && Normalize(Bool(bit)) == JBool(bit)
    ensures Normalize(Int(number)) == JInt(number) && Normalize(Null) == JNull
  {
    hide CanonicalText.Text, Sorted;
  }

  /** The dictionary of a snapshot: each field under its own name. */
  lemma DictHolds(s: Snapshot)
    ensures var fields := ToDict(s).fields;
      && Field("repository_identity", JStr(CanonicalText.Text(s.repository))) in fields
      && Field("query_complete", JBool(s.queryComplete)) in fields
      && Field("pagination_complete", JBool(s.paginationComplete)) in fields
      && Field("schema_version", JStr(CanonicalText.Text(if s.version.V1? then "remote-snapshot-v1" else "remote-snapshot-v2")))
         in fields
      && Field("observed_at", if s.observedAt.Some? then JStr(CanonicalText.Text(s.observedAt.value)) else JNull) in fields
  {
    hide Normalize, CanonicalText.Text, AsValue, Sorted, IssueValue, RelationshipValue;
    var es := Covered(s) + [Observed(s)];
    Scalars(s.repository, s.queryComplete, 0);
    Scalars(SchemaVersion(s.version), s.paginationComplete, 0);
    Scalars(s.observedAt.GetOr(""), true, 0);
    FieldThere(es, 0);
    FieldThere(es, 2);
    FieldThere(es, 3);
    FieldThere(es, 9);
    FieldThere(es, 10);
  }

  /** The lists of the dictionary: the records in the order of their ids, relationships by kind, source and target. */
  lemma DictLists(s: Snapshot)
    ensures var fields := ToDict(s).fields;
      && Field("issue_records", Normalize(List(Mapped(Sorted(s.issues, (i: Issue) => [i.id]), IssueValue)))) in fields
      && Field("relationship_records",
               Normalize(List(Mapped(Sorted(s.relationships, (r: RawRelationship) => [r.kind, r.source, r.target]),
                                     RelationshipValue)))) in fields
      && Field("permissions", Normalize(Mapping(PermissionEntries(Sorted(s.permissions, (p: Permission) => [p.key]))))) in fields
      && Field("capabilities", Normalize(List(Mapped(Sorted(s.capabilities, (t: string) => [t]), (t: string) => Str(t))))) in fields
      && Field("evidence_ids", Normalize(List(Mapped(Sorted(s.evidence, (t: string) => [t]), (t: string) => Str(t))))) in fields
  {
    hide Normalize, AsValue, IssueValue, RelationshipValue, PermissionEntries;
    var es := Covered(s) + [Observed(s)];
    SameSorted(s.issues, IssueKey, (i: Issue) => [i.id]);
    SameSorted(s.relationships, RelationshipKey, (r: RawRelationship) => [r.kind, r.source, r.target]);
    SameSorted(s.permissions, PermissionKey, (p: Permission) => [p.key]);
    SameSorted(s.capabilities, TextKey, (t: string) => [t]);
    SameSorted(s.evidence, TextKey, (t: string) => [t]);
    FieldThere(es, 4);
    FieldThere(es, 5);
    FieldThere(es, 6);
    FieldThere(es, 7);
    FieldThere(es, 8);
  }

  lemma {:induction false} SameSorted<T>(s: seq<T>, key: T -> seq<string>, key': T -> seq<string>)
    requires forall x :: key(x) == key'(x)
    ensures Sorted(s, key) == Sorted(s, key')
    decreases |s|
  {
    if s != [] {
      SameSorted(s[1..], key, key');
      SameInserted(s[0], Sorted(s[1..], key), key, key');
    }
  }

  lemma {:induction false} SameInserted<T>(x: T, s: seq<T>, key: T -> seq<string>, key': T -> seq<string>)
    requires forall y :: key(y) == key'(y)
    ensures Insert(x, s, key) == Insert(x, s, key')
    decreases |s|
  {
    if s != [] {
      SameInserted(x, s[1..], key, key');
    }
  }

  /** The entries of a relationship record, and of a permission. */
  lemma RecordsHold(r: RawRelationship, ps: seq<Permission>, k: nat)
    requires k < |ps|
    ensures var fields := Normalize(RelationshipValue(r)).fields;
      && Field("kind", JStr(CanonicalText.Text(r.kind))) in fields
      && Field("from", JStr(CanonicalText.Text(r.source))) in fields
      && Field("to", JStr(CanonicalText.Text(r.target))) in fields
    ensures Field(ps[k].key, JBool(ps[k].granted)) in Normalize(Mapping(PermissionEntries(ps))).fields
  {
    hide Normalize, CanonicalText.Text;
    var es := RelationshipValue(r).entries;
    Scalars(r.kind, ps[k].granted, 0);
    Scalars(r.source, true, 0);
    Scalars(r.target, true, 0);
    FieldThere(es, 0);
    FieldThere(es, 1);
    FieldThere(es, 2);
    FieldThere(PermissionEntries(ps), k);
  }

  /** The entries of an issue record, each under its own name. */
  lemma IssueHolds(i: Issue)
    ensures var fields := Normalize(Mapping(IssueEntries(i))).fields;
      && Field("issue_id", JStr(CanonicalText.Text(i.id))) in fields
      && Field("item_type", JStr(CanonicalText.Text(i.itemType))) in fields
      && Field("title", JStr(CanonicalText.Text(i.title))) in fields
      && Field("updated_at", JStr(CanonicalText.Text(i.updatedAt))) in fields
      && Field("repository_identity", JStr(CanonicalText.Text(i.repository))) in fields
      && (i.IssueV2? ==>
            && Field("numeric_issue_id", JStr(CanonicalText.Text(i.numericId))) in fields
            && Field("issue_number", JInt(i.number)) in fields
            && Field("body", JStr(CanonicalText.Text(i.body))) in fields
            && Field("state", JStr(CanonicalText.Text(i.state))) in fields)
  {
    hide Normalize, CanonicalText.Text;
    var es := IssueEntries(i);
    Scalars(i.id, true, 0);
    Scalars(i.itemType, true, 0);
    Scalars(i.title, true, 0);
    Scalars(i.updatedAt, true, 0);
    Scalars(i.repository, true, 0);
    FieldThere(es, 0);
    FieldThere(es, 1);
    FieldThere(es, 2);
    FieldThere(es, 3);
    FieldThere(es, 4);
    if i.IssueV2? {
      Scalars(i.numericId, true, i.number);
      Scalars(i.body, true, 0);
      Scalars(i.state, true, 0);
      FieldThere(es, 5);
      FieldThere(es, 6);
      FieldThere(es, 7);
      FieldThere(es, 8);
    }
  }
}
