/** Snapshots of a remote repository, in both versions, and what their digest does and does not see. */
module RemoteSnapshot {
  import opened Outcomes
  import opened Sequences
  import opened Characters
  import opened Sorting
  import opened CanonicalText
  import opened JsonText
  import opened CanonicalValue

  datatype Version = V1 | V2

  /** A timestamp text, and whether the ISO parser reads it as an instant with a time zone. */
  datatype Timestamp = Timestamp(text: string, zoned: bool)

  datatype RawIssue =
    | RawV1(id: string, itemType: string, title: string, updatedAt: Timestamp, repository: string)
    | RawV2(id: string, numericId: string, number: int, itemType: string, title: string, body: Option<string>,
            state: string, updatedAt: Timestamp, repository: string)

  datatype Issue =
    | IssueV1(id: string, itemType: string, title: string, updatedAt: string, repository: string)
    | IssueV2(id: string, numericId: string, number: int, itemType: string, title: string, body: string,
              state: string, updatedAt: string, repository: string)

  datatype RawRelationship = RawRelationship(kind: string, source: string, target: string)

  datatype Permission = Permission(key: string, granted: bool)

  /** The arguments of `from_records`. */
  datatype Records = Records(
    repository: string,
    scope: seq<Entry>,
    queryComplete: bool,
    paginationComplete: bool,
    issues: seq<RawIssue>,
    permissions: seq<Permission>,
    capabilities: seq<string>,
    relationships: seq<RawRelationship>,
    evidence: seq<string>,
    observedAt: Option<string>)

  datatype Snapshot = Snapshot(
    version: Version,
    repository: string,
    scope: Json,
    queryComplete: bool,
    paginationComplete: bool,
    issues: seq<Issue>,
    permissions: seq<Permission>,
    capabilities: seq<string>,
    relationships: seq<RawRelationship>,
    evidence: seq<string>,
    observedAt: Option<string>)

  // ---- single records ----

  predicate NumericId(s: string) {
    1 <= |s| <= 20 && '1' <= s[0] <= '9' && forall i :: 0 <= i < |s| ==> IsDigit(s[i])
  }

  /** `from_dict` of an issue record of the snapshot's version.  The first version reads the five keys it
      knows, whatever else the record holds; the second wants exactly its own nine. */
  function ReadIssue(version: Version, raw: RawIssue): Result<Issue> {
    match (version, raw)
    case (V1, _) =>
      :- Need(raw.id != "", "remote_issue_identity_incomplete");
      :- Need(raw.itemType == "issue" || raw.itemType == "pull_request", "remote_item_type_required");
      :- Need(!Blank(raw.title), "remote_issue_title_required");
      :- Need(!Blank(raw.updatedAt.text), "remote_issue_updated_at_required");
      :- Need(!Blank(raw.repository), "remote_issue_repository_identity_required");
      :- Need(raw.updatedAt.zoned, "remote_issue_updated_at_timezone_required");
      Ok(IssueV1(raw.id, raw.itemType, raw.title, raw.updatedAt.text, raw.repository))
    case (V2, RawV2(id, numericId, number, itemType, title, body, state, updatedAt, repository)) =>
      :- Need(!Blank(id) && NumericId(numericId), "remote_issue_identity_incomplete");
      :- Need(number >= 1, "remote_issue_number_invalid");
      :- Need(itemType == "issue", "pull_request_not_issue_candidate");
      :- Need(!Blank(title), "remote_issue_title_required");
      :- Need(Fold(state) == "open" || Fold(state) == "closed", "remote_issue_state_invalid");
      :- Need(updatedAt.zoned, "remote_issue_updated_at_timezone_required");
      :- Need(!Blank(repository), "remote_issue_repository_identity_required");
      Ok(IssueV2(id, numericId, number, "issue", title, body.GetOr(""), Fold(state), updatedAt.text, repository))
    case (V2, _) => Err(ValueError("remote_snapshot_v2_issue_schema_invalid"))
  }

  function ReadIssues(version: Version, raws: seq<RawIssue>): (r: Result<seq<Issue>>)
    ensures r.Ok? <==> forall i :: 0 <= i < |raws| ==> ReadIssue(version, raws[i]).Ok?
    ensures r.Ok? ==> |r.value| == |raws| && forall i :: 0 <= i < |raws| ==> Ok(r.value[i]) == ReadIssue(version, raws[i])
  {
    if raws == [] then Ok([]) else
    assert raws == [raws[0]] + raws[1..];
    var first :- ReadIssue(version, raws[0]);
    var rest :- ReadIssues(version, raws[1..]);
    Ok([first] + rest)
  }

  predicate RelationshipValid(r: RawRelationship) {
    r.kind in {"existing_dependency", "existing_parent", "proposed_dependency_candidate", "proposed_parent_candidate"}
  }

  function Ids(issues: seq<Issue>): (ids: seq<string>)
    ensures |ids| == |issues|
    ensures forall i :: 0 <= i < |issues| ==> ids[i] == issues[i].id
  {
    seq(|issues|, i requires 0 <= i < |issues| => issues[i].id)
  }

  predicate IssuesBelong(issues: seq<Issue>, repository: string) {
    forall i :: 0 <= i < |issues| ==> issues[i].repository == repository
  }

  predicate NoPullRequest(issues: seq<Issue>) {
    forall i :: 0 <= i < |issues| ==> issues[i].itemType != "pull_request"
  }

  predicate RelationshipsKnown(relationships: seq<RawRelationship>, issues: seq<Issue>) {
    forall i :: 0 <= i < |relationships| ==>
      relationships[i].source in Ids(issues) && relationships[i].target in Ids(issues)
  }

  predicate RelationshipsValid(relationships: seq<RawRelationship>) {
    forall i :: 0 <= i < |relationships| ==> RelationshipValid(relationships[i])
  }

  function TextKey(s: string): seq<string> {
    [s]
  }

  /** `from_records`. */
  function FromRecords(version: Version, r: Records): Result<Snapshot> {
    if Blank(r.repository) then Err(ValueError("remote_repository_identity_required")) else
    var issues :- ReadIssues(version, r.issues);
    :- Need(IssuesBelong(issues, r.repository), "remote_issue_repository_identity_mismatch");
    :- Need(NoPullRequest(issues), "pull_request_not_issue_candidate");
    :- Need(NoDuplicates(Ids(issues)), "duplicate_remote_issue_id");
    :- Need(RelationshipsValid(r.relationships), "remote_relationship_type_required");
    :- Need(RelationshipsKnown(r.relationships, issues), "remote_relationship_reference_required");
    :- Need(NoDuplicates(r.evidence), "duplicate_remote_evidence_id");
    :- Need(NonEmptyTexts(r.capabilities) && NoDuplicates(r.capabilities), "remote_capability_set_invalid");
    Ok(Snapshot(version, r.repository, Normalize(Mapping(r.scope)), r.queryComplete, r.paginationComplete, issues,
                r.permissions, r.capabilities, r.relationships, Sorted(r.evidence, TextKey), r.observedAt))
  }

  // ---- the dictionary and its digest ----

  function IssueKey(i: Issue): seq<string> {
    [i.id]
  }

  function RelationshipKey(r: RawRelationship): seq<string> {
    [r.kind, r.source, r.target]
  }

  function PermissionKey(p: Permission): seq<string> {
    [p.key]
  }

  function IssueEntries(i: Issue): seq<Entry> {
    match i
    case IssueV1(id, itemType, title, updatedAt, repository) =>
      [Entry("issue_id", Str(id)), Entry("item_type", Str(itemType)), Entry("title", Str(title)),
       Entry("updated_at", Str(updatedAt)), Entry("repository_identity", Str(repository))]
    case IssueV2(id, numericId, number, itemType, title, body, state, updatedAt, repository) =>
      [Entry("issue_id", Str(id)), Entry("numeric_issue_id", Str(numericId)), Entry("issue_number", Int(number)),
       Entry("item_type", Str(itemType)), Entry("title", Str(title)), Entry("body", Str(body)),
       Entry("state", Str(state)), Entry("updated_at", Str(updatedAt)), Entry("repository_identity", Str(repository))]
  }

  /** `to_dict` of a record; the second version normalises it already. */
  function IssueValue(i: Issue): Value {
    if i.IssueV1? then Mapping(IssueEntries(i)) else AsValue(Normalize(Mapping(IssueEntries(i))))
  }

  function RelationshipValue(r: RawRelationship): Value {
    Mapping([Entry("kind", Str(r.kind)), Entry("from", Str(r.source)), Entry("to", Str(r.target))])
  }

  function PermissionEntries(ps: seq<Permission>): seq<Entry> {
    seq(|ps|, i requires 0 <= i < |ps| => Entry(ps[i].key, Bool(ps[i].granted)))
  }

  function SchemaVersion(v: Version): string {
    if v.V1? then "remote-snapshot-v1" else "remote-snapshot-v2"
  }

  /** The entries the digest covers. */
  function Covered(s: Snapshot): seq<Entry> {
    [Entry("repository_identity", Str(s.repository)),
     Entry("query_scope", AsValue(Normalize(AsValue(s.scope)))),
     Entry("query_complete", Bool(s.queryComplete)),
     Entry("pagination_complete", Bool(s.paginationComplete)),
     Entry("issue_records", List(Mapped(Sorted(s.issues, IssueKey), IssueValue))),
     Entry("permissions", Mapping(PermissionEntries(Sorted(s.permissions, PermissionKey)))),
     Entry("capabilities", List(Mapped(Sorted(s.capabilities, TextKey), (t: string) => Str(t)))),
     Entry("relationship_records", List(Mapped(Sorted(s.relationships, RelationshipKey), RelationshipValue))),
     Entry("evidence_ids", List(Mapped(Sorted(s.evidence, TextKey), (t: string) => Str(t)))),
     Entry("schema_version", Str(SchemaVersion(s.version)))]
  }

  function Observed(s: Snapshot): Entry {
    Entry("observed_at", if s.observedAt.Some? then Str(s.observedAt.value) else Null)
  }

  /** `to_dict`. */
  function ToDict(s: Snapshot): (d: Json)
    ensures d.JObj?
  {
    Normalize(Mapping(Covered(s) + [Observed(s)]))
  }

  /** `payload.pop(key)`. */
  function Pop(fields: seq<Field>, key: string): seq<Field> {
    if fields == [] then []
    else if fields[0].key == key then Pop(fields[1..], key)
    else [fields[0]] + Pop(fields[1..], key)
  }

  /** The text whose hash `digest` is. */
  function DigestText(s: Snapshot): string {
    Payload(AsValue(JObj(Pop(ToDict(s).fields, "observed_at"))))
  }

  // ---- what the digest covers ----

  lemma {:induction false} PopInserted(f: Field, fields: seq<Field>, key: string)
    ensures Pop(Insert(f, fields, FieldKey), key) ==
              if f.key == key then Pop(fields, key) else Pop(Insert(f, fields, FieldKey), key)
    decreases |fields|
  {
    if f.key == key && fields != [] && !KeyLe(FieldKey(f), FieldKey(fields[0])) {
      PopInserted(f, fields[1..], key);
    } else if f.key == key {
      assert ([f] + fields)[1..] == fields;
    }
  }

  lemma {:induction false} PopAbsent(fields: seq<Field>, key: string)
    requires forall i :: 0 <= i < |fields| ==> fields[i].key != key
    ensures Pop(fields, key) == fields
    decreases |fields|
  {
    if fields != [] {
      PopAbsent(fields[1..], key);
    }
  }

  lemma SortedKeys(fs: seq<Field>, key: string)
    requires forall i :: 0 <= i < |fs| ==> fs[i].key != key
    ensures var s := Sorted(fs, FieldKey); forall i :: 0 <= i < |s| ==> s[i].key != key
  {
    var s := Sorted(fs, FieldKey);
    forall i | 0 <= i < |s|
      ensures s[i].key != key
    {
      assert s[i] in multiset(s);
      assert s[i] in fs;
    }
  }

  /** Sorting a mapping and dropping a key is sorting the mapping without it. */
  lemma PopOfSorted(fs: seq<Field>, f: Field)
    requires forall i :: 0 <= i < |fs| ==> fs[i].key != f.key
    requires DistinctFields(fs)
    ensures Pop(Sorted(fs + [f], FieldKey), f.key) == Sorted(fs, FieldKey)
  {
    hide Sorted, Insert, Pop;
    FieldsByKey(fs + [f]);
    DistinctDistinguishes(fs + [f], FieldKey);
    SortedForgetsOrder(fs + [f], [f] + fs, FieldKey);
    SortedCons(f, fs, FieldKey);
    PopInserted(f, Sorted(fs, FieldKey), f.key);
    SortedKeys(fs, f.key);
    PopAbsent(Sorted(fs, FieldKey), f.key);
  }

  /** Keys told apart by their length and first character. */
  lemma MarkedKeys(es: seq<Entry>, lengths: seq<nat>, firsts: string)
    requires |es| == |lengths| == |firsts|
    requires forall i :: 0 <= i < |es| ==> 0 < |es[i].key| == lengths[i] && es[i].key[0] == firsts[i]
    requires forall i, j :: 0 <= i < j < |es| ==> lengths[i] != lengths[j] || firsts[i] != firsts[j]
    ensures DistinctKeys(es)
  {
  }

  /** A snapshot whose scope is normalised and whose permissions name each key once. */
  ghost predicate SnapshotValid(s: Snapshot) {
    Normal(s.scope) && DistinctBy(s.permissions, PermissionKey)
  }

  lemma {:induction false} NormalIsWellFormed(j: Json)
    requires Normal(j)
    ensures WellFormed(AsValue(j))
    decreases j
  {
    match j
    case JArr(items) =>
      forall i | 0 <= i < |items| ensures WellFormed(AsValue(items[i])) { NormalIsWellFormed(items[i]); }
    case JObj(fields) =>
      forall i | 0 <= i < |fields| ensures WellFormed(AsValue(fields[i].value)) { NormalIsWellFormed(fields[i].value); }
    case _ =>
  }

  lemma IssueEntriesWellFormed(i: Issue)
    ensures WellFormed(Mapping(IssueEntries(i)))
  {
    var es := IssueEntries(i);
    if i.IssueV1? {
      MarkedKeys(es, [8, 9, 5, 10, 19], "iitur");
    } else {
      MarkedKeys(es, [8, 16, 12, 9, 5, 4, 5, 10, 19], "iniitbsur");
    }
  }

  lemma IssueWellFormed(i: Issue)
    ensures WellFormed(IssueValue(i))
  {
    hide IssueEntries, Normalize, AsValue, WellFormed, Normal;
    IssueEntriesWellFormed(i);
    NormalizeIsNormal(Mapping(IssueEntries(i)));
    NormalIsWellFormed(Normalize(Mapping(IssueEntries(i))));
  }

  lemma RelationshipWellFormed(r: RawRelationship)
    ensures WellFormed(RelationshipValue(r))
  {
    MarkedKeys(RelationshipValue(r).entries, [4, 4, 2], "kft");
  }

  lemma PermissionsWellFormed(ps: seq<Permission>)
    requires DistinctBy(ps, PermissionKey)
    ensures WellFormed(Mapping(PermissionEntries(Sorted(ps, PermissionKey))))
  {
    var sorted := Sorted(ps, PermissionKey);
    DistinctForgetsOrder(ps, sorted, PermissionKey);
    var es := PermissionEntries(sorted);
    forall i, j | 0 <= i < j < |es|
      ensures es[i].key != es[j].key
    {
      assert PermissionKey(sorted[i]) != PermissionKey(sorted[j]);
    }
  }

  lemma CoveredKeys(s: Snapshot)
    ensures DistinctKeys(Covered(s)) && |Covered(s)| == 10
  {
    hide Normalize, AsValue, Sorted;
    MarkedKeys(Covered(s), [19, 11, 14, 19, 13, 11, 12, 20, 12, 14], "rqqpipcres");
  }

  lemma ScopeWellFormed(s: Snapshot)
    requires SnapshotValid(s)
    ensures WellFormed(AsValue(Normalize(AsValue(s.scope))))
  {
    hide Normalize, AsValue, Normal, WellFormed;
    NormalIsWellFormed(s.scope);
    NormalizeIsNormal(AsValue(s.scope));
    NormalIsWellFormed(Normalize(AsValue(s.scope)));
  }

  lemma ListsWellFormed(s: Snapshot)
    ensures WellFormed(List(Mapped(Sorted(s.issues, IssueKey), IssueValue)))
    ensures WellFormed(List(Mapped(Sorted(s.relationships, RelationshipKey), RelationshipValue)))
  {
    hide IssueValue, RelationshipValue, Sorted;
    forall i: Issue ensures WellFormed(IssueValue(i)) { IssueWellFormed(i); }
    forall r: RawRelationship ensures WellFormed(RelationshipValue(r)) { RelationshipWellFormed(r); }
  }

  lemma CoveredWellFormed(s: Snapshot)
    requires SnapshotValid(s)
    ensures WellFormed(Mapping(Covered(s)))
  {
    hide Normalize, AsValue, Sorted, IssueValue, RelationshipValue, Normal;
    CoveredKeys(s);
    ScopeWellFormed(s);
    PermissionsWellFormed(s.permissions);
    ListsWellFormed(s);
    var es := Covered(s);
    assert WellFormed(es[0].value) && WellFormed(es[1].value) && WellFormed(es[2].value) && WellFormed(es[3].value);
    assert WellFormed(es[4].value) && WellFormed(es[5].value) && WellFormed(es[6].value);
    assert WellFormed(es[7].value) && WellFormed(es[8].value) && WellFormed(es[9].value);
  }

  /** The digest text is the canonical text of the covered entries: `observed_at` has no part in it. */
  lemma DigestCovers(s: Snapshot)
    requires SnapshotValid(s)
    ensures DigestText(s) == Payload(Mapping(Covered(s)))
  {
    hide Covered, Observed, Normalize, Print, AsValue, Sorted, Pop;
    CoveredWellFormed(s);
    CoveredKeys(s);
    KeysOfCovered(s);
    var covered := Covered(s);
    var fs, f := NormalizeEntries(covered), NormalizeEntries([Observed(s)])[0];
    assert NormalizeEntries(covered + [Observed(s)]) == fs + [f];
    NormalizeMapping(covered + [Observed(s)]);
    NormalizeMapping(covered);
    PopOfSorted(fs, f);
    NormalizeFixesExactlyNormal(Mapping(covered), JNull);
  }

  lemma NormalizeMapping(es: seq<Entry>)
    ensures Normalize(Mapping(es)) == JObj(Sorted(NormalizeEntries(es), FieldKey))
  {
  }

  lemma KeysOfCovered(s: Snapshot)
    ensures Observed(s).key == "observed_at"
    ensures forall i :: 0 <= i < |Covered(s)| ==> Covered(s)[i].key != "observed_at"
  {
    hide Normalize, AsValue, Sorted;
    MarkedKeys(Covered(s) + [Observed(s)], [19, 11, 14, 19, 13, 11, 12, 20, 12, 14, 11], "rqqpipcreso");
    var es := Covered(s) + [Observed(s)];
    assert es[10] == Observed(s);
    forall i | 0 <= i < |Covered(s)|
      ensures Covered(s)[i].key != "observed_at"
    {
      assert es[i].key != es[10].key;
    }
  }

  lemma SameCoveredKeys(s: Snapshot, s': Snapshot)
    ensures |Covered(s)| == |Covered(s')| == 10
    ensures forall i :: 0 <= i < 10 ==> Covered(s)[i].key == Covered(s')[i].key
  {
    hide Normalize, AsValue, Sorted;
    var es, es' := Covered(s), Covered(s');
    assert es[0].key == es'[0].key && es[1].key == es'[1].key && es[2].key == es'[2].key;
    assert es[3].key == es'[3].key && es[4].key == es'[4].key && es[5].key == es'[5].key;
    assert es[6].key == es'[6].key && es[7].key == es'[7].key && es[8].key == es'[8].key && es[9].key == es'[9].key;
  }

  /** Fields with the same keys in the same places, and the same elements, agree place by place. */
  lemma SameFieldAt(fs: seq<Field>, fs': seq<Field>, i: nat)
    requires multiset(fs) == multiset(fs') && |fs| == |fs'| && i < |fs| && DistinctFields(fs)
    requires forall j :: 0 <= j < |fs| ==> fs[j].key == fs'[j].key
    ensures fs[i] == fs'[i]
  {
    assert fs[i] in multiset(fs');
    var j :| 0 <= j < |fs'| && fs'[j] == fs[i];
    assert fs[j].key == fs[i].key;
  }

  /** A mapping's canonical text determines the normalised value of each key. */
  lemma MappingDecides(es: seq<Entry>, es': seq<Entry>)
    requires DistinctKeys(es) && |es| == |es'| && forall i :: 0 <= i < |es| ==> es[i].key == es'[i].key
    ensures Normalize(Mapping(es)) == Normalize(Mapping(es')) <==>
              forall i :: 0 <= i < |es| ==> Normalize(es[i].value) == Normalize(es'[i].value)
  {
    hide Normalize, Sorted, NormalizeEntries;
    var fs, fs' := NormalizeEntries(es), NormalizeEntries(es');
    NormalizeMapping(es);
    NormalizeMapping(es');
    if Normalize(Mapping(es)) == Normalize(Mapping(es')) {
      assert multiset(fs) == multiset(fs');
      forall i | 0 <= i < |es|
        ensures Normalize(es[i].value) == Normalize(es'[i].value)
      {
        SameFieldAt(fs, fs', i);
      }
    }
    if forall i :: 0 <= i < |es| ==> Normalize(es[i].value) == Normalize(es'[i].value) {
      assert fs == fs';
    }
  }

  /** Snapshots have the same digest exactly when every covered entry normalises alike. */
  lemma DigestDecides(s: Snapshot, s': Snapshot)
    requires SnapshotValid(s) && SnapshotValid(s')
    ensures DigestText(s) == DigestText(s') <==>
              (|Covered(s)| == |Covered(s')| == 10
               && forall i :: 0 <= i < 10 ==> Normalize(Covered(s)[i].value) == Normalize(Covered(s')[i].value))
  {
    hide Covered, Normalize, Payload;
    DigestCovers(s);
    DigestCovers(s');
    CoveredKeys(s);
    SameCoveredKeys(s, s');
    MappingDecides(Covered(s), Covered(s'));
    PayloadDecides(Mapping(Covered(s)), Mapping(Covered(s')));
  }

  // ---- the order of the records ----

  /** The same records in another order. */
  ghost predicate SameRecords(r: Records, r': Records) {
    && r.repository == r'.repository && r.queryComplete == r'.queryComplete
    && r.paginationComplete == r'.paginationComplete
    && multiset(r.issues) == multiset(r'.issues)
    && multiset(r.permissions) == multiset(r'.permissions)
    && multiset(r.capabilities) == multiset(r'.capabilities)
    && multiset(r.relationships) == multiset(r'.relationships)
    && multiset(r.evidence) == multiset(r'.evidence)
  }

  /** The same records in another order, a scope that differs in insertion and iteration order only, and
      any time of observation. */
  ghost predicate Shuffled(r: Records, r': Records) {
    SameRecords(r, r') && Reordered(Mapping(r.scope), Mapping(r'.scope))
  }

  /** What a Python call guarantees of its mapping arguments. */
  ghost predicate RecordsWellFormed(r: Records) {
    WellFormed(Mapping(r.scope)) && DistinctBy(r.permissions, PermissionKey)
  }

  function Converted(version: Version, raw: RawIssue): Issue {
    var r := ReadIssue(version, raw);
    if r.Ok? then r.value else IssueV1("", "", "", "", "")
  }

  lemma SameMembers<T>(s: seq<T>, t: seq<T>)
    requires multiset(s) == multiset(t)
    ensures forall x :: x in s <==> x in t
  {
    forall x
      ensures x in s <==> x in t
    {
      assert x in s <==> x in multiset(s);
      assert x in t <==> x in multiset(t);
    }
  }

  lemma TextsDistinct(s: seq<string>)
    ensures NoDuplicates(s) <==> DistinctBy(s, TextKey)
  {
    forall i, j | 0 <= i < j < |s|
      ensures TextKey(s[i]) == TextKey(s[j]) <==> s[i] == s[j]
    {
      assert TextKey(s[i])[0] == s[i] && TextKey(s[j])[0] == s[j];
    }
  }

  lemma TextsForgetOrder(s: seq<string>, t: seq<string>)
    requires multiset(s) == multiset(t)
    ensures NoDuplicates(s) ==> NoDuplicates(t)
    ensures Sorted(s, TextKey) == Sorted(t, TextKey)
  {
    TextsDistinct(s);
    TextsDistinct(t);
    if NoDuplicates(s) {
      DistinctForgetsOrder(s, t, TextKey);
    }
    forall i, j | 0 <= i < |s| && 0 <= j < |s| && TextKey(s[i]) == TextKey(s[j])
      ensures s[i] == s[j]
    {
      assert TextKey(s[i])[0] == TextKey(s[j])[0];
    }
    SortedForgetsOrder(s, t, TextKey);
  }

  lemma IdsDistinct(issues: seq<Issue>)
    ensures NoDuplicates(Ids(issues)) <==> DistinctBy(issues, IssueKey)
  {
    forall i, j | 0 <= i < j < |issues|
      ensures IssueKey(issues[i]) == IssueKey(issues[j]) <==> Ids(issues)[i] == Ids(issues)[j]
    {
      assert IssueKey(issues[i])[0] == issues[i].id && IssueKey(issues[j])[0] == issues[j].id;
    }
  }

  /** Reading shuffled issue records succeeds alike and gives the same issues. */
  lemma ShuffledIssues(version: Version, raws: seq<RawIssue>, raws': seq<RawIssue>)
    requires multiset(raws) == multiset(raws') && ReadIssues(version, raws).Ok?
    ensures ReadIssues(version, raws').Ok?
    ensures multiset(ReadIssues(version, raws).value) == multiset(ReadIssues(version, raws').value)
  {
    hide ReadIssue;
    SameMembers(raws, raws');
    forall i | 0 <= i < |raws'|
      ensures ReadIssue(version, raws'[i]).Ok?
    {
      assert raws'[i] in raws;
    }
    var f := raw => Converted(version, raw);
    assert ReadIssues(version, raws).value == Mapped(raws, f);
    assert ReadIssues(version, raws').value == Mapped(raws', f);
    MappedSameElements(raws, raws', f);
  }

  /** The checks on the issues as a whole do not see their order. */
  lemma ShuffledChecks(issues: seq<Issue>, issues': seq<Issue>, repository: string)
    requires multiset(issues) == multiset(issues')
    requires IssuesBelong(issues, repository) && NoPullRequest(issues) && NoDuplicates(Ids(issues))
    ensures IssuesBelong(issues', repository) && NoPullRequest(issues') && NoDuplicates(Ids(issues'))
    ensures Sorted(issues, IssueKey) == Sorted(issues', IssueKey)
  {
    SameMembers(issues, issues');
    forall i | 0 <= i < |issues'|
      ensures issues'[i].repository == repository && issues'[i].itemType != "pull_request"
    {
      assert issues'[i] in issues;
    }
    IdsDistinct(issues);
    IdsDistinct(issues');
    DistinctForgetsOrder(issues, issues', IssueKey);
    DistinctDistinguishes(issues, IssueKey);
    SortedForgetsOrder(issues, issues', IssueKey);
  }

  lemma ShuffledRelationships(rs: seq<RawRelationship>, rs': seq<RawRelationship>, issues: seq<Issue>,
                              issues': seq<Issue>)
    requires multiset(rs) == multiset(rs') && multiset(issues) == multiset(issues')
    requires RelationshipsValid(rs) && RelationshipsKnown(rs, issues)
    ensures RelationshipsValid(rs') && RelationshipsKnown(rs', issues')
    ensures Sorted(rs, RelationshipKey) == Sorted(rs', RelationshipKey)
  {
    SameMembers(rs, rs');
    SameMembers(issues, issues');
    forall i | 0 <= i < |rs'|
      ensures RelationshipValid(rs'[i]) && rs'[i].source in Ids(issues') && rs'[i].target in Ids(issues')
    {
      assert rs'[i] in rs;
      IdKnown(issues, issues', rs'[i].source);
      IdKnown(issues, issues', rs'[i].target);
    }
    forall i, j | 0 <= i < |rs| && 0 <= j < |rs| && RelationshipKey(rs[i]) == RelationshipKey(rs[j])
      ensures rs[i] == rs[j]
    {
      var x, y := RelationshipKey(rs[i]), RelationshipKey(rs[j]);
      assert x[0] == y[0] && x[1] == y[1] && x[2] == y[2];
    }
    SortedForgetsOrder(rs, rs', RelationshipKey);
  }

  lemma IdKnown(issues: seq<Issue>, issues': seq<Issue>, id: string)
    requires forall x :: x in issues ==> x in issues'
    requires id in Ids(issues)
    ensures id in Ids(issues')
  {
    var i :| 0 <= i < |issues| && Ids(issues)[i] == id;
    assert issues[i] in issues';
    var j :| 0 <= j < |issues'| && issues'[j] == issues[i];
    assert Ids(issues')[j] == id;
  }

  lemma ShuffledCapabilities(cs: seq<string>, cs': seq<string>)
    requires multiset(cs) == multiset(cs') && NonEmptyTexts(cs)
    ensures NonEmptyTexts(cs')
  {
    SameMembers(cs, cs');
    forall i | 0 <= i < |cs'|
      ensures cs'[i] != ""
    {
      assert cs'[i] in cs;
    }
  }

  lemma ShuffledAccepted(version: Version, r: Records, r': Records)
    requires SameRecords(r, r') && FromRecords(version, r).Ok?
    ensures FromRecords(version, r').Ok?
    ensures var s, s' := FromRecords(version, r).value, FromRecords(version, r').value;
      && Sorted(s.issues, IssueKey) == Sorted(s'.issues, IssueKey)
      && Sorted(s.relationships, RelationshipKey) == Sorted(s'.relationships, RelationshipKey)
      && Sorted(s.capabilities, TextKey) == Sorted(s'.capabilities, TextKey)
      && s.evidence == s'.evidence
  {
    hide Sorted, Normalize, ReadIssues, IssuesBelong, NoPullRequest, RelationshipsKnown, RelationshipsValid, NoDuplicates,
         NonEmptyTexts;
    ShuffledIssues(version, r.issues, r'.issues);
    var issues, issues' := ReadIssues(version, r.issues).value, ReadIssues(version, r'.issues).value;
    ShuffledChecks(issues, issues', r.repository);
    ShuffledRelationships(r.relationships, r'.relationships, issues, issues');
    TextsForgetOrder(r.evidence, r'.evidence);
    TextsForgetOrder(r.capabilities, r'.capabilities);
    ShuffledCapabilities(r.capabilities, r'.capabilities);
  }

  lemma ArgumentsKept(version: Version, r: Records)
    requires FromRecords(version, r).Ok?
    ensures var s := FromRecords(version, r).value;
      && s.version == version && s.repository == r.repository && s.scope == Normalize(Mapping(r.scope))
      && s.queryComplete == r.queryComplete && s.paginationComplete == r.paginationComplete
      && s.permissions == r.permissions
  {
    hide Normalize, ReadIssues, NoDuplicates, Sorted, RelationshipsKnown, RelationshipsValid;
  }

  lemma ShuffledCovered(version: Version, r: Records, r': Records)
    requires RecordsWellFormed(r) && Shuffled(r, r') && FromRecords(version, r).Ok?
    ensures FromRecords(version, r').Ok?
    ensures var s, s' := FromRecords(version, r).value, FromRecords(version, r').value;
      Covered(s) == Covered(s') && s.scope == s'.scope
  {
    hide Sorted, Normalize, FromRecords, Reordered, WellFormed, SameRecords, Covered;
    ShuffledAccepted(version, r, r');
    ArgumentsKept(version, r);
    ArgumentsKept(version, r');
    SamePermissions(r, r');
    NormalizeForgetsOrder(Mapping(r.scope), Mapping(r'.scope));
    SameCovered(FromRecords(version, r).value, FromRecords(version, r').value);
  }

  lemma SameCovered(s: Snapshot, s': Snapshot)
    requires s.version == s'.version && s.repository == s'.repository && s.scope == s'.scope
    requires s.queryComplete == s'.queryComplete && s.paginationComplete == s'.paginationComplete
    requires Sorted(s.issues, IssueKey) == Sorted(s'.issues, IssueKey)
    requires Sorted(s.permissions, PermissionKey) == Sorted(s'.permissions, PermissionKey)
    requires Sorted(s.relationships, RelationshipKey) == Sorted(s'.relationships, RelationshipKey)
    requires Sorted(s.capabilities, TextKey) == Sorted(s'.capabilities, TextKey)
    requires s.evidence == s'.evidence
    ensures Covered(s) == Covered(s')
  {
    hide Sorted, Normalize, AsValue;
  }

  lemma SamePermissions(r: Records, r': Records)
    requires SameRecords(r, r') && DistinctBy(r.permissions, PermissionKey)
    ensures Sorted(r.permissions, PermissionKey) == Sorted(r'.permissions, PermissionKey)
    ensures DistinctBy(r'.permissions, PermissionKey)
    ensures r.repository == r'.repository && r.queryComplete == r'.queryComplete && r.paginationComplete == r'.paginationComplete
  {
    DistinctDistinguishes(r.permissions, PermissionKey);
    SortedForgetsOrder(r.permissions, r'.permissions, PermissionKey);
    DistinctForgetsOrder(r.permissions, r'.permissions, PermissionKey);
  }

  lemma AcceptedValid(version: Version, r: Records)
    requires RecordsWellFormed(r) && FromRecords(version, r).Ok?
    ensures SnapshotValid(FromRecords(version, r).value)
  {
    hide Normalize, WellFormed, Normal, ReadIssues, NoDuplicates, Sorted, RelationshipsKnown, RelationshipsValid;
    NormalizeIsNormal(Mapping(r.scope));
  }

  /** Neither the order of issue records, relationships, permissions, capabilities, evidence or scope
      entries, nor the time of observation, decides whether records make a snapshot, or changes its digest. */
  lemma DigestForgetsOrder(version: Version, r: Records, r': Records)
    requires RecordsWellFormed(r) && Shuffled(r, r')
    ensures FromRecords(version, r).Ok? <==> FromRecords(version, r').Ok?
    ensures FromRecords(version, r).Ok? ==>
              DigestText(FromRecords(version, r).value) == DigestText(FromRecords(version, r').value)
  {
    hide DigestText, Covered, FromRecords, Normal;
    if FromRecords(version, r').Ok? {
      ShuffledAccepted(version, r', r);
    }
    if FromRecords(version, r).Ok? {
      ShuffledCovered(version, r, r');
      AcceptedValid(version, r);
      SamePermissions(r, r');
      ArgumentsKept(version, r');
      DigestCovers(FromRecords(version, r).value);
      DigestCovers(FromRecords(version, r').value);
    }
  }
}
