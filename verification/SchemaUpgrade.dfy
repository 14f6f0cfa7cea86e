/** The schema of one database file: the shapes that are recognised, and the three upgrade calls. */
module SchemaUpgrade {
  import opened Outcomes
  import opened Sequences

  /** The tables and indexes that the scripts define, the renamed tables of a migration, and any other. */
  datatype Name =
    | StoreMeta | ItemLineage | RecordsTable | AuditHistory
    | Artifacts | References | Events
    | ArtifactPreviewIndex | ArtifactDigestIndex | ReferenceBindingIndex | EventSequenceIndex
    | Executions | Attempts | Receipts | ApplicationReceipts
    | ExecutionIndex | AttemptIndex | ReceiptIndex | ApplicationReceiptIndex
    | Bindings | BindingOperations | BindingParentIndex
    | Renamed(of_: Name)
    | Foreign(text: string)

  /** How an object is defined: as the current scripts define it, as the first version-4 layout did, or otherwise. */
  datatype Definition = Canonical | LegacyLayout | Other(text: string)

  datatype Meta = Meta(version: int, workspace: string)

  /** A row of an attestation table: the contract version it records, the two columns that the first version-4
      layout lacks, and all other columns, of which `sound` says that they meet every constraint of the
      current definition that names them only. */
  datatype Row = Row(version: string, challenge: Option<string>, principal: Option<string>, others: string, sound: bool)

  datatype Rows = Rows(artifacts: seq<Row>, references: seq<Row>, events: seq<Row>)

  const NO_ROWS := Rows([], [], [])

  /** `rowWorkspaces` are the workspaces that rows of the version-3 tables name. */
  datatype Database = Database(objects: map<Name, Definition>, meta: Option<Meta>, rowWorkspaces: set<string>,
                               rows: Rows, userVersion: int, applicationId: int)

  const BASE := [StoreMeta, ItemLineage, RecordsTable, AuditHistory]
  const ATTESTATION_TABLES := [Artifacts, References, Events]
  const ATTESTATION_INDEXES := [ArtifactPreviewIndex, ArtifactDigestIndex, ReferenceBindingIndex, EventSequenceIndex]
  const ATTESTATION := ATTESTATION_TABLES + ATTESTATION_INDEXES
  const EXECUTION := [Executions, Attempts, Receipts, ApplicationReceipts,
                      ExecutionIndex, AttemptIndex, ReceiptIndex, ApplicationReceiptIndex]
  const AUTHORITY := [Bindings, BindingOperations, BindingParentIndex]

  const SHAPE_MISMATCH := "attestation_persistence_schema_shape_mismatch"
  const METADATA_CORRUPT := "attestation_persistence_schema_metadata_corrupt"
  const UNSUPPORTED := "attestation_persistence_schema_version_unsupported"
  const WORKSPACE_MISMATCH := "attestation_persistence_workspace_mismatch"
  const MIGRATION_FAILED := "attestation_persistence_migration_failed"
  const OPERATIONAL := "attestation_persistence_sqlite_operational"

  // ---- fingerprints ----

  function Shape(names: seq<Name>, definition: Definition): map<Name, Definition> {
    map name | name in names :: definition
  }

  predicate Unmarked(db: Database) {
    db.userVersion == 0 && db.applicationId == 0
  }

  predicate V3Fingerprint(db: Database) {
    db.objects == Shape(BASE, Canonical)
  }

  predicate V4Fingerprint(db: Database) {
    Unmarked(db) && db.objects == Shape(BASE + ATTESTATION, Canonical)
  }

  predicate V6Fingerprint(db: Database) {
    Unmarked(db) && db.objects == Shape(BASE + ATTESTATION + EXECUTION, Canonical)
  }

  predicate V7Fingerprint(db: Database) {
    Unmarked(db) && db.objects == Shape(BASE + ATTESTATION + EXECUTION + AUTHORITY, Canonical)
  }

  function LegacyObjects(): map<Name, Definition> {
    Shape(BASE + ATTESTATION_INDEXES, Canonical) + Shape(ATTESTATION_TABLES, LegacyLayout)
  }

  predicate LegacyFingerprint(db: Database) {
    db.meta.Some? && db.meta.value.version == 4 && db.objects == LegacyObjects()
  }

  function WithVersion(db: Database, version: int): Database
    requires db.meta.Some?
  {
    db.(meta := Some(db.meta.value.(version := version)))
  }

  function Reshaped(db: Database, names: seq<Name>, version: int): Database
    requires db.meta.Some?
  {
    WithVersion(db.(objects := Shape(names, Canonical)), version)
  }

  // ---- rows and their constraints ----

  /** The constraint that ties the two added columns to the contract version. */
  predicate VersionFits(row: Row, first: string, second: string) {
    || (row.version == first && row.challenge.None? && row.principal.None?)
    || (row.version == second && row.challenge.Some? && row.principal.Some?)
  }

  /** The constraints of the current definition of a table. */
  predicate Admits(table: Name, row: Row) {
    && row.sound
    && (table == Artifacts ==> VersionFits(row, "1", "2"))
    && (table == References ==>
          VersionFits(row, "attestation-binding-reference-v1", "attestation-binding-reference-v2"))
  }

  /** A row as the migration copies it: the added columns are NULL. */
  function Padded(row: Row): Row {
    row.(challenge := None, principal := None)
  }

  predicate Admitted(table: Name, rows: seq<Row>) {
    forall i :: 0 <= i < |rows| ==> Admits(table, Padded(rows[i]))
  }

  /** What a query can tell before the call: every row records the first contract version and is sound. */
  predicate RowsMigrate(rows: Rows) {
    && (forall i :: 0 <= i < |rows.artifacts| ==> rows.artifacts[i].sound && rows.artifacts[i].version == "1")
    && (forall i :: 0 <= i < |rows.references| ==>
          rows.references[i].sound && rows.references[i].version == "attestation-binding-reference-v1")
    && (forall i :: 0 <= i < |rows.events| ==> rows.events[i].sound)
  }

  /** Rows of a layout that has no added columns. */
  ghost predicate Unpadded(rows: Rows) {
    forall row :: row in rows.artifacts || row in rows.references ==> row.challenge.None? && row.principal.None?
  }

  const INTEGRITY := Fault("IntegrityError")

  // ---- the three upgrades, each as one transaction ----

  function Metadata(db: Database): Result<Meta> {
    if db.meta.None? || db.meta.value.version < 0 then Err(ValueError(METADATA_CORRUPT)) else Ok(db.meta.value)
  }

  /** The transaction of `ensure_schema_v4`. */
  function Upgrade4(db: Database, expected: string): Result<Database> {
    if !Unmarked(db) then Err(ValueError(SHAPE_MISMATCH))
    else if db.objects == map[] then
      Ok(Database(Shape(BASE + ATTESTATION, Canonical), Some(Meta(5, expected)), {expected}, NO_ROWS, 0, 0))
    else if StoreMeta !in db.objects then Err(ValueError(SHAPE_MISMATCH))
    else if Metadata(db).Err? then Err(Metadata(db).error)
    else
      var version, workspace := db.meta.value.version, db.meta.value.workspace;
      if version == 7 then
        if workspace != expected || !V7Fingerprint(db) then Err(ValueError(SHAPE_MISMATCH)) else Ok(db)
      else if version == 6 then
        if workspace != expected || !V6Fingerprint(db) then Err(ValueError(SHAPE_MISMATCH)) else Ok(db)
      else if version > 7 then Err(ValueError(UNSUPPORTED))
      else if V3Fingerprint(db) then
        if version != 3 then Err(ValueError(METADATA_CORRUPT))
        else if !(db.rowWorkspaces + {workspace} <= {expected}) then Err(ValueError(WORKSPACE_MISMATCH))
        else Ok(Reshaped(db, BASE + ATTESTATION, 5))
      else if LegacyFingerprint(db) then
        if workspace != expected then Err(ValueError(WORKSPACE_MISMATCH))
        else if !RowsMigrate(db.rows) then Err(INTEGRITY)
        else Ok(Reshaped(db, BASE + ATTESTATION, 5))
      else if V4Fingerprint(db) then
        if version != 4 && version != 5 then Err(ValueError(METADATA_CORRUPT))
        else if workspace != expected then Err(ValueError(WORKSPACE_MISMATCH))
        else Ok(WithVersion(db, 5))
      else Err(ValueError(SHAPE_MISMATCH))
  }

  /** The transaction that `ensure_schema_v6` adds. */
  function Upgrade6(db: Database, expected: string): Result<Database> {
    var meta :- Metadata(db);
    if meta.workspace != expected then Err(ValueError(WORKSPACE_MISMATCH))
    else if meta.version == 7 then if V7Fingerprint(db) then Ok(db) else Err(ValueError(SHAPE_MISMATCH))
    else if meta.version == 6 then if V6Fingerprint(db) then Ok(db) else Err(ValueError(SHAPE_MISMATCH))
    else if meta.version != 5 || !V4Fingerprint(db) then Err(ValueError(UNSUPPORTED))
    else Ok(Reshaped(db, BASE + ATTESTATION + EXECUTION, 6))
  }

  /** The transaction that `ensure_schema_v7` adds. */
  function Upgrade7(db: Database, expected: string): Result<Database> {
    var meta :- Metadata(db);
    if meta.workspace != expected then Err(ValueError(WORKSPACE_MISMATCH))
    else if meta.version == 7 then if V7Fingerprint(db) then Ok(db) else Err(ValueError(SHAPE_MISMATCH))
    else if meta.version != 6 || !V6Fingerprint(db) then Err(ValueError(UNSUPPORTED))
    else Ok(Reshaped(db, BASE + ATTESTATION + EXECUTION + AUTHORITY, 7))
  }

  /** One of the three transactions. */
  datatype Level = To5 | To6 | To7

  function Target(level: Level): int {
    match level
    case To5 => 5
    case To6 => 6
    case To7 => 7
  }

  function Upgrade(db: Database, level: Level, expected: string): Result<Database> {
    match level
    case To5 => Upgrade4(db, expected)
    case To6 => Upgrade6(db, expected)
    case To7 => Upgrade7(db, expected)
  }

  // ---- recognised databases ----

  function VersionOf(db: Database): int {
    if db.meta.None? then 0 else db.meta.value.version
  }

  /** An empty file, or a shape that matches the recorded version. */
  ghost predicate Recognised(db: Database) {
    && Unmarked(db)
    && if db.meta.None? then db.objects == map[] && db.rows == NO_ROWS
       else
         match db.meta.value.version
         case 3 => V3Fingerprint(db) && db.rows == NO_ROWS
         case 4 => V4Fingerprint(db) || (LegacyFingerprint(db) && Unpadded(db.rows))
         case 5 => V4Fingerprint(db)
         case 6 => V6Fingerprint(db)
         case 7 => V7Fingerprint(db)
         case _ => false
  }

  /** The workspace that a database belongs to is the expected one. */
  predicate BelongsTo(db: Database, expected: string) {
    db.meta.Some? ==> db.meta.value.workspace == expected && (db.meta.value.version == 3 ==> db.rowWorkspaces <= {expected})
  }

  /** Which scripts together hold a name. */
  lemma InTogether(name: Name)
    ensures name in BASE + ATTESTATION <==> name in BASE || name in ATTESTATION
    ensures name in BASE + ATTESTATION + EXECUTION <==> name in BASE + ATTESTATION || name in EXECUTION
    ensures name in BASE + ATTESTATION + EXECUTION + AUTHORITY <==>
              name in BASE + ATTESTATION + EXECUTION || name in AUTHORITY
    ensures name in BASE + ATTESTATION_INDEXES <==> name in BASE || name in ATTESTATION_INDEXES
  {
  }

  /** Which script a name belongs to. */
  lemma InScripts(name: Name)
    ensures name in BASE <==> name in {StoreMeta, ItemLineage, RecordsTable, AuditHistory}
    ensures name in ATTESTATION_TABLES <==> name in {Artifacts, References, Events}
    ensures name in EXECUTION ==> !(name in {StoreMeta, Artifacts, Bindings})
    ensures name == Executions ==> name in EXECUTION
    ensures name in {StoreMeta, Artifacts, Executions, Bindings} ==> name !in ATTESTATION_INDEXES
    ensures name in ATTESTATION <==> name in ATTESTATION_TABLES || name in ATTESTATION_INDEXES
    ensures name in {StoreMeta, Artifacts, Executions} ==> name !in AUTHORITY
  {
    assert EXECUTION[0] == Executions;
  }

  lemma ShapesDiffer()
    ensures StoreMeta in Shape(BASE, Canonical) && Artifacts !in Shape(BASE, Canonical)
    ensures StoreMeta in Shape(BASE + ATTESTATION, Canonical) && Artifacts in Shape(BASE + ATTESTATION, Canonical)
    ensures Executions !in Shape(BASE + ATTESTATION, Canonical)
    ensures StoreMeta in Shape(BASE + ATTESTATION + EXECUTION, Canonical)
    ensures Executions in Shape(BASE + ATTESTATION + EXECUTION, Canonical)
    ensures Bindings !in Shape(BASE + ATTESTATION + EXECUTION, Canonical)
    ensures StoreMeta in Shape(BASE + ATTESTATION + EXECUTION + AUTHORITY, Canonical)
    ensures StoreMeta in LegacyObjects() && Artifacts in LegacyObjects() && LegacyObjects()[Artifacts] == LegacyLayout
  {
    InTogether(StoreMeta);
    InScripts(StoreMeta);
    InTogether(Artifacts);
    InScripts(Artifacts);
    InTogether(Executions);
    InScripts(Executions);
    InTogether(Bindings);
    InScripts(Bindings);
  }

  /** Exactly when a first upgrade succeeds on a recognised database: when it belongs to the workspace and, in the
      first version-4 layout, its rows meet the current constraints with the added columns NULL.  That layout
      is recognised without a look at its constraints.  The result is recognised, at least at version five,
      and holds the same rows. */
  lemma Upgrade4Succeeds(db: Database, expected: string)
    requires Recognised(db)
    ensures Upgrade4(db, expected).Ok? <==>
              BelongsTo(db, expected) && (LegacyFingerprint(db) ==> RowsMigrate(db.rows))
    ensures BelongsTo(db, expected) && !Upgrade4(db, expected).Ok? ==> Upgrade4(db, expected) == Err(INTEGRITY)
    ensures Upgrade4(db, expected).Ok? ==>
              var v := Upgrade4(db, expected).value;
              && Recognised(v) && BelongsTo(v, expected) && v.rows == db.rows
              && VersionOf(v) == if VersionOf(db) > 5 then VersionOf(db) else 5
  {
    ShapesDiffer();
    hide Shape, LegacyObjects, RowsMigrate, Unpadded;
    assert db.objects == map[] ==> StoreMeta !in db.objects;
  }

  /** A recognised database of the workspace that cannot be upgraded: one artifact of the second contract version
      in the first version-4 layout. */
  lemma LegacyRowRefused(expected: string) returns (db: Database)
    ensures Recognised(db) && BelongsTo(db, expected) && |db.rows.artifacts| == 1 && db.rows.artifacts[0].sound
    ensures Upgrade4(db, expected) == Err(INTEGRITY)
  {
    var row := Row("2", None, None, "", true);
    db := Database(LegacyObjects(), Some(Meta(4, expected)), {expected}, Rows([row], [], []), 0, 0);
    ShapesDiffer();
    hide Shape, LegacyObjects;
    assert db.rows.artifacts[0].version != "1";
    Upgrade4Succeeds(db, expected);
  }

  /** The tables and indexes of each version, and that all are as the current scripts define them. */
  ghost predicate Holds(db: Database, version: int) {
    var base := {StoreMeta, ItemLineage, RecordsTable, AuditHistory};
    var attestation := {Artifacts, References, Events, ArtifactPreviewIndex, ArtifactDigestIndex, ReferenceBindingIndex,
                        EventSequenceIndex};
    var execution := {Executions, Attempts, Receipts, ApplicationReceipts, ExecutionIndex, AttemptIndex, ReceiptIndex,
                      ApplicationReceiptIndex};
    var authority := {Bindings, BindingOperations, BindingParentIndex};
    && (forall name :: name in db.objects <==>
          || name in base || name in attestation || (version >= 6 && name in execution)
          || (version >= 7 && name in authority))
    && forall name :: name in db.objects ==> db.objects[name] == Canonical
  }

  lemma FirstNames(name: Name)
    ensures name in BASE <==> name in {StoreMeta, ItemLineage, RecordsTable, AuditHistory}
    ensures name in ATTESTATION <==>
              name in {Artifacts, References, Events, ArtifactPreviewIndex, ArtifactDigestIndex, ReferenceBindingIndex,
                       EventSequenceIndex}
  {
  }

  lemma ExecutionNames(name: Name)
    ensures name in EXECUTION <==>
              name in {Executions, Attempts, Receipts, ApplicationReceipts, ExecutionIndex, AttemptIndex, ReceiptIndex,
                       ApplicationReceiptIndex}
  {
    assert EXECUTION == [Executions, Attempts, Receipts, ApplicationReceipts, ExecutionIndex, AttemptIndex, ReceiptIndex,
                         ApplicationReceiptIndex];
  }

  lemma AuthorityNames(name: Name)
    ensures name in AUTHORITY <==> name in {Bindings, BindingOperations, BindingParentIndex}
  {
  }

  lemma ShapeHolds(db: Database, version: int)
    requires version == 5 ==> db.objects == Shape(BASE + ATTESTATION, Canonical)
    requires version == 6 ==> db.objects == Shape(BASE + ATTESTATION + EXECUTION, Canonical)
    requires version == 7 ==> db.objects == Shape(BASE + ATTESTATION + EXECUTION + AUTHORITY, Canonical)
    requires version in {5, 6, 7}
    ensures Holds(db, version)
  {
    forall name
      ensures name in BASE + ATTESTATION <==> name in BASE || name in ATTESTATION
      ensures name in BASE + ATTESTATION + EXECUTION <==> name in BASE || name in ATTESTATION || name in EXECUTION
      ensures name in BASE + ATTESTATION + EXECUTION + AUTHORITY <==>
                name in BASE || name in ATTESTATION || name in EXECUTION || name in AUTHORITY
      ensures name in db.objects <==>
                || name in BASE || name in ATTESTATION || (version >= 6 && name in EXECUTION)
                || (version >= 7 && name in AUTHORITY)
    {
      InTogether(name);
    }
    forall name
      ensures name in db.objects <==>
                || name in {StoreMeta, ItemLineage, RecordsTable, AuditHistory}
                || name in {Artifacts, References, Events, ArtifactPreviewIndex, ArtifactDigestIndex,
                            ReferenceBindingIndex, EventSequenceIndex}
                || (version >= 6 && name in {Executions, Attempts, Receipts, ApplicationReceipts, ExecutionIndex,
                                             AttemptIndex, ReceiptIndex, ApplicationReceiptIndex})
                || (version >= 7 && name in {Bindings, BindingOperations, BindingParentIndex})
    {
      FirstNames(name);
      ExecutionNames(name);
      AuthorityNames(name);
    }
  }

  lemma Upgrade6Succeeds(db: Database, expected: string)
    requires Recognised(db) && BelongsTo(db, expected) && VersionOf(db) >= 5
    ensures Upgrade6(db, expected).Ok?
    ensures var v := Upgrade6(db, expected).value;
      Recognised(v) && BelongsTo(v, expected) && v.rows == db.rows && VersionOf(v) == if VersionOf(db) > 6 then VersionOf(db) else 6
  {
    hide Shape;
  }

  lemma Upgrade7Succeeds(db: Database, expected: string)
    requires Recognised(db) && BelongsTo(db, expected) && VersionOf(db) >= 6
    ensures Upgrade7(db, expected).Ok?
    ensures var v := Upgrade7(db, expected).value;
      Recognised(v) && BelongsTo(v, expected) && v.rows == db.rows && VersionOf(v) == 7
  {
    hide Shape;
  }

  /** One transaction on a recognised database never lowers its version, loses its shape, or touches a row. */
  lemma UpgradeKeeps(db: Database, level: Level, expected: string)
    requires Recognised(db) && Upgrade(db, level, expected).Ok?
    ensures var v := Upgrade(db, level, expected).value;
      && Recognised(v) && BelongsTo(v, expected) && v.rows == db.rows
      && VersionOf(v) == if VersionOf(db) > Target(level) then VersionOf(db) else Target(level)
  {
    match level
    case To5 => Upgrade4Succeeds(db, expected);
    case To6 =>
      assert db.meta.Some? && VersionOf(db) >= 5;
      Upgrade6Succeeds(db, expected);
    case To7 =>
      assert db.meta.Some? && VersionOf(db) >= 6;
      Upgrade7Succeeds(db, expected);
  }

  lemma RecognisedHolds(v: Database)
    requires Recognised(v) && VersionOf(v) >= 5
    ensures VersionOf(v) in {5, 6, 7} && Holds(v, VersionOf(v))
  {
    hide Shape, LegacyObjects, Unpadded, Holds;
    ShapeHolds(v, VersionOf(v));
  }

  /** What a successful transaction leaves holds exactly the tables and indexes of its version. */
  lemma UpgradedHolds(db: Database, level: Level, expected: string)
    requires Recognised(db) && Upgrade(db, level, expected).Ok?
    ensures var v := Upgrade(db, level, expected).value;
      VersionOf(v) in {5, 6, 7} && Holds(v, VersionOf(v))
  {
    hide Upgrade, Recognised, Holds;
    UpgradeKeeps(db, level, expected);
    RecognisedHolds(Upgrade(db, level, expected).value);
  }

  // ---- calls, faults and runs ----

  /** Where a transaction fails, if anywhere.  A commit that fails may have taken effect. */
  datatype Fault = NoFault | AtBegin | AtStatement(index: nat) | AtCommit(landed: bool)

  /** What one transaction can leave, given where it fails. */
  ghost predicate Outcome(db: Database, later: Database, r: Guard, level: Level, expected: string, fault: Fault) {
    var upgrade := Upgrade(db, level, expected);
    && (later == db || (upgrade.Ok? && later == upgrade.value))
    && (r.Pass? ==> upgrade.Ok? && later == upgrade.value)
    && (fault.NoFault? ==> if upgrade.Ok? then r.Pass? else r == Fail(upgrade.error))
  }

  datatype Step = Step(level: Level, expected: string, later: Database, r: Guard, fault: Fault)

  /** A run of transactions, whatever fails in them. */
  ghost predicate Run(db: Database, steps: seq<Step>)
    decreases |steps|
  {
    steps == [] ||
    (Outcome(db, steps[0].later, steps[0].r, steps[0].level, steps[0].expected, steps[0].fault) && Run(steps[0].later, steps[1..]))
  }

  function Final(db: Database, steps: seq<Step>): Database {
    if steps == [] then db else steps[|steps| - 1].later
  }

  /** Over any sequence of transactions, any of which may fail anywhere: the database keeps a recognised
      shape matching its recorded version, the version never falls, and no attestation row is lost, changed or added. */
  lemma {:induction false} RunsNeverLower(db: Database, steps: seq<Step>)
    requires Recognised(db) && Run(db, steps)
    ensures Recognised(Final(db, steps)) && VersionOf(db) <= VersionOf(Final(db, steps))
    ensures Final(db, steps).rows == db.rows
    decreases |steps|
  {
    hide Recognised;
    if steps != [] {
      var step := steps[0];
      if step.later != db {
        UpgradeKeeps(db, step.level, step.expected);
      }
      RunsNeverLower(step.later, steps[1..]);
      assert Final(db, steps) == Final(step.later, steps[1..]);
    }
  }

  function Highest(steps: seq<Step>, floor: int): int {
    if steps == [] then floor
    else
      var next := if Target(steps[0].level) > floor then Target(steps[0].level) else floor;
      Highest(steps[1..], next)
  }

  /** When every transaction passes, the final version is the highest reached or asked for, so any order of
      the same successful calls ends at the same version. */
  lemma {:induction false} SuccessfulRunsEndAtHighest(db: Database, steps: seq<Step>)
    requires Recognised(db) && Run(db, steps) && forall i :: 0 <= i < |steps| ==> steps[i].r.Pass?
    ensures VersionOf(Final(db, steps)) == Highest(steps, VersionOf(db))
    decreases |steps|
  {
    hide Recognised;
    if steps != [] {
      var step := steps[0];
      UpgradeKeeps(db, step.level, step.expected);
      SuccessfulRunsEndAtHighest(step.later, steps[1..]);
      assert Final(db, steps) == Final(step.later, steps[1..]);
    }
  }

  lemma {:induction false} HighestIsBound(steps: seq<Step>, floor: int)
    ensures Highest(steps, floor) >= floor
    ensures forall i :: 0 <= i < |steps| ==> Highest(steps, floor) >= Target(steps[i].level)
    ensures Highest(steps, floor) == floor || exists i :: 0 <= i < |steps| && Highest(steps, floor) == Target(steps[i].level)
    decreases |steps|
  {
    if steps != [] {
      var next := if Target(steps[0].level) > floor then Target(steps[0].level) else floor;
      HighestIsBound(steps[1..], next);
      forall i | 0 <= i < |steps|
        ensures Highest(steps, floor) >= Target(steps[i].level)
      {
        if i > 0 {
          assert steps[1..][i - 1] == steps[i];
        }
      }
      if Highest(steps, floor) != floor && Highest(steps, floor) != Target(steps[0].level) {
        var i :| 0 <= i < |steps[1..]| && Highest(steps[1..], next) == Target(steps[1..][i].level);
        assert steps[i + 1] == steps[1..][i];
      }
    }
  }

  /** Two successful runs that ask for the same levels, in whatever order, end at the same version. */
  lemma OrderDoesNotMatter(db: Database, steps: seq<Step>, steps': seq<Step>)
    requires Recognised(db) && Run(db, steps) && Run(db, steps')
    requires forall i :: 0 <= i < |steps| ==> steps[i].r.Pass?
    requires forall i :: 0 <= i < |steps'| ==> steps'[i].r.Pass?
    requires forall i :: 0 <= i < |steps| ==> exists j :: 0 <= j < |steps'| && steps'[j].level == steps[i].level
    requires forall j :: 0 <= j < |steps'| ==> exists i :: 0 <= i < |steps| && steps[i].level == steps'[j].level
    ensures VersionOf(Final(db, steps)) == VersionOf(Final(db, steps'))
  {
    hide Recognised, Run;
    SuccessfulRunsEndAtHighest(db, steps);
    SuccessfulRunsEndAtHighest(db, steps');
    HighestIsBound(steps, VersionOf(db));
    HighestIsBound(steps', VersionOf(db));
  }

  /** Upgrading is idempotent: a successful upgrade, done again, changes nothing. */
  lemma UpgradeTwice(db: Database, level: Level, expected: string)
    requires Recognised(db) && Upgrade(db, level, expected).Ok?
    ensures var v := Upgrade(db, level, expected).value; Upgrade(v, level, expected) == Ok(v)
  {
    ShapesDiffer();
    hide Shape, LegacyObjects;
    UpgradeKeeps(db, level, expected);
  }

  // ---- the upgrades as they run ----

  /** The objects a list of CREATE statements leaves, if none of the names is taken. */
  function Created(objects: map<Name, Definition>, names: seq<Name>): Option<map<Name, Definition>>
    decreases |names|
  {
    if names == [] then Some(objects)
    else if names[0] in objects then None
    else Created(objects[names[0] := Canonical], names[1..])
  }

  lemma {:induction false} CreatedShape(before: seq<Name>, names: seq<Name>)
    requires NoDuplicates(before + names)
    ensures Created(Shape(before, Canonical), names) == Some(Shape(before + names, Canonical))
    decreases |names|
  {
    if names == [] {
      assert before + names == before;
    } else {
      var more := before + [names[0]];
      assert more + names[1..] == before + names;
      assert (before + names)[|before|] == names[0];
      forall i | 0 <= i < |before|
        ensures before[i] != names[0]
      {
        assert (before + names)[i] == before[i];
      }
      assert Shape(before, Canonical)[names[0] := Canonical] == Shape(more, Canonical);
      CreatedShape(more, names[1..]);
    }
  }

  const ALL := BASE + ATTESTATION + EXECUTION + AUTHORITY

  /** The place of a name in the scripts. */
  function Place(name: Name): int {
    match name
    case StoreMeta => 0 case ItemLineage => 1 case RecordsTable => 2 case AuditHistory => 3
    case Artifacts => 4 case References => 5 case Events => 6
    case ArtifactPreviewIndex => 7 case ArtifactDigestIndex => 8 case ReferenceBindingIndex => 9 case EventSequenceIndex => 10
    case Executions => 11 case Attempts => 12 case Receipts => 13 case ApplicationReceipts => 14
    case ExecutionIndex => 15 case AttemptIndex => 16 case ReceiptIndex => 17 case ApplicationReceiptIndex => 18
    case Bindings => 19 case BindingOperations => 20 case BindingParentIndex => 21
    case _ => -1
  }

  lemma NamesInPlace(i: nat)
    requires i < 22
    ensures |ALL| == 22 && Place(ALL[i]) == i
  {
    assert |BASE| == 4 && |ATTESTATION| == 7 && |EXECUTION| == 8 && |AUTHORITY| == 3;
    if i < 4 {
      assert ALL[i] == BASE[i];
    } else if i < 7 {
      assert ALL[i] == ATTESTATION_TABLES[i - 4];
    } else if i < 11 {
      assert ALL[i] == ATTESTATION_INDEXES[i - 7];
    } else if i < 19 {
      assert ALL[i] == EXECUTION[i - 11];
    } else {
      assert ALL[i] == AUTHORITY[i - 19];
    }
  }

  lemma AllDistinct()
    ensures NoDuplicates(ALL)
  {
    hide Place;
    forall i, j | 0 <= i < j < |ALL|
      ensures ALL[i] != ALL[j]
    {
      NamesInPlace(i);
      NamesInPlace(j);
    }
  }

  lemma FrontDistinct(s: seq<Name>, t: seq<Name>)
    requires NoDuplicates(s + t)
    ensures NoDuplicates(s)
  {
    forall i, j | 0 <= i < j < |s|
      ensures s[i] != s[j]
    {
      assert (s + t)[i] == s[i] && (s + t)[j] == s[j];
    }
  }

  lemma ScriptsDistinct()
    ensures NoDuplicates(BASE + ATTESTATION) && NoDuplicates(BASE + ATTESTATION + EXECUTION)
    ensures NoDuplicates(BASE + ATTESTATION + EXECUTION + AUTHORITY)
  {
    hide NoDuplicates;
    AllDistinct();
    FrontDistinct(BASE + ATTESTATION + EXECUTION, AUTHORITY);
    FrontDistinct(BASE + ATTESTATION, EXECUTION);
  }

  lemma ScriptsApply()
    ensures Created(map[], BASE + ATTESTATION) == Some(Shape(BASE + ATTESTATION, Canonical))
    ensures Created(Shape(BASE, Canonical), ATTESTATION) == Some(Shape(BASE + ATTESTATION, Canonical))
    ensures Created(Shape(BASE + ATTESTATION, Canonical), EXECUTION) == Some(Shape(BASE + ATTESTATION + EXECUTION, Canonical))
    ensures Created(Shape(BASE + ATTESTATION + EXECUTION, Canonical), AUTHORITY) ==
              Some(Shape(BASE + ATTESTATION + EXECUTION + AUTHORITY, Canonical))
  {
    hide NoDuplicates, Created, Shape;
    ScriptsDistinct();
    EmptyShape();
    assert [] + (BASE + ATTESTATION) == BASE + ATTESTATION;
    CreatedShape([], BASE + ATTESTATION);
    CreatedShape(BASE, ATTESTATION);
    CreatedShape(BASE + ATTESTATION, EXECUTION);
    CreatedShape(BASE + ATTESTATION + EXECUTION, AUTHORITY);
  }

  lemma EmptyShape()
    ensures Shape([], Canonical) == map[]
  {
  }

  function Without(objects: map<Name, Definition>, names: seq<Name>): map<Name, Definition> {
    map name | name in objects && name !in names :: objects[name]
  }

  function RenamedAll(names: seq<Name>): (r: seq<Name>)
    ensures |r| == |names| && forall i :: 0 <= i < |names| ==> r[i] == Renamed(names[i])
  {
    seq(|names|, i requires 0 <= i < |names| => Renamed(names[i]))
  }

  class Connection {
    var durable: Database

    /** Whether a transaction was left open by an exception that nothing caught. */
    var open: bool

    constructor (db: Database)
      ensures durable == db && !open
    {
      durable, open := db, false;
    }

    /** `_execute_script`: CREATE statements one by one on the working copy. */
    method ExecuteScript(objects: map<Name, Definition>, names: seq<Name>, fault: Fault)
      returns (r: Option<map<Name, Definition>>)
      ensures r.Some? ==> r == Created(objects, names)
      ensures fault.NoFault? ==> r == Created(objects, names)
    {
      var made := objects;
      assert names[0..] == names;
      for i := 0 to |names|
        invariant Created(objects, names) == Created(made, names[i..])
      {
        assert names[i..][0] == names[i] && names[i..][1..] == names[i + 1..];
        if (fault.AtStatement? && fault.index == i) || names[i] in made {
          return None;
        }
        made := made[names[i] := Canonical];
      }
      assert names[|names|..] == [];
      return Some(made);
    }

    /** One `INSERT ... SELECT` of the migration: the rows of a renamed table, with the added columns NULL. */
    method CopyRows(table: Name, rows: seq<Row>, fault: bool) returns (r: Result<seq<Row>>)
      ensures r.Ok? ==> Admitted(table, rows) && |r.value| == |rows|
      ensures r.Ok? ==> forall i :: 0 <= i < |rows| ==> r.value[i] == Padded(rows[i])
      ensures r.Err? ==> r.error == if fault then ValueError(OPERATIONAL) else INTEGRITY
      ensures !fault ==> (r.Ok? <==> Admitted(table, rows))
    {
      if fault {
        return Err(ValueError(OPERATIONAL));
      }
      var copied: seq<Row> := [];
      for i := 0 to |rows|
        invariant |copied| == i
        invariant forall j :: 0 <= j < i ==> Admits(table, Padded(rows[j])) && copied[j] == Padded(rows[j])
      {
        if !Admits(table, Padded(rows[i])) {
          return Err(INTEGRITY);
        }
        copied := copied + [Padded(rows[i])];
      }
      return Ok(copied);
    }

    /** The statement of the migration that fails, counted after those of the script. */
    function CopyFails(fault: Fault, k: nat): bool {
      fault.AtStatement? && fault.index == |ATTESTATION| + k
    }

    /** `_migrate_legacy_v4_projection`: drop the indexes, set the old tables aside, run the script, copy the
        rows over table by table, and drop the old tables. */
    method MigrateLegacy(db: Database, fault: Fault) returns (r: Result<Database>)
      requires db.objects == LegacyObjects() && Unpadded(db.rows)
      ensures r.Ok? ==> RowsMigrate(db.rows) && r.value == db.(objects := Shape(BASE + ATTESTATION, Canonical))
      ensures r == Err(INTEGRITY) ==> !RowsMigrate(db.rows)
      ensures fault.NoFault? ==> if RowsMigrate(db.rows) then r.Ok? else r == Err(INTEGRITY)
    {
      hide Shape, LegacyObjects, Created, Without, RowsMigrate, Unpadded, Admitted;
      var working := Without(db.objects, ATTESTATION_INDEXES);
      var aside := Shape(RenamedAll(ATTESTATION_TABLES), LegacyLayout);
      working := Without(working, ATTESTATION_TABLES) + aside;
      LegacySetAside();
      RowsMigrateIs(db.rows);
      var made := ExecuteScript(working, ATTESTATION, fault);
      if made.None? {
        return Err(ValueError(MIGRATION_FAILED));
      }
      var artifacts := CopyRows(Artifacts, db.rows.artifacts, CopyFails(fault, 0));
      if artifacts.Err? {
        return Err(artifacts.error);
      }
      var references := CopyRows(References, db.rows.references, CopyFails(fault, 1));
      if references.Err? {
        return Err(references.error);
      }
      var events := CopyEvents(db.rows.events, CopyFails(fault, 2));
      if events.Err? {
        return Err(events.error);
      }
      PaddedIsSame(db.rows, artifacts.value, references.value);
      var objects := Without(made.value, RenamedAll(ATTESTATION_TABLES));
      return Ok(db.(objects := objects, rows := Rows(artifacts.value, references.value, events.value)));
    }

    /** The third copy: `SELECT *` from a table that gained no column. */
    method CopyEvents(rows: seq<Row>, fault: bool) returns (r: Result<seq<Row>>)
      ensures r.Ok? ==> Admitted(Events, rows) && r.value == rows
      ensures r.Err? ==> r.error == if fault then ValueError(OPERATIONAL) else INTEGRITY
      ensures !fault ==> (r.Ok? <==> Admitted(Events, rows))
    {
      if fault {
        return Err(ValueError(OPERATIONAL));
      }
      for i := 0 to |rows|
        invariant forall j :: 0 <= j < i ==> Admits(Events, Padded(rows[j]))
      {
        if !Admits(Events, rows[i]) {
          return Err(INTEGRITY);
        }
      }
      return Ok(rows);
    }

    /** Ends a transaction: the working copy becomes durable, unless the commit fails. */
    method Commit(working: Database, fault: Fault) returns (r: Guard)
      modifies this
      ensures open == old(open)
      ensures r == if fault.AtCommit? then Fail(ValueError(OPERATIONAL)) else Pass
      ensures r.Pass? ==> durable == working
      ensures r.Fail? ==> durable == if fault.landed then working else old(durable)
    {
      if fault.AtCommit? {
        if fault.landed {
          durable := working;
        }
        return Fail(ValueError(OPERATIONAL));
      }
      durable := working;
      return Pass;
    }

    /** What a transaction meets: none can begin inside one that was left open. */
    function Met(fault: Fault): Fault
      reads this
    {
      if open then AtBegin else fault
    }

    /** `ensure_schema_v4`.  It rolls back on its own errors and on operational ones; the integrity error of a row
        that does not fit goes through it and leaves the transaction open, until the connection is closed or
        the next BEGIN fails and rolls back. */
    method EnsureV4(expected: string, fault: Fault) returns (r: Guard)
      requires LegacyFingerprint(durable) ==> Unpadded(durable.rows)
      modifies this
      ensures Outcome(old(durable), durable, r, To5, expected, old(Met(fault)))
      ensures open <==> r == Fail(INTEGRITY)
      ensures old(open) ==> r == Fail(ValueError(OPERATIONAL)) && durable == old(durable)
    {
      hide Shape, LegacyObjects, Created, RowsMigrate, Unpadded;
      ScriptsApply();
      var db := durable;
      if open || fault.AtBegin? {
        open := false;
        return Fail(ValueError(OPERATIONAL));
      }
      if !Unmarked(db) {
        return Fail(ValueError(SHAPE_MISMATCH));
      }
      if db.objects == map[] {
        var made := ExecuteScript(map[], BASE + ATTESTATION, fault);
        if made.None? {
          return Fail(ValueError(MIGRATION_FAILED));
        }
        var working := Database(made.value, Some(Meta(5, expected)), {expected}, NO_ROWS, 0, 0);
        if !V4Fingerprint(working) {
          return Fail(ValueError(SHAPE_MISMATCH));
        }
        r := Commit(working, fault);
        return;
      }
      if StoreMeta !in db.objects {
        return Fail(ValueError(SHAPE_MISMATCH));
      }
      var metadata := Metadata(db);
      if metadata.Err? {
        return Fail(metadata.error);
      }
      r := EnsureFromMetadata(db, metadata.value, expected, fault);
    }

    /** The part of the first upgrade that goes by the recorded version and the shape found. */
    method EnsureFromMetadata(db: Database, meta: Meta, expected: string, fault: Fault) returns (r: Guard)
      requires db == durable && Unmarked(db) && db.objects != map[] && StoreMeta in db.objects && Metadata(db) == Ok(meta)
      requires !fault.AtBegin? && !open && (LegacyFingerprint(db) ==> Unpadded(db.rows))
      modifies this
      ensures Outcome(old(durable), durable, r, To5, expected, fault)
      ensures open <==> r == Fail(INTEGRITY)
    {
      hide Shape, LegacyObjects, Created, RowsMigrate, Unpadded;
      ScriptsApply();
      if meta.version == 7 || meta.version == 6 {
        if meta.workspace != expected || !(if meta.version == 7 then V7Fingerprint(db) else V6Fingerprint(db)) {
          return Fail(ValueError(SHAPE_MISMATCH));
        }
        r := Commit(db, fault);
        return;
      }
      if meta.version > 7 {
        return Fail(ValueError(UNSUPPORTED));
      }
      if V3Fingerprint(db) {
        if meta.version != 3 {
          return Fail(ValueError(METADATA_CORRUPT));
        }
        if !(db.rowWorkspaces + {meta.workspace} <= {expected}) {
          return Fail(ValueError(WORKSPACE_MISMATCH));
        }
        var made := ExecuteScript(db.objects, ATTESTATION, fault);
        if made.None? {
          return Fail(ValueError(MIGRATION_FAILED));
        }
        r := Commit(WithVersion(db.(objects := made.value), 5), fault);
        return;
      }
      if LegacyFingerprint(db) {
        if meta.workspace != expected {
          return Fail(ValueError(WORKSPACE_MISMATCH));
        }
        var migrated := MigrateLegacy(db, fault);
        if migrated.Err? {
          open := migrated.error == INTEGRITY;
          return Fail(migrated.error);
        }
        r := Commit(WithVersion(migrated.value, 5), fault);
        return;
      }
      if V4Fingerprint(db) {
        if meta.version != 4 && meta.version != 5 {
          return Fail(ValueError(METADATA_CORRUPT));
        }
        if meta.workspace != expected {
          return Fail(ValueError(WORKSPACE_MISMATCH));
        }
        r := Commit(WithVersion(db, 5), fault);
        return;
      }
      return Fail(ValueError(SHAPE_MISMATCH));
    }

    /** The second and third transactions differ in the version they start from and the script they run. */
    method Extend(level: Level, script: seq<Name>, expected: string, fault: Fault) returns (r: Guard)
      requires (level == To6 && script == EXECUTION) || (level == To7 && script == AUTHORITY)
      modifies this
      ensures Outcome(old(durable), durable, r, level, expected, old(Met(fault)))
      ensures !open && r != Fail(INTEGRITY)
    {
      hide Shape, LegacyObjects, Created;
      ScriptsApply();
      var db := durable;
      if open || fault.AtBegin? {
        open := false;
        return Fail(ValueError(MIGRATION_FAILED));
      }
      var metadata := Metadata(db);
      if metadata.Err? {
        return Fail(metadata.error);
      }
      var meta := metadata.value;
      if meta.workspace != expected {
        return Fail(ValueError(WORKSPACE_MISMATCH));
      }
      if meta.version == 7 || (meta.version == 6 && level == To6) {
        if !(if meta.version == 7 then V7Fingerprint(db) else V6Fingerprint(db)) {
          return Fail(ValueError(SHAPE_MISMATCH));
        }
        r := Commit(db, fault);
        return;
      }
      if meta.version != (if level == To6 then 5 else 6) || !(if level == To6 then V4Fingerprint(db) else V6Fingerprint(db)) {
        return Fail(ValueError(UNSUPPORTED));
      }
      var made := ExecuteScript(db.objects, script, fault);
      if made.None? {
        return Fail(ValueError(MIGRATION_FAILED));
      }
      r := Commit(WithVersion(db.(objects := made.value), Target(level)), fault);
    }

    /** `ensure_schema_v6`: the first upgrade, then the second, each its own transaction. */
    method EnsureV6(expected: string, first: Fault, second: Fault) returns (r: Guard, ghost middle: Database,
                    ghost r4: Guard)
      requires LegacyFingerprint(durable) ==> Unpadded(durable.rows)
      modifies this
      ensures Outcome(old(durable), middle, r4, To5, expected, old(Met(first)))
      ensures open <==> r == Fail(INTEGRITY)
      ensures if r4.Fail? then r == r4 && durable == middle else Outcome(middle, durable, r, To6, expected, second)
    {
      hide Outcome, LegacyFingerprint, Unpadded;
      r := EnsureV4(expected, first);
      middle, r4 := durable, r;
      if r.Pass? {
        r := Extend(To6, EXECUTION, expected, second);
      }
    }

    /** `ensure_schema_v7`. */
    method EnsureV7(expected: string, first: Fault, second: Fault, third: Fault)
      returns (r: Guard, ghost after4: Database, ghost r4: Guard, ghost after6: Database, ghost r6: Guard)
      requires LegacyFingerprint(durable) ==> Unpadded(durable.rows)
      modifies this
      ensures Outcome(old(durable), after4, r4, To5, expected, old(Met(first)))
      ensures open <==> r == Fail(INTEGRITY)
      ensures if r4.Fail? then r6 == r4 && after6 == after4 else Outcome(after4, after6, r6, To6, expected, second)
      ensures if r6.Fail? then r == r6 && durable == after6 else Outcome(after6, durable, r, To7, expected, third)
    {
      hide Outcome, LegacyFingerprint, Unpadded;
      r, after4, r4 := EnsureV6(expected, first, second);
      after6, r6 := durable, r;
      if r.Pass? {
        r := Extend(To7, AUTHORITY, expected, third);
      }
    }
  }

  lemma RowsMigrateIs(rows: Rows)
    ensures RowsMigrate(rows) <==>
              Admitted(Artifacts, rows.artifacts) && Admitted(References, rows.references) && Admitted(Events, rows.events)
  {
    hide Admits, Padded;
    forall row: Row
      ensures Admits(Artifacts, Padded(row)) <==> row.sound && row.version == "1"
      ensures Admits(References, Padded(row)) <==> row.sound && row.version == "attestation-binding-reference-v1"
      ensures Admits(Events, Padded(row)) <==> row.sound
    {
      PaddedAdmits(row);
    }
  }

  lemma PaddedAdmits(row: Row)
    ensures Admits(Artifacts, Padded(row)) <==> row.sound && row.version == "1"
    ensures Admits(References, Padded(row)) <==> row.sound && row.version == "attestation-binding-reference-v1"
    ensures Admits(Events, Padded(row)) <==> row.sound
  {
  }

  lemma PaddedIsSame(rows: Rows, artifacts: seq<Row>, references: seq<Row>)
    requires Unpadded(rows) && |artifacts| == |rows.artifacts| && |references| == |rows.references|
    requires forall i :: 0 <= i < |artifacts| ==> artifacts[i] == Padded(rows.artifacts[i])
    requires forall i :: 0 <= i < |references| ==> references[i] == Padded(rows.references[i])
    ensures artifacts == rows.artifacts && references == rows.references
  {
    assert forall i :: 0 <= i < |artifacts| ==> rows.artifacts[i] in rows.artifacts;
    assert forall i :: 0 <= i < |references| ==> rows.references[i] in rows.references;
  }

  lemma LegacySetAside()
    ensures var working := Without(Without(LegacyObjects(), ATTESTATION_INDEXES), ATTESTATION_TABLES)
                           + Shape(RenamedAll(ATTESTATION_TABLES), LegacyLayout);
      var made := Created(working, ATTESTATION);
      made.Some? && Without(made.value, RenamedAll(ATTESTATION_TABLES)) == Shape(BASE + ATTESTATION, Canonical)
  {
    hide Created, NoDuplicates, Shape, Without, LegacyObjects;
    var aside := Shape(RenamedAll(ATTESTATION_TABLES), LegacyLayout);
    LegacyLeavesBase();
    AsideApart();
    CreatedBeside(Shape(BASE, Canonical), aside, ATTESTATION);
    ScriptsApply();
    AsideDropped();
  }

  lemma TableNames(name: Name)
    ensures name in ATTESTATION_TABLES <==> name in {Artifacts, References, Events}
    ensures name in ATTESTATION_INDEXES <==>
              name in {ArtifactPreviewIndex, ArtifactDigestIndex, ReferenceBindingIndex, EventSequenceIndex}
    ensures name in BASE <==> name in {StoreMeta, ItemLineage, RecordsTable, AuditHistory}
    ensures name in ATTESTATION <==> name in ATTESTATION_TABLES || name in ATTESTATION_INDEXES
    ensures name in RenamedAll(ATTESTATION_TABLES) <==> name in {Renamed(Artifacts), Renamed(References), Renamed(Events)}
  {
    var r := RenamedAll(ATTESTATION_TABLES);
    assert r == [Renamed(Artifacts), Renamed(References), Renamed(Events)];
  }

  lemma LegacyLeavesBase()
    ensures Without(Without(LegacyObjects(), ATTESTATION_INDEXES), ATTESTATION_TABLES) == Shape(BASE, Canonical)
  {
    forall name: Name
      ensures name in BASE + ATTESTATION_INDEXES <==> name in BASE || name in ATTESTATION_INDEXES
      ensures name in BASE ==> name !in ATTESTATION_INDEXES && name !in ATTESTATION_TABLES
    {
      TableNames(name);
    }
  }

  lemma AsideApart()
    ensures var aside := Shape(RenamedAll(ATTESTATION_TABLES), LegacyLayout);
      && (forall i :: 0 <= i < |ATTESTATION| ==> ATTESTATION[i] !in aside)
      && Shape(BASE, Canonical).Keys !! aside.Keys
  {
    forall name: Name
      ensures name in RenamedAll(ATTESTATION_TABLES) ==> name !in BASE && name !in ATTESTATION
    {
      TableNames(name);
    }
  }

  lemma AsideDropped()
    ensures Without(Shape(BASE + ATTESTATION, Canonical) + Shape(RenamedAll(ATTESTATION_TABLES), LegacyLayout),
                    RenamedAll(ATTESTATION_TABLES)) == Shape(BASE + ATTESTATION, Canonical)
  {
    forall name: Name
      ensures name in RenamedAll(ATTESTATION_TABLES) ==> name !in BASE + ATTESTATION
    {
      TableNames(name);
      assert name in BASE + ATTESTATION <==> name in BASE || name in ATTESTATION;
    }
  }

  /** Creating objects does not touch others set aside under different names. */
  lemma {:induction false} CreatedBeside(objects: map<Name, Definition>, aside: map<Name, Definition>, names: seq<Name>)
    requires forall i :: 0 <= i < |names| ==> names[i] !in aside
    requires objects.Keys !! aside.Keys
    ensures var x, y := Created(objects, names), Created(objects + aside, names);
      (x.Some? <==> y.Some?) && (x.Some? ==> y.value == x.value + aside)
    decreases |names|
  {
    if names != [] && names[0] !in objects {
      assert (objects + aside)[names[0] := Canonical] == objects[names[0] := Canonical] + aside;
      CreatedBeside(objects[names[0] := Canonical], aside, names[1..]);
    }
  }
}
