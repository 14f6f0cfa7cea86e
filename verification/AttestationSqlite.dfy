/** The SQLite attestation store of one workspace: its tables, its connection states, and any database
    call allowed to fail. */
module AttestationSqlite {
  import opened Outcomes
  import opened AttestationLog

  // ---- the tables ----

  datatype Rows = Rows(artifacts: map<ArtifactId, Artifact>, references: map<ArtifactId, Reference>, events: seq<Sequenced>)

  const NoRows := Rows(map[], map[], [])

  /** `SELECT ... WHERE artifact_id = a`, in row order. */
  function Selected(events: seq<Sequenced>, a: ArtifactId): seq<Sequenced> {
    if events == [] then []
    else Selected(events[..|events| - 1], a)
         + if events[|events| - 1].event.artifact == a then [events[|events| - 1]] else []
  }

  function InsertBySequence(row: Sequenced, sorted: seq<Sequenced>): seq<Sequenced> {
    if sorted == [] || row.sequence <= sorted[0].sequence then [row] + sorted
    else [sorted[0]] + InsertBySequence(row, sorted[1..])
  }

  /** `ORDER BY event_sequence`. */
  function OrderBySequence(rows: seq<Sequenced>): seq<Sequenced> {
    if rows == [] then [] else InsertBySequence(rows[0], OrderBySequence(rows[1..]))
  }

  function EventRows(rows: Rows, a: ArtifactId): seq<Sequenced> {
    OrderBySequence(Selected(rows.events, a))
  }

  predicate Numbered(rows: seq<Sequenced>) {
    forall i :: 0 <= i < |rows| ==> rows[i].sequence == i + 1
  }

  predicate AllMatch(rows: seq<Sequenced>, aggregate: Aggregate) {
    forall i :: 0 <= i < |rows| ==> Matches(aggregate, rows[i].event)
  }

  /** `_aggregate_locked`: the aggregate with its history checked. */
  function ReadAggregate(rows: Rows, a: ArtifactId): Result<Option<Aggregate>> {
    if a !in rows.artifacts && a !in rows.references then
      if Selected(rows.events, a) != [] then Err(ValueError(EVENT_CORRUPT)) else Ok(None)
    else if a !in rows.artifacts || a !in rows.references then Err(ValueError(AGGREGATE_CORRUPT))
    else if rows.artifacts[a].id != a || !AggregateValid(rows.artifacts[a], rows.references[a]) then
      Err(ValueError(AGGREGATE_CORRUPT))
    else
      var aggregate := Aggregate(rows.artifacts[a], rows.references[a]);
      if !Numbered(EventRows(rows, a)) || !AllMatch(EventRows(rows, a), aggregate) then Err(ValueError(EVENT_CORRUPT))
      else Ok(Some(aggregate))
  }

  function EventsOf(rows: seq<Sequenced>): (events: seq<Event>)
    ensures |events| == |rows|
    ensures forall i :: 0 <= i < |rows| ==> events[i] == rows[i].event
  {
    seq(|rows|, i requires 0 <= i < |rows| => rows[i].event)
  }

  ghost predicate ArtifactRowValid(rows: Rows, workspace: string, a: ArtifactId)
    requires a in rows.artifacts && a in rows.references
  {
    && rows.artifacts[a].id == a && a.workspace == workspace && AggregateValid(rows.artifacts[a], rows.references[a])
    && Numbered(Selected(rows.events, a)) && AllMatch(Selected(rows.events, a), Aggregate(rows.artifacts[a], rows.references[a]))
  }

  ghost predicate RowsValid(rows: Rows, workspace: string) {
    && rows.artifacts.Keys == rows.references.Keys
    && (forall a :: a in rows.artifacts ==> ArtifactRowValid(rows, workspace, a))
    && (forall i :: 0 <= i < |rows.events| ==>
          rows.events[i].event.workspace == workspace && rows.events[i].event.artifact in rows.artifacts)
    && (forall i, j :: 0 <= i < j < |rows.events| ==> rows.events[i].event.Id() != rows.events[j].event.Id())
  }

  /** The log that the tables hold. */
  ghost function LogOf(rows: Rows, workspace: string): Log {
    map key: Key | key in KeysOf(rows, workspace) ::
      History(Aggregate(rows.artifacts[key.artifact], rows.references[key.artifact]),
              EventsOf(Selected(rows.events, key.artifact)))
  }

  ghost function KeysOf(rows: Rows, workspace: string): (keys: set<Key>)
    ensures forall key :: key in keys <==>
              key.workspace == workspace && key.artifact in rows.artifacts && key.artifact in rows.references
  {
    set a | a in rows.artifacts && a in rows.references :: Key(workspace, a)
  }

  // ---- what the queries return on sound tables ----

  lemma {:induction false} OrderOfNumbered(rows: seq<Sequenced>, base: nat)
    requires forall i :: 0 <= i < |rows| ==> rows[i].sequence == base + i
    ensures OrderBySequence(rows) == rows
    decreases |rows|
  {
    if rows != [] {
      OrderOfNumbered(rows[1..], base + 1);
      assert rows == [rows[0]] + rows[1..];
    }
  }

  lemma {:induction false} SelectedRows(events: seq<Sequenced>, a: ArtifactId)
    ensures forall i :: 0 <= i < |Selected(events, a)| ==>
              Selected(events, a)[i] in events && Selected(events, a)[i].event.artifact == a
    ensures forall i :: 0 <= i < |events| && events[i].event.artifact == a ==> events[i] in Selected(events, a)
    decreases |events|
  {
    if events != [] {
      SelectedRows(events[..|events| - 1], a);
    }
  }

  lemma EventRowsOfValid(rows: Rows, workspace: string, a: ArtifactId)
    requires RowsValid(rows, workspace) && a in rows.artifacts
    ensures EventRows(rows, a) == Selected(rows.events, a)
  {
    assert ArtifactRowValid(rows, workspace, a);
    OrderOfNumbered(Selected(rows.events, a), 1);
  }

  lemma NoEventsWithoutArtifact(rows: Rows, workspace: string, a: ArtifactId)
    requires RowsValid(rows, workspace) && a !in rows.artifacts
    ensures Selected(rows.events, a) == []
  {
    hide Selected, ArtifactRowValid;
    SelectedNone(rows.events, a);
  }

  lemma {:induction false} SelectedNone(events: seq<Sequenced>, a: ArtifactId)
    requires forall i :: 0 <= i < |events| ==> events[i].event.artifact != a
    ensures Selected(events, a) == []
    decreases |events|
  {
    if events != [] {
      SelectedNone(events[..|events| - 1], a);
    }
  }

  /** Reading an aggregate from sound tables never reports corruption. */
  lemma AggregateReads(rows: Rows, workspace: string, a: ArtifactId)
    requires RowsValid(rows, workspace)
    ensures ReadAggregate(rows, a) == Ok(GetAggregate(LogOf(rows, workspace), Key(workspace, a)))
  {
    hide Selected, AggregateValid, OrderBySequence;
    if a in rows.artifacts {
      assert ArtifactRowValid(rows, workspace, a);
      EventRowsOfValid(rows, workspace, a);
    } else {
      NoEventsWithoutArtifact(rows, workspace, a);
    }
  }

  // ---- the writes ----

  predicate BindingTaken(references: map<ArtifactId, Reference>, binding: string) {
    exists a :: a in references && references[a].binding == binding
  }

  function WithAggregate(rows: Rows, a: Artifact, r: Reference): Rows {
    Rows(rows.artifacts[a.id := a], rows.references[a.id := r], rows.events)
  }

  lemma PersistRows(rows: Rows, workspace: string, a: Artifact, r: Reference)
    requires RowsValid(rows, workspace) && a.id !in rows.artifacts && a.id.workspace == workspace && AggregateValid(a, r)
    ensures RowsValid(WithAggregate(rows, a, r), workspace)
    ensures LogOf(WithAggregate(rows, a, r), workspace) == Persist(LogOf(rows, workspace), a, r).0
  {
    hide Selected, AggregateValid, LogOf, Persist;
    var more := WithAggregate(rows, a, r);
    NoEventsWithoutArtifact(rows, workspace, a.id);
    forall b | b in more.artifacts
      ensures ArtifactRowValid(more, workspace, b)
    {
      if b != a.id {
        assert ArtifactRowValid(rows, workspace, b);
      }
    }
    PersistedLog(rows, workspace, a, r);
  }

  lemma PersistedLog(rows: Rows, workspace: string, a: Artifact, r: Reference)
    requires RowsValid(rows, workspace) && a.id !in rows.artifacts && a.id.workspace == workspace && AggregateValid(a, r)
    ensures LogOf(WithAggregate(rows, a, r), workspace) == Persist(LogOf(rows, workspace), a, r).0
  {
    hide Selected, AggregateValid, ArtifactRowValid;
    NoEventsWithoutArtifact(rows, workspace, a.id);
    assert EventsOf([]) == [];
  }

  function WithEvent(rows: Rows, row: Sequenced): Rows {
    rows.(events := rows.events + [row])
  }

  lemma SelectedWith(events: seq<Sequenced>, row: Sequenced, a: ArtifactId)
    ensures Selected(events + [row], a) == Selected(events, a) + if row.event.artifact == a then [row] else []
  {
    assert (events + [row])[..|events|] == events;
  }

  lemma AppendRows(rows: Rows, workspace: string, e: Event)
    requires RowsValid(rows, workspace) && e.workspace == workspace && e.artifact in rows.artifacts
    requires Matches(Aggregate(rows.artifacts[e.artifact], rows.references[e.artifact]), e)
    requires NumberOf(EventsOf(Selected(rows.events, e.artifact)), e.Id()) == 0
    ensures var row := Sequenced(|Selected(rows.events, e.artifact)| + 1, e);
      && RowsValid(WithEvent(rows, row), workspace)
      && LogOf(WithEvent(rows, row), workspace) == Append(LogOf(rows, workspace), e).0
      && forall i :: 0 <= i < |rows.events| ==> rows.events[i].event.Id() != e.Id()
  {
    hide Selected, AggregateValid, NumberOf;
    var row := Sequenced(|Selected(rows.events, e.artifact)| + 1, e);
    var more := WithEvent(rows, row);
    FreshId(rows, e);
    forall a: ArtifactId ensures Selected(more.events, a) == Selected(rows.events, a) + if e.artifact == a then [row] else [] {
      SelectedWith(rows.events, row, a);
    }
    forall a | a in more.artifacts
      ensures ArtifactRowValid(more, workspace, a)
    {
      assert ArtifactRowValid(rows, workspace, a);
    }
    SameLog(rows, workspace, row);
  }

  lemma SameLog(rows: Rows, workspace: string, row: Sequenced)
    requires RowsValid(rows, workspace) && row.event.workspace == workspace && row.event.artifact in rows.artifacts
    ensures var log := LogOf(rows, workspace); var key := EventKey(row.event);
      && key in log
      && LogOf(WithEvent(rows, row), workspace) == log[key := History(log[key].aggregate, log[key].events + [row.event])]
  {
    hide Selected, ArtifactRowValid;
    forall a: ArtifactId ensures Selected(WithEvent(rows, row).events, a) ==
                                   Selected(rows.events, a) + if row.event.artifact == a then [row] else [] {
      SelectedWith(rows.events, row, a);
    }
    var old_, new_ := LogOf(rows, workspace), LogOf(WithEvent(rows, row), workspace);
    assert EventsOf(Selected(rows.events, row.event.artifact) + [row]) ==
           EventsOf(Selected(rows.events, row.event.artifact)) + [row.event];
    forall key | key in old_ && key != EventKey(row.event)
      ensures key in new_ && new_[key] == old_[key]
    {
      assert Selected(rows.events, key.artifact) + [] == Selected(rows.events, key.artifact);
    }
  }

  lemma FreshId(rows: Rows, e: Event)
    requires NumberOf(EventsOf(Selected(rows.events, e.artifact)), e.Id()) == 0
    ensures forall i :: 0 <= i < |rows.events| ==> rows.events[i].event.Id() != e.Id()
  {
    hide Selected, NumberOf;
    SelectedRows(rows.events, e.artifact);
    var s := Selected(rows.events, e.artifact);
    forall i | 0 <= i < |rows.events|
      ensures rows.events[i].event.Id() != e.Id()
    {
      if rows.events[i].event.artifact == e.artifact {
        var j :| 0 <= j < |s| && s[j] == rows.events[i];
        assert EventsOf(s)[j] == rows.events[i].event;
      }
    }
  }

  lemma LogOfValid(rows: Rows, workspace: string)
    requires RowsValid(rows, workspace)
    ensures rows.artifacts.Keys == rows.references.Keys
    ensures forall a :: a in rows.artifacts <==> Key(workspace, a) in LogOf(rows, workspace)
    ensures forall a :: a in rows.artifacts ==>
              && LogOf(rows, workspace)[Key(workspace, a)].aggregate == Aggregate(rows.artifacts[a], rows.references[a])
              && LogOf(rows, workspace)[Key(workspace, a)].events == EventsOf(Selected(rows.events, a))
  {
    hide Selected, ArtifactRowValid;
  }

  // ---- what a call means ----

  const PROJECTION_CORRUPT := "attestation_persistence_projection_corrupt"
  const WORKSPACE_MISMATCH := "attestation_persistence_workspace_mismatch"
  const UNAVAILABLE := "attestation_persistence_store_unavailable"
  const COMMIT_UNKNOWN := "attestation_persistence_commit_outcome_unknown"
  const ROLLBACK_FAILED := "attestation_persistence_rollback_failed"
  const CLOSE_FAILED := "attestation_persistence_close_failed"

  ghost predicate BindingUsed(log: Log, binding: string) {
    exists key :: key in log && log[key].aggregate.reference.binding == binding
  }

  /** `persist_artifact` on the log: as in memory, but within one workspace, and a binding id serves one
      artifact only. */
  ghost function PersistHere(log: Log, workspace: string, a: Artifact, r: Reference): (Log, Result<Aggregate>) {
    if !AggregateValid(a, r) then (log, Err(ValueError(PROJECTION_CORRUPT)))
    else if a.id.workspace != workspace then (log, Err(ValueError(WORKSPACE_MISMATCH)))
    else if KeyOf(a) !in log && BindingUsed(log, r.binding) then (log, Err(ValueError(ARTIFACT_CONFLICT)))
    else Persist(log, a, r)
  }

  function AppendHere(log: Log, workspace: string, e: Event): (Log, Result<Sequenced>) {
    if e.workspace != workspace then (log, Err(ValueError(WORKSPACE_MISMATCH))) else Append(log, e)
  }

  function LatestHere(log: Log, workspace: string, key: Key): Result<Option<Sequenced>> {
    if key.workspace != workspace then Err(ValueError(WORKSPACE_MISMATCH)) else Latest(log, key)
  }

  function AggregateHere(log: Log, workspace: string, key: Key): Result<Option<Aggregate>> {
    if key.workspace != workspace then Err(ValueError(WORKSPACE_MISMATCH)) else Ok(GetAggregate(log, key))
  }

  // ---- the two stores side by side ----

  datatype Answer =
    | Persisted(result: Result<Aggregate>)
    | Appended(number: Result<Sequenced>)
    | LatestIs(latest: Result<Option<Sequenced>>)
    | AggregateIs(aggregate: Result<Option<Aggregate>>)

  /** What the in-memory store answers. */
  function Answered(log: Log, call: Call): Answer {
    match call
    case PersistCall(a, r) => Persisted(Persist(log, a, r).1)
    case AppendCall(e) => Appended(Append(log, e).1)
    case LatestCall(key) => LatestIs(Latest(log, key))
    case AggregateCall(key) => AggregateIs(Ok(GetAggregate(log, key)))
  }

  /** What the SQLite store of the workspace answers. */
  ghost function AnsweredHere(log: Log, workspace: string, call: Call): Answer {
    match call
    case PersistCall(a, r) => Persisted(PersistHere(log, workspace, a, r).1)
    case AppendCall(e) => Appended(AppendHere(log, workspace, e).1)
    case LatestCall(key) => LatestIs(LatestHere(log, workspace, key))
    case AggregateCall(key) => AggregateIs(AggregateHere(log, workspace, key))
  }

  ghost function AfterHere(log: Log, workspace: string, call: Call): Log {
    match call
    case PersistCall(a, r) => PersistHere(log, workspace, a, r).0
    case AppendCall(e) => AppendHere(log, workspace, e).0
    case _ => log
  }

  function Answers(log: Log, calls: seq<Call>): (answers: seq<Answer>)
    ensures |answers| == |calls|
    decreases |calls|
  {
    if calls == [] then [] else [Answered(log, calls[0])] + Answers(After(log, calls[0]), calls[1..])
  }

  ghost function AnswersHere(log: Log, workspace: string, calls: seq<Call>): (answers: seq<Answer>)
    ensures |answers| == |calls|
    decreases |calls|
  {
    if calls == [] then []
    else [AnsweredHere(log, workspace, calls[0])] + AnswersHere(AfterHere(log, workspace, calls[0]), workspace, calls[1..])
  }

  ghost function RunHere(log: Log, workspace: string, calls: seq<Call>): Log
    decreases |calls|
  {
    if calls == [] then log else RunHere(AfterHere(log, workspace, calls[0]), workspace, calls[1..])
  }

  predicate WellAddressed(call: Call, workspace: string) {
    match call
    case PersistCall(a, r) => AggregateValid(a, r) && a.id.workspace == workspace
    case AppendCall(e) => e.workspace == workspace
    case LatestCall(key) => key.workspace == workspace
    case AggregateCall(key) => key.workspace == workspace
  }

  /** The call brings a new artifact with a binding id that another artifact already uses. */
  ghost predicate SharesBinding(log: Log, call: Call) {
    call.PersistCall? && KeyOf(call.artifact) !in log && BindingUsed(log, call.reference.binding)
  }

  /** One call on the same log: the stores do the same, or the SQLite store refuses what the other takes in. */
  lemma CallAgrees(log: Log, workspace: string, call: Call)
    requires WellAddressed(call, workspace)
    ensures if SharesBinding(log, call)
            then AnsweredHere(log, workspace, call) == Persisted(Err(ValueError(ARTIFACT_CONFLICT)))
                 && Answered(log, call) == Persisted(Ok(Aggregate(call.artifact, call.reference)))
            else AnsweredHere(log, workspace, call) == Answered(log, call)
                 && AfterHere(log, workspace, call) == After(log, call)
  {
    hide AggregateValid, BindingUsed;
  }

  /** Some call of a run shares a binding id, in the log that the calls before it made. */
  ghost predicate SharedAt(log: Log, calls: seq<Call>, i: nat) {
    i < |calls| && SharesBinding(RunCalls(log, calls[..i]), calls[i])
  }

  lemma SharedLater(log: Log, calls: seq<Call>, i: nat)
    requires calls != [] && i < |calls| - 1
    ensures SharedAt(log, calls, i + 1) <==> SharedAt(After(log, calls[0]), calls[1..], i)
  {
    hide After, SharesBinding;
    assert calls[..i + 1][1..] == calls[1..][..i];
  }

  /** On every run of well-addressed calls, reads among them, the two stores give the same answers and end with the
      same log if and only if no call brings a new artifact with a binding id that is already in use. */
  lemma {:induction false} StoresAgree(log: Log, workspace: string, calls: seq<Call>)
    requires forall i :: 0 <= i < |calls| ==> WellAddressed(calls[i], workspace)
    ensures AnswersHere(log, workspace, calls) == Answers(log, calls) && RunHere(log, workspace, calls) == RunCalls(log, calls)
            <==> forall i: nat :: !SharedAt(log, calls, i)
    decreases |calls|
  {
    hide After, AfterHere, Answered, AnsweredHere, SharesBinding;
    if calls != [] {
      var call, rest := calls[0], calls[1..];
      CallAgrees(log, workspace, call);
      assert calls[..0] == [];
      if SharesBinding(log, call) {
        assert SharedAt(log, calls, 0);
        assert AnswersHere(log, workspace, calls)[0] != Answers(log, calls)[0];
      } else {
        var next := After(log, call);
        StoresAgree(next, workspace, rest);
        assert AnswersHere(log, workspace, calls)[1..] == AnswersHere(next, workspace, rest);
        assert Answers(log, calls)[1..] == Answers(next, rest);
        SharedInTail(log, calls);
      }
    }
  }

  lemma SharedInTail(log: Log, calls: seq<Call>)
    requires calls != [] && !SharesBinding(log, calls[0])
    ensures (forall i: nat :: !SharedAt(log, calls, i)) <==> forall i: nat :: !SharedAt(After(log, calls[0]), calls[1..], i)
  {
    hide After, SharesBinding, SharedAt;
    assert !SharedAt(log, calls, 0) by { NotFirst(log, calls); }
    forall i: nat
      ensures SharedAt(log, calls, i + 1) <==> SharedAt(After(log, calls[0]), calls[1..], i)
    {
      if i < |calls| - 1 {
        SharedLater(log, calls, i);
      } else {
        NotBeyond(log, calls, i + 1);
        NotBeyond(After(log, calls[0]), calls[1..], i);
      }
    }
    forall i: nat
      ensures SharedAt(log, calls, i) ==> i > 0 && SharedAt(After(log, calls[0]), calls[1..], i - 1)
    {
      if i > 0 {
        assert SharedAt(log, calls, (i - 1) + 1) <==> SharedAt(After(log, calls[0]), calls[1..], i - 1);
      }
    }
  }

  lemma NotFirst(log: Log, calls: seq<Call>)
    requires calls != [] && !SharesBinding(log, calls[0])
    ensures !SharedAt(log, calls, 0)
  {
    assert calls[..0] == [];
  }

  lemma NotBeyond(log: Log, calls: seq<Call>, i: nat)
    requires i >= |calls|
    ensures !SharedAt(log, calls, i)
  {
  }

  /** The stores answer alike up to the first such call; there the one takes the artifact in, and the other
      reports a conflict. */
  lemma {:induction false} FirstDisagreement(log: Log, workspace: string, calls: seq<Call>, i: nat)
    requires forall j :: 0 <= j < |calls| ==> WellAddressed(calls[j], workspace)
    requires SharedAt(log, calls, i) && forall j: nat :: j < i ==> !SharedAt(log, calls, j)
    ensures AnswersHere(log, workspace, calls)[..i] == Answers(log, calls)[..i]
    ensures Answers(log, calls)[i] == Persisted(Ok(Aggregate(calls[i].artifact, calls[i].reference)))
    ensures AnswersHere(log, workspace, calls)[i] == Persisted(Err(ValueError(ARTIFACT_CONFLICT)))
    decreases i
  {
    hide After, AfterHere, Answered, AnsweredHere, SharesBinding;
    var call := calls[0];
    CallAgrees(log, workspace, call);
    assert calls[..0] == [];
    if i > 0 {
      assert !SharedAt(log, calls, 0);
      SharedLater(log, calls, i - 1);
      forall j: nat | j < i - 1
        ensures !SharedAt(After(log, call), calls[1..], j)
      {
        SharedLater(log, calls, j);
        assert !SharedAt(log, calls, j + 1);
      }
      FirstDisagreement(After(log, call), workspace, calls[1..], i - 1);
    }
  }

  ghost predicate SameBinding(binding: string, call: Call) {
    call.PersistCall? && call.reference.binding == binding
  }

  /** No two artifacts use one binding id, neither in the log nor in the calls to come. */
  ghost predicate BindingsUnshared(log: Log, calls: seq<Call>) {
    && (forall key, i :: key in log && 0 <= i < |calls| && SameBinding(log[key].aggregate.reference.binding, calls[i])
          ==> KeyOf(calls[i].artifact) == key)
    && (forall i, j :: 0 <= i < j < |calls| && calls[i].PersistCall? && SameBinding(calls[i].reference.binding, calls[j])
          ==> KeyOf(calls[j].artifact) == KeyOf(calls[i].artifact))
  }

  /** A condition on the calls alone: no call of a run shares a binding id when no two of its artifacts do. */
  lemma {:induction false} UnsharedAgree(log: Log, calls: seq<Call>, i: nat)
    requires BindingsUnshared(log, calls)
    ensures !SharedAt(log, calls, i)
    decreases |calls|
  {
    hide After;
    if calls != [] && i < |calls| {
      if i == 0 {
        assert calls[..0] == [];
        assert forall key :: key in log && SameBinding(log[key].aggregate.reference.binding, calls[0]) ==>
                               KeyOf(calls[0].artifact) == key;
      } else {
        UnsharedAfter(log, calls);
        UnsharedAgree(After(log, calls[0]), calls[1..], i - 1);
        SharedLater(log, calls, i - 1);
      }
    }
  }

  lemma UnsharedAfter(log: Log, calls: seq<Call>)
    requires calls != [] && BindingsUnshared(log, calls)
    ensures BindingsUnshared(After(log, calls[0]), calls[1..])
  {
    hide AggregateValid, NumberOf;
    var next, rest := After(log, calls[0]), calls[1..];
    forall key, i | key in next && 0 <= i < |rest| && SameBinding(next[key].aggregate.reference.binding, rest[i])
      ensures KeyOf(rest[i].artifact) == key
    {
      assert rest[i] == calls[i + 1];
      if key in log {
        assert next[key].aggregate == log[key].aggregate;
      }
    }
  }

  lemma BindingsUsed(rows: Rows, workspace: string, binding: string)
    requires RowsValid(rows, workspace)
    ensures BindingTaken(rows.references, binding) <==> BindingUsed(LogOf(rows, workspace), binding)
  {
    hide Selected, ArtifactRowValid;
    LogOfValid(rows, workspace);
    if BindingTaken(rows.references, binding) {
      var a :| a in rows.references && rows.references[a].binding == binding;
      assert Key(workspace, a) in LogOf(rows, workspace);
    }
    if BindingUsed(LogOf(rows, workspace), binding) {
      var key :| key in LogOf(rows, workspace) && LogOf(rows, workspace)[key].aggregate.reference.binding == binding;
      assert key.artifact in rows.references;
    }
  }

  // ---- the connection ----

  datatype State = OPEN | TRANSACTION_ACTIVE | COMMIT_OUTCOME_UNKNOWN | QUARANTINED | CLOSED

  /** How a database call fails: an operational error or not, busy or not, and whether it is fatal for
      the connection. */
  datatype Fault = Fault(operational: bool, busy: bool, fatal: bool)
  {
    function Code(): string {
      if operational && busy then "attestation_persistence_sqlite_busy" else "attestation_persistence_sqlite_operational"
    }
  }

  /** Which database calls of a store call fail.  `landed` says whether a commit that fails took effect. */
  datatype Faults = Faults(begin: Option<Fault>, select: Option<Fault>, events: Option<Fault>, insert: Option<Fault>,
                           insertReference: Option<Fault>, reread: Option<Fault>, commit: Option<Fault>,
                           rollback: Option<Fault>, landed: bool)
  {
    predicate Nothing() {
      begin.None? && select.None? && events.None? && insert.None? && insertReference.None? && reread.None?
      && commit.None? && rollback.None?
    }
  }

  class SqliteStore {
    const workspace: string
    var state: State
    var connected: bool
    var durable: Rows
    var working: Option<Rows>

    /** Between calls the store is open without a transaction, or closed without a connection. */
    predicate Quiescent()
      reads this
    {
      working.None? && ((state == OPEN && connected) || (state == CLOSED && !connected))
    }

    ghost predicate Valid()
      reads this
    {
      Quiescent() && RowsValid(durable, workspace)
    }

    ghost function TheLog(): Log
      reads this
    {
      LogOf(durable, workspace)
    }

    constructor (workspace: string)
      ensures Valid() && this.workspace == workspace && state == OPEN && durable == NoRows
    {
      this.workspace := workspace;
      state, connected, durable, working := OPEN, true, NoRows, None;
    }

    /** Every state-changing path below leaves the durable tables alone unless it says otherwise. */
    method Terminate()
      modifies this`state, this`connected, this`working
      ensures state == CLOSED && !connected && working.None?
    {
      connected := false;
      state := CLOSED;
      working := None;
    }

    method Close(fault: Option<Fault>) returns (r: Guard)
      requires Valid()
      modifies this
      ensures Valid() && state == CLOSED && durable == old(durable)
      ensures r == if old(state) == OPEN && fault.Some? then Fail(ValueError(CLOSE_FAILED)) else Pass
    {
      if state == CLOSED {
        return Pass;
      }
      Terminate();
      return if fault.Some? then Fail(ValueError(CLOSE_FAILED)) else Pass;
    }

    /** `_begin_locked` on an open store. */
    method Begin(fault: Option<Fault>) returns (r: Guard)
      requires state == OPEN && connected && working.None?
      modifies this`state, this`connected, this`working
      ensures r.Pass? <==> fault.None?
      ensures r.Pass? ==> state == TRANSACTION_ACTIVE && connected && working == Some(durable)
      ensures r.Fail? ==> Quiescent() && r.error == ValueError(fault.value.Code())
    {
      if fault.Some? {
        if !fault.value.operational && fault.value.fatal {
          Terminate();
        }
        return Fail(ValueError(fault.value.Code()));
      }
      state := TRANSACTION_ACTIVE;
      working := Some(durable);
      return Pass;
    }

    /** `_rollback_locked` after an error inside a transaction. */
    method Abort(error: Error, rollback: Option<Fault>) returns (e: Error)
      requires state == TRANSACTION_ACTIVE && connected && working.Some?
      modifies this`state, this`connected, this`working
      ensures Quiescent()
      ensures e == if rollback.Some? then ValueError(ROLLBACK_FAILED) else error
      ensures rollback.None? ==> state == OPEN
    {
      if rollback.Some? {
        state := QUARANTINED;
        Terminate();
        return ValueError(ROLLBACK_FAILED);
      }
      working := None;
      state := OPEN;
      return error;
    }

    /** `_raise_sqlite_failure_locked` inside a transaction. */
    method Break(fault: Fault, rollback: Option<Fault>) returns (e: Error)
      requires state == TRANSACTION_ACTIVE && connected && working.Some?
      modifies this`state, this`connected, this`working
      ensures Quiescent() && e in {ValueError(fault.Code()), ValueError(ROLLBACK_FAILED)}
    {
      if fault.fatal {
        Terminate();
        return ValueError(fault.Code());
      }
      e := Abort(ValueError(fault.Code()), rollback);
    }

    /** `_commit_locked`: a commit that fails closes the store, and may or may not have taken effect. */
    method Commit(fault: Option<Fault>, landed: bool) returns (r: Guard)
      requires state == TRANSACTION_ACTIVE && connected && working.Some?
      modifies this
      ensures Quiescent()
      ensures r == if fault.Some? then Fail(ValueError(COMMIT_UNKNOWN)) else Pass
      ensures r.Pass? ==> state == OPEN && durable == old(working).value
      ensures r.Fail? ==> durable == if landed then old(working).value else old(durable)
    {
      if fault.Some? {
        state := COMMIT_OUTCOME_UNKNOWN;
        if landed {
          durable := working.value;
        }
        Terminate();
        return Fail(ValueError(COMMIT_UNKNOWN));
      }
      durable := working.value;
      working := None;
      state := OPEN;
      return Pass;
    }

    method PersistArtifact(a: Artifact, reference: Reference, faults: Faults) returns (r: Result<Aggregate>)
      requires Valid()
      modifies this
      ensures Valid()
      ensures old(state) == CLOSED ==> state == CLOSED && durable == old(durable) && r == Err(ValueError(UNAVAILABLE))
      ensures r.Err? ==>
                || durable == old(durable)
                || (r.error == ValueError(COMMIT_UNKNOWN)
                    && TheLog() == PersistHere(old(TheLog()), workspace, a, reference).0
                    && PersistHere(old(TheLog()), workspace, a, reference).1.Ok?)
      ensures r.Ok? ==> (TheLog(), r) == PersistHere(old(TheLog()), workspace, a, reference)
      ensures old(state) == OPEN && faults.Nothing() ==>
                state == OPEN && (TheLog(), r) == PersistHere(old(TheLog()), workspace, a, reference)
    {
      hide RowsValid, LogOf, AggregateValid, BindingUsed, BindingTaken, ReadAggregate;
      if state != OPEN || !connected {
        return Err(ValueError(UNAVAILABLE));
      }
      if !AggregateValid(a, reference) {
        return Err(ValueError(PROJECTION_CORRUPT));
      }
      if a.id.workspace != workspace {
        return Err(ValueError(WORKSPACE_MISMATCH));
      }
      var begun := Begin(faults.begin);
      if begun.Fail? {
        return Err(begun.error);
      }
      if faults.select.Some? {
        var e := Break(faults.select.value, faults.rollback);
        return Err(e);
      }
      AggregateReads(durable, workspace, a.id);
      var existing := ReadAggregate(working.value, a.id).value;
      if existing.Some? {
        if existing.value.artifact != a {
          var e := Abort(ValueError(ARTIFACT_CONFLICT), faults.rollback);
          return Err(e);
        }
        if existing.value.reference != reference {
          var e := Abort(ValueError(REFERENCE_CONFLICT), faults.rollback);
          return Err(e);
        }
        var done := Commit(faults.commit, faults.landed);
        return if done.Fail? then Err(done.error) else Ok(existing.value);
      }
      r := InsertAggregate(a, reference, faults);
    }

    /** The two inserts, reading the aggregate back, and the commit. */
    method InsertAggregate(a: Artifact, reference: Reference, faults: Faults) returns (r: Result<Aggregate>)
      requires state == TRANSACTION_ACTIVE && connected && working == Some(durable) && RowsValid(durable, workspace)
      requires AggregateValid(a, reference) && a.id.workspace == workspace && KeyOf(a) !in TheLog()
      modifies this
      ensures Valid()
      ensures r.Err? ==>
                || durable == old(durable)
                || (r.error == ValueError(COMMIT_UNKNOWN)
                    && TheLog() == PersistHere(old(TheLog()), workspace, a, reference).0
                    && PersistHere(old(TheLog()), workspace, a, reference).1.Ok?)
      ensures r.Ok? ==> (TheLog(), r) == PersistHere(old(TheLog()), workspace, a, reference)
      ensures faults.Nothing() ==> state == OPEN && (TheLog(), r) == PersistHere(old(TheLog()), workspace, a, reference)
    {
      hide RowsValid, LogOf, AggregateValid, BindingUsed, BindingTaken, ReadAggregate;
      LogOfValid(durable, workspace);
      if faults.insert.Some? {
        var e := Break(faults.insert.value, faults.rollback);
        return Err(e);
      }
      if faults.insertReference.Some? {
        var e := Break(faults.insertReference.value, faults.rollback);
        return Err(e);
      }
      BindingsUsed(durable, workspace, reference.binding);
      if BindingTaken(working.value.references, reference.binding) {
        var e := Abort(ValueError(ARTIFACT_CONFLICT), faults.rollback);
        return Err(e);
      }
      PersistRows(durable, workspace, a, reference);
      working := Some(WithAggregate(working.value, a, reference));
      if faults.reread.Some? {
        var e := Break(faults.reread.value, faults.rollback);
        return Err(e);
      }
      AggregateReads(working.value, workspace, a.id);
      var stored := ReadAggregate(working.value, a.id).value;
      if stored.None? {
        assert false;
      }
      var done := Commit(faults.commit, faults.landed);
      return if done.Fail? then Err(done.error) else Ok(stored.value);
    }

    method GetArtifactAggregate(workspaceIdentity: string, a: ArtifactId, faults: Faults)
      returns (r: Result<Option<Aggregate>>)
      requires Valid()
      modifies this
      ensures Valid() && durable == old(durable) && (old(state) == CLOSED ==> state == CLOSED && r.Err?)
      ensures r.Ok? ==> r == AggregateHere(TheLog(), workspace, Key(workspaceIdentity, a))
      ensures old(state) == OPEN && faults.Nothing() ==>
                state == OPEN && r == AggregateHere(TheLog(), workspace, Key(workspaceIdentity, a))
    {
      hide RowsValid, LogOf, ReadAggregate;
      if workspaceIdentity != workspace {
        return Err(ValueError(WORKSPACE_MISMATCH));
      }
      if state != OPEN || !connected {
        return Err(ValueError(UNAVAILABLE));
      }
      var begun := Begin(faults.begin);
      if begun.Fail? {
        return Err(begun.error);
      }
      if faults.select.Some? {
        var e := Break(faults.select.value, faults.rollback);
        return Err(e);
      }
      AggregateReads(durable, workspace, a);
      var aggregate := ReadAggregate(working.value, a);
      var done := Commit(faults.commit, faults.landed);
      return if done.Fail? then Err(done.error) else aggregate;
    }

    method AppendEvent(e: Event, faults: Faults) returns (r: Result<Sequenced>)
      requires Valid()
      modifies this
      ensures Valid()
      ensures old(state) == CLOSED ==> state == CLOSED && durable == old(durable) && r == Err(ValueError(UNAVAILABLE))
      ensures r.Err? ==>
                || durable == old(durable)
                || (r.error == ValueError(COMMIT_UNKNOWN)
                    && TheLog() == AppendHere(old(TheLog()), workspace, e).0
                    && AppendHere(old(TheLog()), workspace, e).1.Ok?)
      ensures r.Ok? ==> (TheLog(), r) == AppendHere(old(TheLog()), workspace, e)
      ensures old(state) == OPEN && faults.Nothing() ==>
                state == OPEN && (TheLog(), r) == AppendHere(old(TheLog()), workspace, e)
    {
      hide RowsValid, LogOf, ReadAggregate, EventRows, NumberOf;
      if state != OPEN || !connected {
        return Err(ValueError(UNAVAILABLE));
      }
      if e.workspace != workspace {
        return Err(ValueError(WORKSPACE_MISMATCH));
      }
      var begun := Begin(faults.begin);
      if begun.Fail? {
        return Err(begun.error);
      }
      if faults.select.Some? {
        var broken := Break(faults.select.value, faults.rollback);
        return Err(broken);
      }
      AggregateReads(durable, workspace, e.artifact);
      LogOfValid(durable, workspace);
      var aggregate := ReadAggregate(working.value, e.artifact).value;
      if aggregate.None? {
        var aborted := Abort(ValueError(NOT_FOUND), faults.rollback);
        return Err(aborted);
      }
      if !Matches(aggregate.value, e) {
        var aborted := Abort(ValueError(BINDING_MISMATCH), faults.rollback);
        return Err(aborted);
      }
      r := AppendToHistory(e, faults);
    }

    /** The lookup of an event of this identity, the insert and the commit. */
    method AppendToHistory(e: Event, faults: Faults) returns (r: Result<Sequenced>)
      requires state == TRANSACTION_ACTIVE && connected && working == Some(durable) && RowsValid(durable, workspace)
      requires e.workspace == workspace && e.artifact in durable.artifacts && e.artifact in durable.references
      requires Matches(Aggregate(durable.artifacts[e.artifact], durable.references[e.artifact]), e)
      modifies this
      ensures Valid()
      ensures r.Err? ==>
                || durable == old(durable)
                || (r.error == ValueError(COMMIT_UNKNOWN)
                    && TheLog() == AppendHere(old(TheLog()), workspace, e).0
                    && AppendHere(old(TheLog()), workspace, e).1.Ok?)
      ensures r.Ok? ==> (TheLog(), r) == AppendHere(old(TheLog()), workspace, e)
      ensures faults.Nothing() ==> state == OPEN && (TheLog(), r) == AppendHere(old(TheLog()), workspace, e)
    {
      hide RowsValid, LogOf, EventRows, NumberOf, Selected, ReadAggregate, AggregateValid;
      LogOfValid(durable, workspace);
      EventRowsOfValid(durable, workspace, e.artifact);
      if faults.events.Some? {
        var broken := Break(faults.events.value, faults.rollback);
        return Err(broken);
      }
      var rows := EventRows(working.value, e.artifact);
      HistoryNumbered(durable, workspace, e.artifact);
      var n := NumberOf(EventsOf(rows), e.Id());
      if n > 0 {
        if rows[n - 1].event != e {
          var aborted := Abort(ValueError(EVENT_CONFLICT), faults.rollback);
          return Err(aborted);
        }
        var done := Commit(faults.commit, faults.landed);
        return if done.Fail? then Err(done.error) else Ok(rows[n - 1]);
      }
      if faults.insert.Some? {
        var broken := Break(faults.insert.value, faults.rollback);
        return Err(broken);
      }
      AppendRows(durable, workspace, e);
      var row := Sequenced(|rows| + 1, e);
      working := Some(WithEvent(working.value, row));
      if faults.reread.Some? {
        var broken := Break(faults.reread.value, faults.rollback);
        return Err(broken);
      }
      var done := Commit(faults.commit, faults.landed);
      return if done.Fail? then Err(done.error) else Ok(row);
    }

    method LatestEvent(workspaceIdentity: string, a: ArtifactId, faults: Faults) returns (r: Result<Option<Sequenced>>)
      requires Valid()
      modifies this
      ensures Valid() && durable == old(durable) && (old(state) == CLOSED ==> state == CLOSED && r.Err?)
      ensures r.Ok? ==> r == LatestHere(TheLog(), workspace, Key(workspaceIdentity, a))
      ensures old(state) == OPEN && faults.Nothing() ==>
                state == OPEN && r == LatestHere(TheLog(), workspace, Key(workspaceIdentity, a))
    {
      hide RowsValid, LogOf, ReadAggregate, EventRows, Selected;
      if workspaceIdentity != workspace {
        return Err(ValueError(WORKSPACE_MISMATCH));
      }
      if state != OPEN || !connected {
        return Err(ValueError(UNAVAILABLE));
      }
      var begun := Begin(faults.begin);
      if begun.Fail? {
        return Err(begun.error);
      }
      if faults.select.Some? {
        var broken := Break(faults.select.value, faults.rollback);
        return Err(broken);
      }
      AggregateReads(durable, workspace, a);
      LogOfValid(durable, workspace);
      var aggregate := ReadAggregate(working.value, a).value;
      if aggregate.None? {
        var aborted := Abort(ValueError(NOT_FOUND), faults.rollback);
        return Err(aborted);
      }
      if faults.events.Some? {
        var broken := Break(faults.events.value, faults.rollback);
        return Err(broken);
      }
      EventRowsOfValid(durable, workspace, a);
      HistoryNumbered(durable, workspace, a);
      var rows := EventRows(working.value, a);
      var latest := if rows == [] then None else Some(rows[|rows| - 1]);
      var done := Commit(faults.commit, faults.landed);
      return if done.Fail? then Err(done.error) else Ok(latest);
    }
  }

  lemma HistoryNumbered(rows: Rows, workspace: string, a: ArtifactId)
    requires RowsValid(rows, workspace) && a in rows.artifacts
    ensures Numbered(Selected(rows.events, a))
  {
    assert ArtifactRowValid(rows, workspace, a);
  }
}
