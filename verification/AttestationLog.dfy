/** The attestation history as an append-only log per artifact.
    Identifiers and digests are modelled by the values they are derived from. */
module AttestationLog {
  import opened Outcomes

  datatype ArtifactId = ArtifactId(workspace: string, attestation: string)

  /** What a reference must repeat from the artifact's claims. */
  datatype Scope = Scope(repository: string, subject: string, driver: string, remoteAuthority: string, preview: string,
                         revision: int, operationSet: string, remoteSnapshot: string, evidence: string)

  /** The claims of the second attestation version also bind a principal and a challenge. */
  datatype Extension = Extension(principal: string, challenge: string)

  datatype Artifact = Artifact(id: ArtifactId, scope: Scope, extension: Option<Extension>, verifiedAt: string,
                               expiresAt: int, rest: string)

  datatype Reference = Reference(artifact: ArtifactId, artifactDigest: Artifact, binding: string, scope: Scope,
                                 extension: Option<Extension>, verifiedAt: string, rest: string)

  datatype Aggregate = Aggregate(artifact: Artifact, reference: Reference)

  /** `validate_artifact_aggregate`. */
  predicate AggregateValid(a: Artifact, r: Reference) {
    && r.artifact == a.id && r.artifactDigest == a && r.scope == a.scope && r.verifiedAt == a.verifiedAt
    && (a.extension.Some? ==> r.extension == a.extension)
  }

  datatype EventOutcome = Successful(result: string) | Failed(code: string)

  datatype Event = Event(workspace: string, artifact: ArtifactId, artifactDigest: Artifact, attempt: string,
                         context: string, reference: Reference, outcome: EventOutcome, at: int)
  {
    function Id(): EventId {
      EventId(workspace, artifact, attempt)
    }
  }

  datatype EventId = EventId(workspace: string, artifact: ArtifactId, attempt: string)

  datatype Sequenced = Sequenced(sequence: nat, event: Event)

  datatype Key = Key(workspace: string, artifact: ArtifactId)

  datatype History = History(aggregate: Aggregate, events: seq<Event>)

  type Log = map<Key, History>

  const PAYLOAD_INVALID := "attestation_persistence_payload_invalid"
  const ARTIFACT_CONFLICT := "attestation_artifact_conflict"
  const REFERENCE_CONFLICT := "attestation_binding_reference_conflict"
  const NOT_FOUND := "attestation_artifact_not_found"
  const BINDING_MISMATCH := "attestation_revalidation_event_binding_mismatch"
  const EVENT_CONFLICT := "attestation_revalidation_event_conflict"
  const EVENT_CORRUPT := "attestation_revalidation_event_corrupt"
  const AGGREGATE_CORRUPT := "attestation_artifact_aggregate_corrupt"

  function KeyOf(a: Artifact): Key {
    Key(a.id.workspace, a.id)
  }

  function EventKey(e: Event): Key {
    Key(e.workspace, e.artifact)
  }

  // ---- the calls ----

  /** `persist_artifact`. */
  function Persist(log: Log, a: Artifact, r: Reference): (Log, Result<Aggregate>) {
    if !AggregateValid(a, r) then (log, Err(ValueError(PAYLOAD_INVALID)))
    else if KeyOf(a) !in log then (log[KeyOf(a) := History(Aggregate(a, r), [])], Ok(Aggregate(a, r)))
    else
      var existing := log[KeyOf(a)].aggregate;
      (log,
       if existing.artifact != a then Err(ValueError(ARTIFACT_CONFLICT))
       else if existing.reference != r then Err(ValueError(REFERENCE_CONFLICT))
       else Ok(existing))
  }

  /** The number of the event with this identity, counted from one; zero if there is none. */
  function NumberOf(events: seq<Event>, id: EventId): (n: nat)
    ensures n <= |events|
    ensures n > 0 ==> events[n - 1].Id() == id
    ensures n == 0 ==> forall i :: 0 <= i < |events| ==> events[i].Id() != id
  {
    if events == [] then 0
    else if events[|events| - 1].Id() == id then |events|
    else NumberOf(events[..|events| - 1], id)
  }

  predicate Matches(aggregate: Aggregate, e: Event) {
    e.artifactDigest == aggregate.artifact && e.reference == aggregate.reference
  }

  /** `append_revalidation_event`. */
  function Append(log: Log, e: Event): (Log, Result<Sequenced>) {
    var key := EventKey(e);
    if key !in log then (log, Err(ValueError(NOT_FOUND)))
    else if !Matches(log[key].aggregate, e) then (log, Err(ValueError(BINDING_MISMATCH)))
    else
      var events := log[key].events;
      var n := NumberOf(events, e.Id());
      if n > 0 then
        (log, if events[n - 1] == e then Ok(Sequenced(n, e)) else Err(ValueError(EVENT_CONFLICT)))
      else
        (log[key := History(log[key].aggregate, events + [e])], Ok(Sequenced(|events| + 1, e)))
  }

  /** `get_latest_revalidation_event`. */
  function Latest(log: Log, key: Key): Result<Option<Sequenced>> {
    if key !in log then Err(ValueError(NOT_FOUND))
    else
      var events := log[key].events;
      Ok(if events == [] then None else Some(Sequenced(|events|, events[|events| - 1])))
  }

  function GetAggregate(log: Log, key: Key): Option<Aggregate> {
    if key in log then Some(log[key].aggregate) else None
  }

  // ---- what every log keeps ----

  ghost predicate HistoryInv(key: Key, h: History) {
    && AggregateValid(h.aggregate.artifact, h.aggregate.reference) && KeyOf(h.aggregate.artifact) == key
    && (forall i :: 0 <= i < |h.events| ==> EventKey(h.events[i]) == key && Matches(h.aggregate, h.events[i]))
    && (forall i, j :: 0 <= i < j < |h.events| ==> h.events[i].Id() != h.events[j].Id())
  }

  ghost predicate LogInv(log: Log) {
    forall key :: key in log ==> HistoryInv(key, log[key])
  }

  datatype Call =
    | PersistCall(artifact: Artifact, reference: Reference)
    | AppendCall(event: Event)
    | LatestCall(key: Key)
    | AggregateCall(key: Key)

  function After(log: Log, call: Call): Log {
    match call
    case PersistCall(a, r) => Persist(log, a, r).0
    case AppendCall(e) => Append(log, e).0
    case _ => log
  }

  function RunCalls(log: Log, calls: seq<Call>): Log
    decreases |calls|
  {
    if calls == [] then log else RunCalls(After(log, calls[0]), calls[1..])
  }

  /** `later` continues `log`: the same aggregates, and every history only longer. */
  ghost predicate Continues(log: Log, later: Log) {
    forall key :: key in log ==>
      key in later && later[key].aggregate == log[key].aggregate && log[key].events <= later[key].events
  }

  lemma HistoryGrows(key: Key, h: History, e: Event)
    requires HistoryInv(key, h) && EventKey(e) == key && Matches(h.aggregate, e) && NumberOf(h.events, e.Id()) == 0
    ensures HistoryInv(key, History(h.aggregate, h.events + [e]))
  {
    hide AggregateValid;
  }

  lemma PersistContinues(log: Log, a: Artifact, r: Reference)
    requires LogInv(log)
    ensures LogInv(Persist(log, a, r).0) && Continues(log, Persist(log, a, r).0)
  {
    hide AggregateValid, HistoryInv;
    var later := Persist(log, a, r).0;
    if later != log {
      assert HistoryInv(KeyOf(a), later[KeyOf(a)]) by { NewHistory(a, r); }
    }
  }

  lemma NewHistory(a: Artifact, r: Reference)
    requires AggregateValid(a, r)
    ensures HistoryInv(KeyOf(a), History(Aggregate(a, r), []))
  {
    hide AggregateValid;
  }

  lemma AppendContinues(log: Log, e: Event)
    requires LogInv(log)
    ensures LogInv(Append(log, e).0) && Continues(log, Append(log, e).0)
  {
    hide HistoryInv, NumberOf;
    var later := Append(log, e).0;
    if later != log {
      HistoryGrows(EventKey(e), log[EventKey(e)], e);
    }
  }

  lemma CallContinues(log: Log, call: Call)
    requires LogInv(log)
    ensures LogInv(After(log, call)) && Continues(log, After(log, call))
  {
    hide LogInv, Continues, Persist, Append;
    match call
    case PersistCall(a, r) => PersistContinues(log, a, r);
    case AppendCall(e) => AppendContinues(log, e);
    case _ => NothingContinues(log);
  }

  lemma NothingContinues(log: Log)
    ensures Continues(log, log)
  {
  }

  /** The history is append-only: over every run of calls, aggregates never change, histories only grow
      at the end, and no history holds two events of one identity. */
  lemma {:induction false} HistoryIsAppendOnly(log: Log, calls: seq<Call>)
    requires LogInv(log)
    ensures LogInv(RunCalls(log, calls)) && Continues(log, RunCalls(log, calls))
    decreases |calls|
  {
    if calls != [] {
      CallContinues(log, calls[0]);
      HistoryIsAppendOnly(After(log, calls[0]), calls[1..]);
    }
  }

  lemma NumberIsUnique(events: seq<Event>, i: nat)
    requires i < |events| && forall j, k :: 0 <= j < k < |events| ==> events[j].Id() != events[k].Id()
    ensures NumberOf(events, events[i].Id()) == i + 1
  {
    var n := NumberOf(events, events[i].Id());
    assert n > 0;
  }

  /** Appending to a log that already holds an event of this identity. */
  lemma AppendAgain(log: Log, e: Event, i: nat, other: Event)
    requires LogInv(log) && EventKey(e) in log && i < |log[EventKey(e)].events| && log[EventKey(e)].events[i] == e
    requires other.Id() == e.Id() && Matches(log[EventKey(e)].aggregate, other)
    ensures Append(log, other) == (log, if other == e then Ok(Sequenced(i + 1, e)) else Err(ValueError(EVENT_CONFLICT)))
  {
    hide NumberOf, AggregateValid;
    assert HistoryInv(EventKey(e), log[EventKey(e)]);
    NumberIsUnique(log[EventKey(e)].events, i);
  }

  lemma AppendedAt(log: Log, e: Event)
    requires LogInv(log) && Append(log, e).1.Ok?
    ensures var (later, r) := Append(log, e); var key := EventKey(e);
      && key in later && 0 < r.value.sequence <= |later[key].events| && r.value.event == e
      && later[key].events[r.value.sequence - 1] == e && Matches(later[key].aggregate, e)
  {
    hide HistoryInv;
  }

  /** An event keeps its number for ever: appending it again, after any further calls, changes nothing and
      returns the number it first got, and appending another event of the same identity is refused. */
  lemma AppendedKeepsNumber(log: Log, e: Event, calls: seq<Call>, other: Event)
    requires LogInv(log) && Append(log, e).1.Ok?
    requires other.Id() == e.Id() && other != e && other.artifactDigest == e.artifactDigest && other.reference == e.reference
    ensures var later := RunCalls(Append(log, e).0, calls);
      && Append(later, e) == (later, Append(log, e).1)
      && Append(later, other) == (later, Err(ValueError(EVENT_CONFLICT)))
  {
    hide Append, LogInv;
    var first := Append(log, e).0;
    var later := RunCalls(first, calls);
    AppendContinues(log, e);
    AppendedAt(log, e);
    HistoryIsAppendOnly(first, calls);
    var key := EventKey(e);
    var i := Append(log, e).1.value.sequence - 1;
    assert first[key].events <= later[key].events;
    AppendAgain(later, e, i, e);
    AppendAgain(later, e, i, other);
  }

  /** A successful append of a new event is what `latest` returns, one above the previous latest. */
  lemma LatestIsLastAppended(log: Log, e: Event)
    requires EventKey(e) in log && NumberOf(log[EventKey(e)].events, e.Id()) == 0 && Append(log, e).1.Ok?
    ensures var (later, r) := Append(log, e);
      && Latest(later, EventKey(e)) == Ok(Some(r.value))
      && r.value == Sequenced(|log[EventKey(e)].events| + 1, e)
      && later[EventKey(e)].events == log[EventKey(e)].events + [e]
  {
  }

  // ---- what a stored history repeats ----

  /** The reference repeats the claims of the artifact it belongs to, field by field. */
  ghost predicate Repeats(r: Reference, a: Artifact) {
    && r.artifact.workspace == a.id.workspace && r.artifact.attestation == a.id.attestation && r.artifactDigest == a
    && r.scope.repository == a.scope.repository && r.scope.subject == a.scope.subject
    && r.scope.driver == a.scope.driver && r.scope.remoteAuthority == a.scope.remoteAuthority
    && r.scope.preview == a.scope.preview && r.scope.revision == a.scope.revision
    && r.scope.operationSet == a.scope.operationSet && r.scope.remoteSnapshot == a.scope.remoteSnapshot
    && r.scope.evidence == a.scope.evidence && r.verifiedAt == a.verifiedAt
    && (a.extension.Some? ==>
          r.extension.Some? && r.extension.value.principal == a.extension.value.principal
          && r.extension.value.challenge == a.extension.value.challenge)
  }

  /** A new artifact is stored exactly when its reference repeats it. */
  lemma StoredExactly(log: Log, a: Artifact, r: Reference)
    requires Key(a.id.workspace, a.id) !in log
    ensures Persist(log, a, r).1.Ok? <==> Repeats(r, a)
    ensures Persist(log, a, r).1.Err? ==> Persist(log, a, r) == (log, Err(ValueError("attestation_persistence_payload_invalid")))
    ensures Persist(log, a, r).1.Ok? ==>
              Persist(log, a, r).0 == log[Key(a.id.workspace, a.id) := History(Aggregate(a, r), [])]
  {
    assert r.scope == a.scope <==>
      Scope(r.scope.repository, r.scope.subject, r.scope.driver, r.scope.remoteAuthority, r.scope.preview,
            r.scope.revision, r.scope.operationSet, r.scope.remoteSnapshot, r.scope.evidence) == a.scope;
  }

  /** Over every run of calls on an empty log: each history stands under the workspace and the id of its artifact, its
      reference repeats the artifact, and each of its events names that artifact and carries that reference. */
  lemma StoredHistoriesRepeat(calls: seq<Call>, key: Key)
    requires key in RunCalls(map[], calls)
    ensures var h := RunCalls(map[], calls)[key];
      && key.workspace == h.aggregate.artifact.id.workspace && key.artifact == h.aggregate.artifact.id
      && Repeats(h.aggregate.reference, h.aggregate.artifact)
      && forall i :: 0 <= i < |h.events| ==>
           && h.events[i].workspace == key.workspace && h.events[i].artifact == key.artifact
           && h.events[i].artifactDigest == h.aggregate.artifact && h.events[i].reference == h.aggregate.reference
  {
    hide RunCalls;
    HistoryIsAppendOnly(map[], calls);
    var h := RunCalls(map[], calls)[key];
    assert HistoryInv(key, h);
    forall i | 0 <= i < |h.events|
      ensures h.events[i].workspace == key.workspace && h.events[i].artifact == key.artifact
    {
      assert EventKey(h.events[i]) == key;
    }
  }

  // ---- what is refused ----

  /** Persisting what is stored already: the same again is returned, and nothing is ever replaced. */
  lemma PersistAnswers(log: Log, a: Artifact, r: Reference)
    requires AggregateValid(a, r) && Key(a.id.workspace, a.id) in log
    ensures var stored := log[Key(a.id.workspace, a.id)].aggregate;
      Persist(log, a, r) ==
        (log,
         if stored.artifact == a && stored.reference == r then Ok(stored)
         else Err(ValueError(if stored.artifact == a then "attestation_binding_reference_conflict"
                             else "attestation_artifact_conflict")))
  {
  }

  /** Appending is refused without an artifact, for another artifact or reference, and for another event under an
      identity that is stored. */
  lemma AppendAnswers(log: Log, e: Event)
    requires LogInv(log)
    ensures var key := Key(e.workspace, e.artifact); var r := Append(log, e).1;
      && (r.Err? ==> Append(log, e).0 == log)
      && (key !in log ==> r == Err(ValueError("attestation_artifact_not_found")))
      && (key in log && !(e.artifactDigest == log[key].aggregate.artifact && e.reference == log[key].aggregate.reference) ==>
            r == Err(ValueError("attestation_revalidation_event_binding_mismatch")))
      && (key in log && e.artifactDigest == log[key].aggregate.artifact && e.reference == log[key].aggregate.reference ==>
            forall i :: 0 <= i < |log[key].events| && log[key].events[i].attempt == e.attempt ==>
              r == if log[key].events[i] == e then Ok(Sequenced(i + 1, e))
                   else Err(ValueError("attestation_revalidation_event_conflict")))
  {
    hide NumberOf, AggregateValid;
    var key := EventKey(e);
    if key in log && Matches(log[key].aggregate, e) {
      assert HistoryInv(key, log[key]);
      forall i | 0 <= i < |log[key].events| && log[key].events[i].attempt == e.attempt
        ensures Append(log, e).1 == if log[key].events[i] == e then Ok(Sequenced(i + 1, e))
                                    else Err(ValueError("attestation_revalidation_event_conflict"))
      {
        assert EventKey(log[key].events[i]) == key;
        assert log[key].events[i].Id() == e.Id();
        NumberIsUnique(log[key].events, i);
      }
    }
  }
}
