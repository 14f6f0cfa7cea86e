/** Revalidating a persisted attestation after a restart: the attempt boundary, and the service that
    records exactly one event for every call that returns. */
module RestartRevalidation {
  import opened Outcomes
  import opened AttestationLog
  import opened AttestationMemory

  // ---- the attempt boundary ----

  /** What the boundary knows of an attempt: whom it was issued for, and the event it was bound to. */
  datatype Entry = Entry(workspace: string, artifact: ArtifactId, event: Option<Event>)

  datatype Issued = Issued(attempts: map<string, Entry>, tombstones: set<string>)

  datatype Attempt = Attempt(id: string, workspace: string, artifact: ArtifactId)

  const COLLISION := "attestation_attempt_id_collision"
  const MISMATCH := "attestation_attempt_boundary_mismatch"
  const ENTROPY := "attestation_attempt_entropy_unavailable"

  /** `create_attempt`; `entropy` is the hexadecimal text drawn, if the source answers. */
  function CreateAttempt(b: Issued, workspace: string, artifact: ArtifactId, entropy: Option<string>)
    : (Issued, Result<Attempt>)
  {
    if entropy.None? || |entropy.value| != 32 then (b, Err(ValueError(ENTROPY))) else
    var id := "attempt-" + entropy.value;
    if id in b.tombstones then (b, Err(ValueError(COLLISION)))
    else (Issued(b.attempts[id := Entry(workspace, artifact, None)], b.tombstones + {id}),
          Ok(Attempt(id, workspace, artifact)))
  }

  /** `finalize`: the first event binds the attempt; the same event again is returned; another is refused. */
  function Finalize(b: Issued, attempt: Attempt, e: Event): (Issued, Result<Event>) {
    if attempt.id !in b.attempts then (b, Err(ValueError(MISMATCH)))
    else
      var entry := b.attempts[attempt.id];
      if entry.workspace != attempt.workspace || entry.artifact != attempt.artifact
      || e.attempt != attempt.id || e.workspace != attempt.workspace || e.artifact != attempt.artifact then
        (b, Err(ValueError(MISMATCH)))
      else if entry.event.None? then
        (b.(attempts := b.attempts[attempt.id := entry.(event := Some(e))]), Ok(e))
      else (b, if entry.event.value == e then Ok(e) else Err(ValueError(EVENT_CONFLICT)))
  }

  datatype BoundaryCall =
    | Create(workspace: string, artifact: ArtifactId, entropy: Option<string>)
    | Bind(attempt: Attempt, event: Event)

  function Stepped(b: Issued, call: BoundaryCall): Issued {
    match call
    case Create(w, a, entropy) => CreateAttempt(b, w, a, entropy).0
    case Bind(attempt, e) => Finalize(b, attempt, e).0
  }

  function RunBoundary(b: Issued, calls: seq<BoundaryCall>): Issued
    decreases |calls|
  {
    if calls == [] then b else RunBoundary(Stepped(b, calls[0]), calls[1..])
  }

  ghost predicate BoundaryInv(b: Issued) {
    b.attempts.Keys <= b.tombstones
  }

  /** Over every run: an id that was issued is never issued again, and an attempt that was bound to an
      event stays bound to that event. */
  lemma {:induction false} AttemptsAreOnce(b: Issued, calls: seq<BoundaryCall>, id: string)
    requires BoundaryInv(b) && id in b.tombstones
    ensures var b' := RunBoundary(b, calls);
      && BoundaryInv(b') && id in b'.tombstones
      && (forall w, a, entropy :: CreateAttempt(b', w, a, entropy).1.Ok? ==> CreateAttempt(b', w, a, entropy).1.value.id != id)
      && (id in b.attempts ==> id in b'.attempts)
      && (id in b.attempts && b.attempts[id].event.Some? ==> b'.attempts[id].event == b.attempts[id].event)
    decreases |calls|
  {
    if calls != [] {
      AttemptsAreOnce(Stepped(b, calls[0]), calls[1..], id);
    }
  }

  class Boundary {
    var issued: Issued

    ghost predicate Valid()
      reads this
    {
      BoundaryInv(issued)
    }

    constructor ()
      ensures Valid() && issued == Issued(map[], {})
    {
      issued := Issued(map[], {});
    }

    method NewAttempt(workspace: string, artifact: ArtifactId, entropy: Option<string>) returns (r: Result<Attempt>)
      requires Valid()
      modifies this
      ensures Valid()
      ensures (issued, r) == CreateAttempt(old(issued), workspace, artifact, entropy)
    {
      if entropy.None? || |entropy.value| != 32 {
        return Err(ValueError(ENTROPY));
      }
      var id := "attempt-" + entropy.value;
      if id in issued.tombstones {
        return Err(ValueError(COLLISION));
      }
      issued := Issued(issued.attempts[id := Entry(workspace, artifact, None)], issued.tombstones + {id});
      return Ok(Attempt(id, workspace, artifact));
    }

    method BindEvent(attempt: Attempt, e: Event) returns (r: Result<Event>)
      requires Valid()
      modifies this
      ensures Valid()
      ensures (issued, r) == Finalize(old(issued), attempt, e)
    {
      if attempt.id !in issued.attempts {
        return Err(ValueError(MISMATCH));
      }
      var entry := issued.attempts[attempt.id];
      if entry.workspace != attempt.workspace || entry.artifact != attempt.artifact {
        return Err(ValueError(MISMATCH));
      }
      if e.attempt != attempt.id || e.workspace != attempt.workspace || e.artifact != attempt.artifact {
        return Err(ValueError(MISMATCH));
      }
      if entry.event.None? {
        issued := issued.(attempts := issued.attempts[attempt.id := entry.(event := Some(e))]);
        return Ok(e);
      }
      return if entry.event.value == e then Ok(e) else Err(ValueError(EVENT_CONFLICT));
    }
  }

  // ---- the service ----

  /** What the revocation reader answers. */
  datatype Revocation = Unavailable | Unknown | Malformed | Status(current: bool, revoked: bool)

  /** Everything a call reads from outside: whether its arguments pass the shape checks, the entropy, the
      clock and the revocation reader. */
  datatype Surroundings = Surroundings(refusal: Option<string>, entropy: Option<string>, clock: Option<int>,
                                       revocation: Revocation)

  datatype Revalidated = Revalidated(outcome: EventOutcome, reported: EventOutcome, event: Sequenced)

  const VERIFIER_UNAVAILABLE := "attestation_revalidation_verifier_unavailable"
  const CHALLENGE_REQUIRED := "attestation_restart_fresh_challenge_required"
  const EXPIRED := "attestation_revalidation_expired"
  const REVOKED := "attestation_revalidation_revoked"

  function ContextDigest(aggregate: Aggregate): string {
    aggregate.artifact.rest + aggregate.reference.rest
  }

  function ResultDigest(aggregate: Aggregate): string {
    "Successful:" + ContextDigest(aggregate)
  }

  /** What a call decides once it has an attempt: the outcome to record, or an error and no event. */
  function Decision(aggregate: Aggregate, now: int, revocation: Revocation): Result<EventOutcome> {
    var a := aggregate.artifact;
    if a.extension.Some? then Ok(Failed(VERIFIER_UNAVAILABLE))
    else if now >= a.expiresAt then Ok(Failed(EXPIRED))
    else
      match revocation
      case Unavailable => Err(ValueError("attestation_restart_revocation_unavailable"))
      case Unknown => Err(ValueError("attestation_restart_revocation_unknown"))
      case Malformed => Err(ValueError("attestation_restart_revocation_invalid"))
      case Status(current, revoked) =>
        if !current then Err(ValueError("attestation_restart_revocation_invalid"))
        else if revoked then Ok(Failed(REVOKED))
        else Ok(Successful(ResultDigest(aggregate)))
  }

  function Reported(a: Artifact, outcome: EventOutcome): EventOutcome {
    if a.extension.Some? then Failed(CHALLENGE_REQUIRED) else outcome
  }

  /** What a call does to the log and to the boundary, and what it returns. */
  function Revalidation(log: Log, issued: Issued, key: Key, around: Surroundings): (Log, Issued, Result<Revalidated>) {
    if key !in log then (log, issued, Err(ValueError(NOT_FOUND)))
    else if around.refusal.Some? then (log, issued, Err(ValueError(around.refusal.value)))
    else
      var aggregate := log[key].aggregate;
      var (created, attempt) := CreateAttempt(issued, key.workspace, key.artifact, around.entropy);
      if attempt.Err? then (log, created, Err(attempt.error))
      else if around.clock.None? then (log, created, Err(ValueError("attestation_restart_clock_invalid")))
      else
        var decision := Decision(aggregate, around.clock.value, around.revocation);
        if decision.Err? then (log, created, Err(decision.error))
        else
          var e := EventOf(attempt.value, aggregate, around.clock.value, decision.value);
          var (bound, finalized) := Finalize(created, attempt.value, e);
          if finalized.Err? then (log, bound, Err(finalized.error))
          else
            var (later, stored) := Append(log, e);
            (later, bound,
             if stored.Err? then Err(stored.error)
             else Ok(Revalidated(decision.value, Reported(aggregate.artifact, decision.value), stored.value)))
  }

  function EventOf(attempt: Attempt, aggregate: Aggregate, now: int, outcome: EventOutcome): Event {
    Event(attempt.workspace, attempt.artifact, aggregate.artifact, attempt.id, ContextDigest(aggregate),
          aggregate.reference, outcome, now)
  }

  /** A fresh attempt can be made and the clock can be read. */
  predicate Started(issued: Issued, around: Surroundings) {
    && around.refusal.None? && around.clock.Some?
    && around.entropy.Some? && |around.entropy.value| == 32 && "attempt-" + around.entropy.value !in issued.tombstones
  }

  /** What is recorded for an artifact, and what is raised instead, by the artifact, the clock and the reader's answer
      alone: the second version always fails, then expiry counts, and then what the reader says. */
  ghost predicate OutcomeFits(a: Artifact, around: Surroundings, r: Result<Revalidated>)
    requires around.clock.Some?
  {
    var live := a.extension.None? && around.clock.value < a.expiresAt;
    && (a.extension.Some? ==>
          r.Ok? && r.value.outcome == Failed("attestation_revalidation_verifier_unavailable")
          && r.value.reported == Failed("attestation_restart_fresh_challenge_required"))
    && (a.extension.None? && around.clock.value >= a.expiresAt ==>
          r.Ok? && r.value.outcome == r.value.reported == Failed("attestation_revalidation_expired"))
    && (live && around.revocation == Status(true, true) ==>
          r.Ok? && r.value.outcome == r.value.reported == Failed("attestation_revalidation_revoked"))
    && (live && around.revocation == Status(true, false) ==>
          r.Ok? && r.value.outcome.Successful? && r.value.reported == r.value.outcome)
    && (live && around.revocation == Unavailable ==> r == Err(ValueError("attestation_restart_revocation_unavailable")))
    && (live && around.revocation == Unknown ==> r == Err(ValueError("attestation_restart_revocation_unknown")))
    && (live && (around.revocation == Malformed || (around.revocation.Status? && !around.revocation.current)) ==>
          r == Err(ValueError("attestation_restart_revocation_invalid")))
  }

  class Service {
    const store: MemoryStore
    const boundary: Boundary

    constructor (store: MemoryStore, boundary: Boundary)
      ensures this.store == store && this.boundary == boundary
    {
      this.store := store;
      this.boundary := boundary;
    }

    /** Every stored event came from an attempt that this boundary issued. */
    ghost predicate Valid()
      reads this, store, boundary
    {
      store.Valid() && boundary.Valid() && EventsIssued(store.log, boundary.issued)
    }

    /** A call that returns has appended exactly one event, numbered one above the previous latest, whose
        attempt was never issued before; a call that raises has appended nothing. */
    method Revalidate(key: Key, around: Surroundings) returns (r: Result<Revalidated>)
      requires Valid()
      modifies store, boundary
      ensures Valid()
      ensures (store.log, boundary.issued, r) == Revalidation(old(store.log), old(boundary.issued), key, around)
      ensures r.Err? ==> store.log == old(store.log)
      ensures key in old(store.log) && Started(old(boundary.issued), around) ==>
        OutcomeFits(old(store.log)[key].aggregate.artifact, around, r)
      ensures key !in old(store.log) || !Started(old(boundary.issued), around) ==> r.Err?
      ensures r.Ok? ==>
        && key in old(store.log) && EventKey(r.value.event.event) == key
        && Append(old(store.log), r.value.event.event) == (store.log, Ok(r.value.event))
        && r.value.event.sequence == |old(store.log)[key].events| + 1
        && r.value.event.event.attempt !in old(boundary.issued).tombstones
        && r.value.outcome == r.value.event.event.outcome
        && around.clock == Some(r.value.event.event.at)
      ensures old(boundary.issued).tombstones <= boundary.issued.tombstones
    {
      hide NumberOf, Append, LogInv, AggregatesHold, RecordsHold, EventsIssued, BoundaryInv, Decision, OutcomeFits;
      var found := store.GetArtifactAggregate(key);
      if found.value.None? {
        return Err(ValueError(NOT_FOUND));
      }
      if around.refusal.Some? {
        return Err(ValueError(around.refusal.value));
      }
      var aggregate := found.value.value;
      var attempt := boundary.NewAttempt(key.workspace, key.artifact, around.entropy);
      if attempt.Err? {
        return Err(attempt.error);
      }
      StillIssued(store.log, old(boundary.issued), boundary.issued);
      NotYetIn(store.log, old(boundary.issued), key, attempt.value.id);
      if around.clock.None? {
        return Err(ValueError("attestation_restart_clock_invalid"));
      }
      DecisionFits(aggregate, around);
      var decision := Decision(aggregate, around.clock.value, around.revocation);
      if decision.Err? {
        return Err(decision.error);
      }
      var stored := AppendOutcome(attempt.value, aggregate, around.clock.value, decision.value);
      return Ok(Revalidated(decision.value, Reported(aggregate.artifact, decision.value), stored));
    }

    /** `_append_outcome`. */
    method AppendOutcome(attempt: Attempt, aggregate: Aggregate, now: int, outcome: EventOutcome)
      returns (stored: Sequenced)
      requires Valid()
      requires var key := Key(attempt.workspace, attempt.artifact);
        && key in store.log && store.log[key].aggregate == aggregate
        && NumberOf(store.log[key].events, EventId(key.workspace, key.artifact, attempt.id)) == 0
      requires attempt.id in boundary.issued.attempts
            && boundary.issued.attempts[attempt.id] == Entry(attempt.workspace, attempt.artifact, None)
      modifies store, boundary
      ensures Valid() && boundary.issued.tombstones == old(boundary.issued).tombstones
      ensures stored.event == EventOf(attempt, aggregate, now, outcome)
      ensures (boundary.issued, Ok(stored.event)) == Finalize(old(boundary.issued), attempt, stored.event)
      ensures var e := stored.event;
        && EventKey(e) == Key(attempt.workspace, attempt.artifact) && e.attempt == attempt.id && e.outcome == outcome
        && Append(old(store.log), e) == (store.log, Ok(stored))
        && stored.sequence == |old(store.log)[EventKey(e)].events| + 1
    {
      hide LogInv, AggregatesHold, RecordsHold, EventsIssued, NumberOf;
      var e := EventOf(attempt, aggregate, now, outcome);
      var finalized := boundary.BindEvent(attempt, e);
      StillIssued(store.log, old(boundary.issued), boundary.issued);
      var appended := store.AppendEvent(finalized.value);
      OneMoreIssued(old(store.log), e, boundary.issued);
      return appended.value;
    }
  }

  ghost predicate EventsIssued(log: Log, issued: Issued) {
    forall key, i :: key in log && 0 <= i < |log[key].events| ==> log[key].events[i].attempt in issued.tombstones
  }

  lemma StillIssued(log: Log, issued: Issued, later: Issued)
    requires EventsIssued(log, issued) && issued.tombstones <= later.tombstones
    ensures EventsIssued(log, later)
  {
  }

  lemma NotYetIn(log: Log, issued: Issued, key: Key, id: string)
    requires EventsIssued(log, issued) && key in log && id !in issued.tombstones
    ensures NumberOf(log[key].events, EventId(key.workspace, key.artifact, id)) == 0
  {
    hide NumberOf;
    var n := NumberOf(log[key].events, EventId(key.workspace, key.artifact, id));
    assert n > 0 ==> log[key].events[n - 1].Id().attempt == id;
  }

  lemma OneMoreIssued(log: Log, e: Event, issued: Issued)
    requires EventsIssued(log, issued) && e.attempt in issued.tombstones
    ensures EventsIssued(Append(log, e).0, issued)
  {
    hide NumberOf;
  }

  lemma DecisionFits(aggregate: Aggregate, around: Surroundings)
    requires around.clock.Some?
    ensures var decision := Decision(aggregate, around.clock.value, around.revocation);
      forall r: Result<Revalidated> ::
        (match decision
         case Ok(outcome) => r.Ok? && r.value.outcome == outcome && r.value.reported == Reported(aggregate.artifact, outcome)
         case Err(error) => r == Err(error)) ==> OutcomeFits(aggregate.artifact, around, r)
  {
  }

  // ---- runs of the service ----

  datatype ServiceCall = ServiceCall(key: Key, around: Surroundings)

  /** The log and the boundary after a run of calls. */
  function RunService(log: Log, issued: Issued, calls: seq<ServiceCall>): (Log, Issued)
    decreases |calls|
  {
    if calls == [] then (log, issued)
    else
      var (later, more, _) := Revalidation(log, issued, calls[0].key, calls[0].around);
      RunService(later, more, calls[1..])
  }

  /** The call found a live artifact of the first version and a reader that answered current and not revoked. */
  ghost predicate Vouches(call: ServiceCall, key: Key, e: Event) {
    && call.key == key && e.artifactDigest.extension.None?
    && call.around.clock == Some(e.at) && e.at < e.artifactDigest.expiresAt
    && call.around.revocation == Status(true, false)
  }

  lemma OneCallAppends(log: Log, issued: Issued, call: ServiceCall, key: Key)
    requires LogInv(log) && key in log
    ensures var later := Revalidation(log, issued, call.key, call.around).0;
      && LogInv(later) && key in later && later[key].aggregate == log[key].aggregate
      && log[key].events <= later[key].events
      && (forall i :: |log[key].events| <= i < |later[key].events| && later[key].events[i].outcome.Successful? ==>
            Vouches(call, key, later[key].events[i]))
  {
    hide NumberOf, LogInv, AggregateValid;
    var later := Revalidation(log, issued, call.key, call.around).0;
    if later != log {
      var aggregate := log[call.key].aggregate;
      var (created, attempt) := CreateAttempt(issued, call.key.workspace, call.key.artifact, call.around.entropy);
      var decision := Decision(aggregate, call.around.clock.value, call.around.revocation);
      var e := EventOf(attempt.value, aggregate, call.around.clock.value, decision.value);
      AppendContinues(log, e);
      assert later == Append(log, e).0;
      assert log[key].events <= later[key].events;
    }
  }

  /** Over every run of calls: each successful event that the run appended was appended by a call for its artifact at
      the event's own time, when the artifact was of the first version and not expired and the reader answered
      current and not revoked. */
  lemma {:induction false} SuccessesAreVouchedFor(log: Log, issued: Issued, calls: seq<ServiceCall>, key: Key, i: nat)
    requires LogInv(log) && key in log
    requires var later := RunService(log, issued, calls).0;
      key in later && |log[key].events| <= i < |later[key].events| && later[key].events[i].outcome.Successful?
    ensures exists j :: 0 <= j < |calls| && Vouches(calls[j], key, RunService(log, issued, calls).0[key].events[i])
    decreases |calls|
  {
    hide Revalidation, LogInv, Vouches;
    if calls != [] {
      var (next, more, _) := Revalidation(log, issued, calls[0].key, calls[0].around);
      OneCallAppends(log, issued, calls[0], key);
      ServiceContinues(next, more, calls[1..], key);
      var later := RunService(next, more, calls[1..]).0;
      if i < |next[key].events| {
        assert later[key].events[i] == next[key].events[i];
        assert Vouches(calls[0], key, later[key].events[i]);
      } else {
        SuccessesAreVouchedFor(next, more, calls[1..], key, i);
        var j :| 0 <= j < |calls[1..]| && Vouches(calls[1..][j], key, later[key].events[i]);
        assert calls[j + 1] == calls[1..][j];
      }
    }
  }

  lemma {:induction false} ServiceContinues(log: Log, issued: Issued, calls: seq<ServiceCall>, key: Key)
    requires LogInv(log) && key in log
    ensures var later := RunService(log, issued, calls).0; key in later && log[key].events <= later[key].events
    decreases |calls|
  {
    hide Revalidation, LogInv, Vouches;
    if calls != [] {
      var (next, more, _) := Revalidation(log, issued, calls[0].key, calls[0].around);
      OneCallAppends(log, issued, calls[0], key);
      ServiceContinues(next, more, calls[1..], key);
    }
  }
}
