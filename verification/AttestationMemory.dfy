/** The in-memory attestation store: its dictionaries, markers and corruption checks. */
module AttestationMemory {
  import opened Outcomes
  import opened AttestationLog

  type Records = map<EventId, Sequenced>

  /** The records of one artifact hold exactly its events, numbered in order. */
  ghost predicate HoldsEvents(records: Records, events: seq<Event>) {
    && (forall i :: 0 <= i < |events| ==> events[i].Id() in records && records[events[i].Id()] == Sequenced(i + 1, events[i]))
    && (forall id :: id in records ==>
          var n := records[id].sequence; 0 < n <= |events| && events[n - 1] == records[id].event && events[n - 1].Id() == id)
  }

  /** The checks on one record of an artifact's dictionary. */
  predicate RecordSound(id: EventId, record: Sequenced, key: Key, aggregate: Aggregate) {
    record.sequence >= 1 && record.event.Id() == id && EventKey(record.event) == key && Matches(aggregate, record.event)
  }

  /** The aggregate dictionaries and their marker set hold exactly the aggregates of the log. */
  ghost predicate AggregatesHold(artifacts: map<Key, Artifact>, references: map<Key, Reference>, keys: set<Key>,
                                 log: Log) {
    && keys == artifacts.Keys == references.Keys == log.Keys
    && forall key :: key in log ==> log[key].aggregate == Aggregate(artifacts[key], references[key])
  }

  /** The event dictionaries and their marker set hold exactly the non-empty histories of the log. */
  ghost predicate RecordsHold(records: map<Key, Records>, partitions: set<Key>, log: Log) {
    && partitions == records.Keys
    && (forall key :: key in records ==> key in log && log[key].events != [] && HoldsEvents(records[key], log[key].events))
    && (forall key :: key in log && log[key].events != [] ==> key in records)
  }

  class MemoryStore {
    var artifacts: map<Key, Artifact>
    var references: map<Key, Reference>
    var aggregateKeys: set<Key>
    var records: map<Key, Records>
    var partitions: set<Key>
    ghost var log: Log

    ghost predicate Valid()
      reads this
    {
      LogInv(log) && AggregatesHold(artifacts, references, aggregateKeys, log) && RecordsHold(records, partitions, log)
    }

    constructor ()
      ensures Valid() && log == map[]
    {
      artifacts, references, aggregateKeys, records, partitions := map[], map[], {}, map[], {};
      log := map[];
    }

    /** `_event_state_locked`. */
    function EventState(key: Key): Result<Option<Records>>
      reads this
    {
      var marker, stored := key in partitions, key in records;
      if !marker && !stored then Ok(None)
      else if !marker || !stored then Err(ValueError(EVENT_CORRUPT))
      else if records[key] == map[] then Err(ValueError(EVENT_CORRUPT))
      else Ok(Some(records[key]))
    }

    /** `_read_aggregate_locked`. */
    function ReadAggregate(key: Key): Result<Option<Aggregate>>
      reads this
    {
      var marker, hasArtifact, hasReference := key in aggregateKeys, key in artifacts, key in references;
      if !marker && !hasArtifact && !hasReference then Ok(None)
      else if !marker || !hasArtifact || !hasReference then Err(ValueError(AGGREGATE_CORRUPT))
      else if !AggregateValid(artifacts[key], references[key]) || KeyOf(artifacts[key]) != key then
        Err(ValueError(AGGREGATE_CORRUPT))
      else Ok(Some(Aggregate(artifacts[key], references[key])))
    }

    lemma AggregateReads(key: Key)
      requires Valid()
      ensures ReadAggregate(key) == Ok(GetAggregate(log, key))
    {
      hide RecordsHold;
      if key in log {
        assert HistoryInv(key, log[key]);
      }
    }

    lemma StateReads(key: Key)
      requires Valid()
      ensures EventState(key) == Ok(if key in log && log[key].events != [] then Some(records[key]) else None)
    {
      hide AggregatesHold, LogInv;
      if key in records {
        assert log[key].events[0].Id() in records[key];
      }
    }

    /** `_read_events_locked`: every record is checked, and the numbers must be exactly 1..n. */
    method ReadEvents(key: Key, aggregate: Aggregate) returns (r: Result<Records>)
      requires Valid() && key in log && log[key].aggregate == aggregate
      ensures r.Ok? && HoldsEvents(r.value, log[key].events)
    {
      hide AggregatesHold;
      StateReads(key);
      var state := EventState(key);
      if state.value.None? {
        return Ok(map[]);
      }
      assert HistoryInv(key, log[key]);
      r := CheckRecords(state.value.value, key, aggregate, log[key].events);
    }

    method PersistArtifact(a: Artifact, reference: Reference) returns (r: Result<Aggregate>)
      requires Valid()
      modifies this
      ensures Valid()
      ensures (log, r) == Persist(old(log), a, reference)
    {
      hide AggregatesHold, RecordsHold, LogInv, AggregateValid;
      if !AggregateValid(a, reference) {
        return Err(ValueError(PAYLOAD_INVALID));
      }
      var key := KeyOf(a);
      StateReads(key);
      AggregateReads(key);
      match ReadAggregate(key) {
        case Err(e) =>
          return Err(e);
        case Ok(Some(existing)) =>
          return
            if existing.artifact != a then Err(ValueError(ARTIFACT_CONFLICT))
            else if existing.reference != reference then Err(ValueError(REFERENCE_CONFLICT))
            else Ok(existing);
        case Ok(None) =>
      }
      match EventState(key) {
        case Err(e) =>
          return Err(e);
        case Ok(Some(_)) =>
          return Err(ValueError(EVENT_CORRUPT));
        case Ok(None) =>
      }
      PersistContinues(log, a, reference);
      AggregateAdded(artifacts, references, aggregateKeys, log, key, a, reference);
      HistoryAdded(records, partitions, log, key, Aggregate(a, reference));
      artifacts := artifacts[key := a];
      references := references[key := reference];
      aggregateKeys := aggregateKeys + {key};
      log := log[key := History(Aggregate(a, reference), [])];
      return Ok(Aggregate(a, reference));
    }

    method GetArtifactAggregate(key: Key) returns (r: Result<Option<Aggregate>>)
      requires Valid()
      ensures r == Ok(GetAggregate(log, key))
    {
      AggregateReads(key);
      StateReads(key);
      match (ReadAggregate(key), EventState(key)) {
        case (Ok(_), Err(e)) =>
          return Err(e);
        case (Ok(None), Ok(Some(_))) =>
          return Err(ValueError(EVENT_CORRUPT));
        case _ =>
          return ReadAggregate(key);
      }
    }

    method AppendEvent(e: Event) returns (r: Result<Sequenced>)
      requires Valid()
      modifies this
      ensures Valid()
      ensures (log, r) == Append(old(log), e)
    {
      hide AggregatesHold, RecordsHold, HoldsEvents;
      var key := EventKey(e);
      AggregateReads(key);
      var aggregate := ReadAggregate(key).value;
      if aggregate.None? {
        return Err(ValueError(NOT_FOUND));
      }
      if !Matches(aggregate.value, e) {
        return Err(ValueError(BINDING_MISMATCH));
      }
      var read := ReadEvents(key, aggregate.value);
      var events := read.value;
      assert HistoryInv(key, log[key]);
      EventsNumbered(events, log[key].events, e.Id());
      if e.Id() in events {
        var existing := events[e.Id()];
        return if existing.event != e then Err(ValueError(EVENT_CONFLICT)) else Ok(existing);
      }
      var sequence := |events| + 1;
      AppendContinues(log, e);
      Store(key, e, sequence, events);
      return Ok(Sequenced(sequence, e));
    }

    /** Marking the partition and storing one more record. */
    method Store(key: Key, e: Event, sequence: nat, ghost events: Records)
      requires Valid() && key in log && e.Id() !in events && HoldsEvents(events, log[key].events)
      requires sequence == |log[key].events| + 1
      requires LogInv(log[key := History(log[key].aggregate, log[key].events + [e])])
      modifies this
      ensures Valid() && log == old(log)[key := History(old(log)[key].aggregate, old(log)[key].events + [e])]
    {
      hide AggregatesHold, RecordsHold, HoldsEvents, LogInv;
      var stored := if key in records then records[key] else map[];
      RecordAdded(records, partitions, log, key, events, stored, e);
      SameAggregates(artifacts, references, aggregateKeys, log, key, log[key].events + [e]);
      partitions := partitions + {key};
      records := records[key := stored[e.Id() := Sequenced(sequence, e)]];
      log := log[key := History(log[key].aggregate, log[key].events + [e])];
    }

    method LatestEvent(key: Key) returns (r: Result<Option<Sequenced>>)
      requires Valid()
      ensures r == Latest(log, key)
    {
      hide AggregatesHold, RecordsHold, HoldsEvents;
      AggregateReads(key);
      var aggregate := ReadAggregate(key).value;
      if aggregate.None? {
        return Err(ValueError(NOT_FOUND));
      }
      var read := ReadEvents(key, aggregate.value);
      NoRecordsNoEvents(read.value, log[key].events);
      if read.value == map[] {
        return Ok(None);
      }
      var latest := Highest(read.value, log[key].events);
      return Ok(Some(latest));
    }
  }

  // ---- the dictionaries ----

  lemma AggregateAdded(artifacts: map<Key, Artifact>, references: map<Key, Reference>, keys: set<Key>, log: Log,
                       key: Key, a: Artifact, r: Reference)
    requires AggregatesHold(artifacts, references, keys, log)
    ensures AggregatesHold(artifacts[key := a], references[key := r], keys + {key},
                           log[key := History(Aggregate(a, r), [])])
  {
  }

  lemma SameAggregates(artifacts: map<Key, Artifact>, references: map<Key, Reference>, keys: set<Key>, log: Log,
                       key: Key, events: seq<Event>)
    requires AggregatesHold(artifacts, references, keys, log) && key in log
    ensures AggregatesHold(artifacts, references, keys, log[key := History(log[key].aggregate, events)])
  {
  }

  lemma HistoryAdded(records: map<Key, Records>, partitions: set<Key>, log: Log, key: Key, aggregate: Aggregate)
    requires RecordsHold(records, partitions, log) && key !in log
    ensures RecordsHold(records, partitions, log[key := History(aggregate, [])])
  {
    hide HoldsEvents;
  }

  lemma RecordAdded(records: map<Key, Records>, partitions: set<Key>, log: Log, key: Key, read: Records,
                    stored: Records,
                    e: Event)
    requires RecordsHold(records, partitions, log) && key in log && HoldsEvents(read, log[key].events) && e.Id() !in read
    requires stored == if key in records then records[key] else map[]
    ensures RecordsHold(records[key := stored[e.Id() := Sequenced(|log[key].events| + 1, e)]], partitions + {key},
                        log[key := History(log[key].aggregate, log[key].events + [e])])
  {
    hide HoldsEvents;
    var events := log[key].events;
    if key !in records {
      NothingHeld();
    }
    SameRecords(stored, read, events);
    HoldsOneMore(stored, events, e);
  }

  lemma NothingHeld()
    ensures HoldsEvents(map[], [])
  {
  }

  /** The loop over the records of one artifact. */
  method CheckRecords(stored: Records, key: Key, aggregate: Aggregate, ghost events: seq<Event>)
    returns (r: Result<Records>)
    requires HoldsEvents(stored, events) && HistoryInv(key, History(aggregate, events))
    ensures r == Ok(stored)
  {
    hide HoldsEvents;
    var parsed: Records := map[];
    var sequences: set<nat> := {};
    var todo := stored.Keys;
    SequencesAreExact(stored, events);
    while todo != {}
      invariant todo <= stored.Keys
      invariant parsed == Checked(stored, todo)
      invariant sequences == NumbersOf(parsed)
      decreases |todo|
    {
      var id :| id in todo;
      var record := stored[id];
      RecordIsSound(stored, id, key, aggregate, events);
      OneMoreChecked(stored, todo, id, events);
      if !RecordSound(id, record, key, aggregate) || record.sequence in sequences {
        return Err(ValueError(EVENT_CORRUPT));
      }
      parsed := parsed[id := record];
      sequences := sequences + {record.sequence};
      todo := todo - {id};
    }
    AllChecked(stored);
    if sequences != Range(|parsed|) {
      return Err(ValueError(EVENT_CORRUPT));
    }
    return Ok(parsed);
  }

  /** The numbers from one to `n`. */
  function Range(n: nat): (s: set<nat>)
    ensures forall i :: i in s <==> 1 <= i <= n
  {
    if n == 0 then {} else Range(n - 1) + {n}
  }

  function Checked(stored: Records, todo: set<EventId>): Records {
    map id | id in stored && id !in todo :: stored[id]
  }

  function NumbersOf(records: Records): set<nat> {
    set id | id in records :: records[id].sequence
  }

  lemma AllChecked(stored: Records)
    ensures Checked(stored, {}) == stored
    ensures Checked(stored, stored.Keys) == map[] && NumbersOf(map[]) == {}
  {
  }

  lemma OneMoreChecked(stored: Records, todo: set<EventId>, id: EventId, events: seq<Event>)
    requires HoldsEvents(stored, events) && id in todo && todo <= stored.Keys
    ensures stored[id].sequence !in NumbersOf(Checked(stored, todo))
    ensures Checked(stored, todo)[id := stored[id]] == Checked(stored, todo - {id})
    ensures NumbersOf(Checked(stored, todo - {id})) == NumbersOf(Checked(stored, todo)) + {stored[id].sequence}
  {
    var before, now := Checked(stored, todo), Checked(stored, todo - {id});
    forall n
      ensures n in NumbersOf(now) <==> n in NumbersOf(before) || n == stored[id].sequence
    {
      if n in NumbersOf(now) {
        var other :| other in now && now[other].sequence == n;
        assert other != id ==> other in before && before[other].sequence == n;
      }
      if n in NumbersOf(before) {
        var other :| other in before && before[other].sequence == n;
        assert now[other].sequence == n;
      }
      if n == stored[id].sequence {
        assert now[id].sequence == n;
      }
    }
  }

  lemma RecordIsSound(stored: Records, id: EventId, key: Key, aggregate: Aggregate, events: seq<Event>)
    requires HoldsEvents(stored, events) && HistoryInv(key, History(aggregate, events)) && id in stored
    ensures RecordSound(id, stored[id], key, aggregate)
  {
    hide AggregateValid;
    assert events[stored[id].sequence - 1] == stored[id].event;
  }

  lemma SequencesAreExact(stored: Records, events: seq<Event>)
    requires HoldsEvents(stored, events)
    requires forall i, j :: 0 <= i < j < |events| ==> events[i].Id() != events[j].Id()
    ensures NumbersOf(stored) == Range(|stored|)
    ensures Checked(stored, stored.Keys) == map[] && NumbersOf(map[]) == {}
  {
    RecordsCount(stored, events);
    AllChecked(stored);
    forall n | 1 <= n <= |events|
      ensures n in NumbersOf(stored)
    {
      assert stored[events[n - 1].Id()].sequence == n;
    }
  }

  lemma {:induction false} RecordsCount(stored: Records, events: seq<Event>)
    requires HoldsEvents(stored, events)
    requires forall i, j :: 0 <= i < j < |events| ==> events[i].Id() != events[j].Id()
    ensures |stored| == |events|
    decreases |events|
  {
    if events == [] {
      assert stored == map[];
    } else {
      var last := events[|events| - 1];
      var fewer := stored - {last.Id()};
      assert HoldsEvents(fewer, events[..|events| - 1]);
      RecordsCount(fewer, events[..|events| - 1]);
      assert stored.Keys == fewer.Keys + {last.Id()};
      assert |stored| == |stored.Keys| && |fewer| == |fewer.Keys|;
    }
  }

  /** The number found in the dictionary is the event's number in the log. */
  lemma EventsNumbered(records: Records, events: seq<Event>, id: EventId)
    requires HoldsEvents(records, events)
    requires forall i, j :: 0 <= i < j < |events| ==> events[i].Id() != events[j].Id()
    ensures |records| == |events|
    ensures id in records <==> NumberOf(events, id) > 0
    ensures id in records ==> records[id] == Sequenced(NumberOf(events, id), events[NumberOf(events, id) - 1])
  {
    hide NumberOf;
    RecordsCount(records, events);
    var n := NumberOf(events, id);
    if n > 0 {
      assert events[n - 1].Id() in records;
    }
    if id in records {
      assert events[records[id].sequence - 1].Id() == id;
    }
  }

  lemma SameRecords(stored: Records, other: Records, events: seq<Event>)
    requires HoldsEvents(other, events) && (events != [] ==> HoldsEvents(stored, events)) && (events == [] ==> stored == map[])
    ensures stored == other
  {
    forall id
      ensures id in stored <==> id in other
    {
    }
  }

  lemma HoldsOneMore(stored: Records, events: seq<Event>, e: Event)
    requires HoldsEvents(stored, events) && e.Id() !in stored
    ensures HoldsEvents(stored[e.Id() := Sequenced(|events| + 1, e)], events + [e])
  {
  }

  lemma NoRecordsNoEvents(records: Records, events: seq<Event>)
    requires HoldsEvents(records, events)
    ensures events == [] <==> records == map[]
  {
    if events != [] {
      assert events[0].Id() in records;
    }
  }

  /** `max(events.values(), key=sequence)`. */
  method Highest(records: Records, ghost events: seq<Event>) returns (highest: Sequenced)
    requires HoldsEvents(records, events) && records != map[]
    ensures events != [] && highest == Sequenced(|events|, events[|events| - 1])
  {
    var first :| first in records.Keys;
    highest := records[first];
    assert events != [];
    var todo := records.Keys - {first};
    while todo != {}
      invariant todo <= records.Keys
      invariant exists id :: id in records && records[id] == highest
      invariant forall id :: id in records && id !in todo ==> records[id].sequence <= highest.sequence
      decreases |todo|
    {
      var id :| id in todo;
      if records[id].sequence > highest.sequence {
        highest := records[id];
      }
      todo := todo - {id};
    }
    assert records[events[|events| - 1].Id()].sequence == |events|;
  }
}
