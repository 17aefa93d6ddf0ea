/** `AggregateRoot`: an entity that buffers the domain events its behaviour
    methods raise until the application layer drains them. */
module Aggregates {
  import opened JavaTypes
  import opened DomainEvents
  import opened Entities

  /** `List.copyOf`: an immutable copy of the buffer, or a
      `NullPointerException` when some element is null. */
  function CopyOf(buffer: seq<Option<DomainEvent>>): (r: Result<seq<DomainEvent>>)
    ensures r.Returned? <==> None !in buffer
    ensures r.Returned? ==> |r.value| == |buffer| &&
                            forall i :: 0 <= i < |buffer| ==> buffer[i] == Some(r.value[i])
    decreases |buffer|
  {
    if buffer == [] then Returned([])
    else
      match buffer[0]
      case None => Threw(NullPointerException)
      case Some(e) =>
        match CopyOf(buffer[1..])
        case Threw(x) => Threw(x)
        case Returned(rest) => Returned([e] + rest)
  }

  /** One call on the event buffer, for reasoning about a whole history of
      calls; the added event may be null. */
  datatype BufferCall = Add(event: Option<DomainEvent>) | Get | Clear

  /** The buffer after one call: what `AggregateRoot` does to its list. */
  function Apply(buffer: seq<Option<DomainEvent>>, call: BufferCall): seq<Option<DomainEvent>> {
    match call
    case Add(e) => buffer + [e]
    case Get => buffer
    case Clear => []
  }

  /** The buffer after a history of calls, applied oldest first. */
  function Replay(buffer: seq<Option<DomainEvent>>, calls: seq<BufferCall>): seq<Option<DomainEvent>>
    decreases |calls|
  {
    if calls == [] then buffer else Replay(Apply(buffer, calls[0]), calls[1..])
  }

  /** The events added since the most recent `Clear`, read back from the newest call. */
  function AddedSinceLastClear(calls: seq<BufferCall>): seq<Option<DomainEvent>>
    decreases |calls|
  {
    if calls == [] then []
    else
      match calls[|calls| - 1]
      case Add(e) => AddedSinceLastClear(calls[..|calls| - 1]) + [e]
      case Get => AddedSinceLastClear(calls[..|calls| - 1])
      case Clear => []
  }

  lemma {:induction false} ReplayAppend(buffer: seq<Option<DomainEvent>>, calls: seq<BufferCall>, call: BufferCall)
    ensures Replay(buffer, calls + [call]) == Apply(Replay(buffer, calls), call)
    decreases |calls|
  {
    if calls != [] {
      assert (calls + [call])[1..] == calls[1..] + [call];
      ReplayAppend(Apply(buffer, calls[0]), calls[1..], call);
    }
  }

  /** After any history of calls the buffer holds, in order, the events added
      since the last clear; if there was no clear, they follow what was there. */
  lemma {:induction false} ReplayKeepsEventsSinceLastClear(buffer: seq<Option<DomainEvent>>, calls: seq<BufferCall>)
    ensures Replay(buffer, calls) ==
            if Clear in calls then AddedSinceLastClear(calls) else buffer + AddedSinceLastClear(calls)
    decreases |calls|
  {
    if calls == [] {
      assert buffer + [] == buffer;
    } else {
      var earlier, last := calls[..|calls| - 1], calls[|calls| - 1];
      assert calls == earlier + [last];
      assert Clear in calls <==> Clear in earlier || last == Clear;
      ReplayAppend(buffer, earlier, last);
      ReplayKeepsEventsSinceLastClear(buffer, earlier);
    }
  }

  /** From construction, the buffer always holds the events added since the
      last clear, so the snapshot's size is the number of those additions,
      and the snapshot succeeds exactly when none of them was null. */
  lemma PendingEventsOfFreshAggregate(calls: seq<BufferCall>)
    ensures Replay([], calls) == AddedSinceLastClear(calls)
    ensures CopyOf(Replay([], calls)).Returned? <==> None !in AddedSinceLastClear(calls)
  {
    ReplayKeepsEventsSinceLastClear([], calls);
  }

  /** Once a null event is in the buffer, every snapshot throws until the next clear. */
  lemma NullEventBlocksSnapshotUntilClear(buffer: seq<Option<DomainEvent>>, later: seq<BufferCall>)
    requires None in buffer && Clear !in later
    ensures CopyOf(Replay(buffer, later)).Threw?
  {
    ReplayKeepsEventsSinceLastClear(buffer, later);
    assert None in buffer + AddedSinceLastClear(later);
  }

  /** Clearing twice leaves the same buffer as clearing once, and reading changes nothing. */
  lemma ClearIdempotentAndGetInert(buffer: seq<Option<DomainEvent>>)
    ensures Apply(Apply(buffer, Clear), Clear) == Apply(buffer, Clear) == []
    ensures Apply(buffer, Get) == buffer
  {
  }

  /** The aggregate root. Java's `AggregateRoot extends DomainEntity` becomes a
      `DomainEntity` held by the aggregate, whose fields the buffer operations
      never touch. */
  class AggregateRoot<ID(==)> {
    const entity: DomainEntity<ID>
    var domainEvents: seq<Option<DomainEvent>>

    /** `AggregateRoot()`: an unsaved entity and an empty buffer. */
    constructor (runtimeClass: ClassName, now: Timestamp)
      ensures fresh(entity)
      ensures entity.State() == EntityState(runtimeClass, None, 0, Some(now), None, None, None)
      ensures domainEvents == []
    {
      entity := new DomainEntity(runtimeClass, now);
      domainEvents := [];
    }

    /** `AggregateRoot(id, version)`: the given id and version and an empty buffer. */
    constructor WithId(runtimeClass: ClassName, id: Option<ID>, version: int64, now: Timestamp)
      ensures fresh(entity)
      ensures entity.State() == EntityState(runtimeClass, id, version, Some(now), None, None, None)
      ensures domainEvents == []
    {
      entity := new DomainEntity.WithId(runtimeClass, id, version, now);
      domainEvents := [];
    }

    /** `addDomainEvent`: appends at the end, without deduplication and
        without rejecting a null event. */
    method AddDomainEvent(event: Option<DomainEvent>)
      modifies this
      ensures domainEvents == old(domainEvents) + [event]
      ensures unchanged(entity)
    {
      domainEvents := domainEvents + [event];
    }

    /** `getDomainEvents`: an immutable, order-preserving copy of the buffer;
        throws while the buffer holds a null event. */
    method GetDomainEvents() returns (snapshot: Result<seq<DomainEvent>>)
      ensures snapshot.Returned? <==> None !in domainEvents
      ensures snapshot.Returned? ==> |snapshot.value| == |domainEvents| &&
                                     forall i :: 0 <= i < |domainEvents| ==> domainEvents[i] == Some(snapshot.value[i])
    {
      snapshot := CopyOf(domainEvents);
    }

    /** `clearDomainEvents`: empties the buffer; on an empty buffer a no-op. */
    method ClearDomainEvents()
      modifies this
      ensures domainEvents == []
      ensures unchanged(entity)
    {
      domainEvents := [];
    }
  }

  /** Drives an aggregate through a history of calls, oldest first: the
      aggregate's buffer ends where `Replay` says, so every property proved of
      `Replay` holds of the class itself. */
  method RunHistory<ID(==)>(aggregate: AggregateRoot<ID>, calls: seq<BufferCall>)
    modifies aggregate
    ensures aggregate.domainEvents == Replay(old(aggregate.domainEvents), calls)
    ensures unchanged(aggregate.entity)
  {
    var i := 0;
    while i < |calls|
      invariant 0 <= i <= |calls|
      invariant aggregate.domainEvents == Replay(old(aggregate.domainEvents), calls[..i])
      invariant unchanged(aggregate.entity)
    {
      ReplayAppend(old(aggregate.domainEvents), calls[..i], calls[i]);
      assert calls[..i + 1] == calls[..i] + [calls[i]];
      match calls[i] {
        case Add(e) => aggregate.AddDomainEvent(e);
        case Get => var _ := aggregate.GetDomainEvents();
        case Clear => aggregate.ClearDomainEvents();
      }
      i := i + 1;
    }
    assert calls[..i] == calls;
  }

  /** A behaviour method of a concrete aggregate, as the test aggregate's
      `doSomething`: it raises one event of type "TestEvent" (the event's
      `aggregateId` component is not part of the event model). */
  method DoSomething<ID(==)>(aggregate: AggregateRoot<ID>, eventId: Uuid, now: Timestamp)
    modifies aggregate
    ensures aggregate.domainEvents == old(aggregate.domainEvents) + [Some(DomainEvent(eventId, now, "TestEvent"))]
    ensures unchanged(aggregate.entity)
  {
    aggregate.AddDomainEvent(Some(DomainEvent(eventId, now, "TestEvent")));
  }

  /** A new aggregate has no events; after one behaviour call the snapshot
      holds one event of type "TestEvent". */
  method AccumulationScenario(eventId: Uuid, now: Timestamp)
    returns (before: Result<seq<DomainEvent>>, after: Result<seq<DomainEvent>>)
    ensures before == Returned([])
    ensures after.Returned? && |after.value| == 1 && after.value[0].eventType == "TestEvent"
  {
    var aggregate := new AggregateRoot<Uuid>("TestAggregate", now);
    before := aggregate.GetDomainEvents();
    DoSomething(aggregate, eventId, now);
    after := aggregate.GetDomainEvents();
  }

  /** Clearing (twice) empties the buffer; events added afterwards keep their order. */
  method ClearThenReorderScenario(e1: DomainEvent, e2: DomainEvent, e3: DomainEvent, now: Timestamp)
    returns (first: Result<seq<DomainEvent>>, cleared: Result<seq<DomainEvent>>, last: Result<seq<DomainEvent>>)
    ensures first == Returned([e1])
    ensures cleared == Returned([])
    ensures last == Returned([e2, e3])
  {
    var aggregate := new AggregateRoot<Uuid>("TestAggregate", now);
    aggregate.AddDomainEvent(Some(e1));
    assert aggregate.domainEvents == [Some(e1)];
    first := aggregate.GetDomainEvents();
    assert first.value == [e1];
    aggregate.ClearDomainEvents();
    aggregate.ClearDomainEvents();
    cleared := aggregate.GetDomainEvents();
    aggregate.AddDomainEvent(Some(e2));
    aggregate.AddDomainEvent(Some(e3));
    assert aggregate.domainEvents == [Some(e2), Some(e3)];
    last := aggregate.GetDomainEvents();
    assert last.value == [e2, e3];
  }
}
