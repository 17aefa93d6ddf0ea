/** `Outbox`: the envelope that pairs one domain event with the aggregate that
    raised it, for writing in the same transaction as the aggregate. */
module Outboxes {
  import opened JavaTypes
  import opened DomainEvents

  /** The five fields of an outbox record, as one value. */
  datatype OutboxFields = OutboxFields(
    id: Option<Uuid>,
    aggregateType: Option<string>,
    aggregateId: Option<Uuid>,
    eventType: Option<string>,
    payload: Option<DomainEvent>)

  /** An outbox record. Every field is a nullable reference, and nothing ties
      `eventType` (Java's `type`) to the payload's own type. */
  class Outbox {
    var id: Option<Uuid>
    var aggregateType: Option<string>
    var aggregateId: Option<Uuid>
    var eventType: Option<string>
    var payload: Option<DomainEvent>

    function Fields(): OutboxFields
      reads this
    {
      OutboxFields(id, aggregateType, aggregateId, eventType, payload)
    }

    /** Whether the recorded type names the payload's type; never checked by the record itself. */
    predicate TypeMatchesPayload()
      reads this
    {
      payload.Some? && eventType == Some(payload.value.eventType)
    }

    /** The five-argument constructor, for rehydrating a stored record. */
    constructor (id: Option<Uuid>, aggregateType: Option<string>, aggregateId: Option<Uuid>,
                 eventType: Option<string>, payload: Option<DomainEvent>)
      ensures Fields() == OutboxFields(id, aggregateType, aggregateId, eventType, payload)
    {
      this.id := id;
      this.aggregateType := aggregateType;
      this.aggregateId := aggregateId;
      this.eventType := eventType;
      this.payload := payload;
    }

    /** The four-argument constructor: `freshId` is the value `UUID.randomUUID()`
        produced, so the id is never null. */
    constructor WithFreshId(freshId: Uuid, aggregateType: Option<string>, aggregateId: Option<Uuid>,
                            eventType: Option<string>, payload: Option<DomainEvent>)
      ensures Fields() == OutboxFields(Some(freshId), aggregateType, aggregateId, eventType, payload)
      ensures id.Some?
    {
      this.id := Some(freshId);
      this.aggregateType := aggregateType;
      this.aggregateId := aggregateId;
      this.eventType := eventType;
      this.payload := payload;
    }

    method SetId(id: Option<Uuid>)
      modifies this
      ensures Fields() == old(Fields()).(id := id)
    {
      this.id := id;
    }

    method SetAggregateType(aggregateType: Option<string>)
      modifies this
      ensures Fields() == old(Fields()).(aggregateType := aggregateType)
    {
      this.aggregateType := aggregateType;
    }

    method SetAggregateId(aggregateId: Option<Uuid>)
      modifies this
      ensures Fields() == old(Fields()).(aggregateId := aggregateId)
    {
      this.aggregateId := aggregateId;
    }

    method SetType(eventType: Option<string>)
      modifies this
      ensures Fields() == old(Fields()).(eventType := eventType)
    {
      this.eventType := eventType;
    }

    method SetPayload(payload: Option<DomainEvent>)
      modifies this
      ensures Fields() == old(Fields()).(payload := payload)
    {
      this.payload := payload;
    }
  }

  /** Construction performs no validation: a record whose type contradicts
      its payload's type is built and keeps both as given. */
  method ConstructWithMismatchedType(freshId: Uuid, aggregateType: string, aggregateId: Uuid,
                                     eventType: string, payload: DomainEvent)
    returns (outbox: Outbox)
    requires eventType != payload.eventType
    ensures outbox.eventType == Some(eventType) && outbox.payload == Some(payload)
    ensures !outbox.TypeMatchesPayload()
  {
    outbox := new Outbox.WithFreshId(freshId, Some(aggregateType), Some(aggregateId), Some(eventType), Some(payload));
  }

  /** A record created without an id gets one, and every getter returns what was passed in. */
  method CreationScenario(freshId: Uuid, aggregateId: Uuid, payload: DomainEvent)
    returns (outbox: Outbox)
    requires payload.eventType == "TestPayload"
    ensures outbox.id != None
    ensures outbox.aggregateType == Some("TestAggregate")
    ensures outbox.aggregateId == Some(aggregateId)
    ensures outbox.eventType == Some("TestPayload")
    ensures outbox.payload == Some(payload)
    ensures outbox.TypeMatchesPayload()
  {
    outbox := new Outbox.WithFreshId(freshId, Some("TestAggregate"), Some(aggregateId),
                                     Some(payload.eventType), Some(payload));
  }
}
