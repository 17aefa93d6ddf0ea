/** The `DomainEvent` contract: an immutable record of something that happened. */
module DomainEvents {
  import opened JavaTypes

  /** `eventId()`, `occurredOn()` and `type()` of an event; `type` is a Dafny
      keyword, so the discriminator is called `eventType` here. */
  datatype DomainEvent = DomainEvent(eventId: Uuid, occurredOn: Timestamp, eventType: string)
}
