# domain-core in Dafny

A model of the core of `domain-core`, a small library of Domain-Driven Design
building blocks:

- **Entity identity** (`Entities`, `DomainEntity.dfy`): an entity carries an id,
  an optimistic-concurrency `version` and four audit stamps. `equals` compares
  the concrete runtime class and the id; `hashCode` is `Objects.hash(id)`.
  The identity relation is proved to be an equivalence that ignores the version
  and the audit stamps, and the hash is proved consistent with it.
- **Aggregate root** (`Aggregates`, `AggregateRoot.dfy`): an entity that buffers
  the domain events raised by its behaviour methods. `AddDomainEvent` appends at
  the end, `GetDomainEvents` returns an immutable copy (or throws while a null event is buffered), `ClearDomainEvents`
  empties the buffer, and none of them touches the entity's fields. Over a
  whole history of calls, the buffer is proved to hold exactly the events added
  since the last clear, in order.
- **Specification algebra** (`Specifications`, `Specification.dfy`): a
  specification is a tree of user predicates joined by `and`, `or` and `not`.
  Each combinator is proved to mean conjunction, disjunction and negation; double
  negation, both De Morgan laws, and commutativity and associativity of `and` and
  `or` are proved in truth value, together with the fact that the trees on the
  two sides differ.
- **Outbox record** (`Outboxes`, `Outbox.dfy`): the envelope that pairs an event
  with the aggregate that raised it. Both constructors and all five setters have
  whole-state postconditions; a record whose type contradicts its payload is
  shown to be accepted.

`JavaTypes.dfy` holds the Java value types the core uses (`int`, `long`, `UUID`,
`LocalDateTime`, nullable references), and `DomainEvent.dfy` the event record.

Java's `AggregateRoot<ID> extends DomainEntity<ID>` becomes an aggregate that
holds its `DomainEntity` in a constant field: the buffer operations modify only
the aggregate object, so the entity's id, version and audit stamps are provably
unchanged by them. The entity and outbox fields and the event passed to `addDomainEvent` are `Option` values, since Java lets them be null; the operands of the specification combinators and the values a `DomainEvent` returns are taken to be non-null. The clock
(`LocalDateTime.now()`) and `UUID.randomUUID()` are parameters (`now`,
`freshId`).

Equality of two unsaved entities: two entities of the same class whose ids
are both null are equal, because the ids are compared with `Objects.equals`
(`Objects.equals(null, null)` is true, DomainEntity.java:79). This may be
unintended; the model keeps it as written and states it in
`UnsavedEntitiesAreEqual`.

Null events: `addDomainEvent` accepts a null event, and `List.copyOf` then
throws `NullPointerException` on every `getDomainEvents` until the next clear.
The buffer therefore holds `Option<DomainEvent>` elements, and the snapshot is
a `Result` that is either the copied events or that exception.

## Model

| member | source | states |
|---|---|---|
| `Entities.DomainEntity.constructor` | domain-core/src/main/java/io/github/ddd/core/entity/base/DomainEntity.java:16-18 | a new entity has no id, version 0, `createdAt` the current time, and no other audit stamp |
| `Entities.DomainEntity.WithId` | domain-core/src/main/java/io/github/ddd/core/entity/base/DomainEntity.java:20-24 | stores exactly the given id and version and stamps `createdAt` with the current time |
| `Entities.DomainEntity.SetId` | domain-core/src/main/java/io/github/ddd/core/entity/base/DomainEntity.java:30-32 | the id becomes the given value; every other field is unchanged |
| `Entities.DomainEntity.SetVersion` | domain-core/src/main/java/io/github/ddd/core/entity/base/DomainEntity.java:38-40 | the version becomes the given value; every other field is unchanged |
| `Entities.DomainEntity.SetCreatedAt` | domain-core/src/main/java/io/github/ddd/core/entity/base/DomainEntity.java:46-48 | `createdAt` becomes the given value; every other field is unchanged |
| `Entities.DomainEntity.SetCreatedBy` | domain-core/src/main/java/io/github/ddd/core/entity/base/DomainEntity.java:54-56 | `createdBy` becomes the given value; every other field is unchanged |
| `Entities.DomainEntity.SetLastModifiedAt` | domain-core/src/main/java/io/github/ddd/core/entity/base/DomainEntity.java:62-64 | `lastModifiedAt` becomes the given value; every other field is unchanged |
| `Entities.DomainEntity.SetLastModifiedBy` | domain-core/src/main/java/io/github/ddd/core/entity/base/DomainEntity.java:70-72 | `lastModifiedBy` becomes the given value; every other field is unchanged |
| `Entities.DomainEntity.Equals` | domain-core/src/main/java/io/github/ddd/core/entity/base/DomainEntity.java:74-80 | true iff the other entity is non-null, of the same runtime class and has an equal (possibly null) id; always true for the entity itself |
| `Entities.DomainEntity.HashCode` | domain-core/src/main/java/io/github/ddd/core/entity/base/DomainEntity.java:82-85 | the hash is `Objects.hash` of the id alone, 31 when the id is null |
| `Entities.SameIdentityReflexive` | domain-core/src/main/java/io/github/ddd/core/entity/base/DomainEntity.java:76 | every entity equals itself |
| `Entities.SameIdentitySymmetric` | domain-core/src/main/java/io/github/ddd/core/entity/base/DomainEntity.java:77-79 | equality is symmetric |
| `Entities.SameIdentityTransitive` | domain-core/src/main/java/io/github/ddd/core/entity/base/DomainEntity.java:77-79 | equality is transitive |
| `Entities.SameIdentityIgnoresVersionAndAudit` | domain-core/src/main/java/io/github/ddd/core/entity/base/DomainEntity.java:75-80 | changing the version or any audit stamp never changes whether two entities are equal |
| `Entities.UnsavedEntitiesAreEqual` | domain-core/src/main/java/io/github/ddd/core/entity/base/DomainEntity.java:78-79 | two entities of the same class whose ids are both null are equal |
| `Entities.DifferentIdentitiesNeverEqual` | domain-core/src/main/java/io/github/ddd/core/entity/base/DomainEntity.java:77-79 | entities with different ids or different runtime classes are never equal |
| `Entities.EqualEntitiesHashAlike` | domain-core/src/main/java/io/github/ddd/core/entity/base/DomainEntity.java:83-85 | equal entities have equal hash codes |
| `Entities.UnsetIdHash` | domain-core/src/main/java/io/github/ddd/core/entity/base/DomainEntity.java:84 | an entity with a null id hashes to 31 |
| `Entities.SetIdHash` | domain-core/src/main/java/io/github/ddd/core/entity/base/DomainEntity.java:84 | a set id hashes to 31 plus the id's own hash code, modulo 2^32 |
| `Aggregates.AggregateRoot.constructor` | domain-core/src/main/java/io/github/ddd/core/aggregate/AggregateRoot.java:10-19 | a new aggregate is an unsaved entity with an empty event buffer |
| `Aggregates.AggregateRoot.WithId` | domain-core/src/main/java/io/github/ddd/core/aggregate/AggregateRoot.java:14-19 | stores the given id and version and starts with an empty event buffer |
| `Aggregates.AggregateRoot.AddDomainEvent` | domain-core/src/main/java/io/github/ddd/core/aggregate/AggregateRoot.java:21-23 | the buffer becomes the old buffer followed by the event, which may be null (no deduplication, no validation); the entity's fields are unchanged |
| `Aggregates.AggregateRoot.GetDomainEvents` | domain-core/src/main/java/io/github/ddd/core/aggregate/AggregateRoot.java:25-27 | throws `NullPointerException` iff the buffer holds a null event; otherwise returns a copy equal to the buffer element by element and in order; changes nothing |
| `Aggregates.AggregateRoot.ClearDomainEvents` | domain-core/src/main/java/io/github/ddd/core/aggregate/AggregateRoot.java:29-31 | the buffer becomes empty whatever it held, so a second clear changes nothing; the entity's fields are unchanged |
| `Aggregates.CopyOf` | domain-core/src/main/java/io/github/ddd/core/aggregate/AggregateRoot.java:26 | `List.copyOf` throws iff some element is null, and otherwise returns a list of the same length holding the same events in the same order |
| `Aggregates.RunHistory` | domain-core/src/main/java/io/github/ddd/core/aggregate/AggregateRoot.java:21-31 | running any history of add, get and clear calls on an aggregate leaves its buffer equal to `Replay` of that history, with the entity unchanged, so the history lemmas below hold of the class |
| `Aggregates.ReplayAppend` | domain-core/src/main/java/io/github/ddd/core/aggregate/AggregateRoot.java:21-31 | a history of buffer calls followed by one more call ends where that call takes the history's buffer |
| `Aggregates.ReplayKeepsEventsSinceLastClear` | domain-core/src/main/java/io/github/ddd/core/aggregate/AggregateRoot.java:19-31 | after any history of calls the buffer holds, in order, exactly the events added since the last clear (after the starting buffer if there was no clear) |
| `Aggregates.PendingEventsOfFreshAggregate` | domain-core/src/main/java/io/github/ddd/core/aggregate/AggregateRoot.java:19-31 | from construction, the buffer is the sequence of events added since the last clear, so the snapshot's size counts those additions, and the snapshot succeeds iff none of them is null |
| `Aggregates.NullEventBlocksSnapshotUntilClear` | domain-core/src/main/java/io/github/ddd/core/aggregate/AggregateRoot.java:21-31 | once the buffer holds a null event, the snapshot throws after any later history of calls that has no clear |
| `Aggregates.ClearIdempotentAndGetInert` | domain-core/src/main/java/io/github/ddd/core/aggregate/AggregateRoot.java:25-31 | clearing twice equals clearing once and leaves the buffer empty; reading leaves it as it was |
| `Aggregates.DoSomething` | domain-core/src/test/java/io/github/ddd/core/aggregate/AggregateRootTest.java:17-19 | a behaviour method appends one `TestEvent` to the buffer and leaves the entity's fields unchanged |
| `Aggregates.AccumulationScenario` | domain-core/src/test/java/io/github/ddd/core/aggregate/AggregateRootTest.java:31-39 | a new aggregate's snapshot is empty; after one behaviour call it holds one event whose type is "TestEvent" |
| `Aggregates.ClearThenReorderScenario` | domain-core/src/test/java/io/github/ddd/core/aggregate/AggregateRootTest.java:41-49 | after adding `e1` the snapshot is `[e1]` and after clearing it is empty, as the test checks; beyond the test, a second clear keeps it empty and adding `e2` then `e3` gives `[e2, e3]` |
| `Specifications.Specification.And` | domain-core/src/main/java/io/github/ddd/core/specification/Specification.java:13-15 | the result is satisfied by a candidate iff both operands are |
| `Specifications.Specification.Or` | domain-core/src/main/java/io/github/ddd/core/specification/Specification.java:20-22 | the result is satisfied by a candidate iff at least one operand is |
| `Specifications.Specification.Not` | domain-core/src/main/java/io/github/ddd/core/specification/Specification.java:27-29 | the result is satisfied by a candidate iff the operand is not |
| `Specifications.DoubleNegation` | domain-core/src/main/java/io/github/ddd/core/specification/Specification.java:27-29 | `a.not().not()` agrees with `a` on every candidate but is a different tree |
| `Specifications.DeMorganAnd` | domain-core/src/main/java/io/github/ddd/core/specification/Specification.java:13-29 | `a.and(b).not()` and `a.not().or(b.not())` agree on every candidate but are different trees |
| `Specifications.DeMorganOr` | domain-core/src/main/java/io/github/ddd/core/specification/Specification.java:13-29 | `a.or(b).not()` and `a.not().and(b.not())` agree on every candidate but are different trees |
| `Specifications.AndCommutative` | domain-core/src/main/java/io/github/ddd/core/specification/Specification.java:13-15 | `a.and(b)` and `b.and(a)` agree on every candidate; they are the same tree only when `a` and `b` are |
| `Specifications.OrCommutative` | domain-core/src/main/java/io/github/ddd/core/specification/Specification.java:20-22 | `a.or(b)` and `b.or(a)` agree on every candidate; they are the same tree only when `a` and `b` are |
| `Specifications.AndAssociative` | domain-core/src/main/java/io/github/ddd/core/specification/Specification.java:13-15 | both groupings of three `and`s agree on every candidate and are never the same tree |
| `Specifications.OrAssociative` | domain-core/src/main/java/io/github/ddd/core/specification/Specification.java:20-22 | both groupings of three `or`s agree on every candidate and are never the same tree |
| `Specifications.CombinatorsKeepOperands` | domain-core/src/main/java/io/github/ddd/core/specification/Specification.java:13-29 | a combinator wraps its operands as they are, without changing them |
| `Specifications.AdultAndActiveScenario` | domain-core/src/main/java/io/github/ddd/core/specification/Specification.java:13-15 | `isAdult.and(isActive)` accepts an active 20-year-old and rejects an active 16-year-old and an inactive 20-year-old |
| `Outboxes.Outbox.constructor` | domain-core/src/main/java/io/github/ddd/core/entity/Outbox.java:14-20 | stores id, aggregate type, aggregate id, type and payload exactly as given |
| `Outboxes.Outbox.WithFreshId` | domain-core/src/main/java/io/github/ddd/core/entity/Outbox.java:22-28 | stores the four given fields and the freshly generated id, which is never null |
| `Outboxes.Outbox.SetId` | domain-core/src/main/java/io/github/ddd/core/entity/Outbox.java:34-36 | the id becomes the given value; the other four fields are unchanged |
| `Outboxes.Outbox.SetAggregateType` | domain-core/src/main/java/io/github/ddd/core/entity/Outbox.java:42-44 | the aggregate type becomes the given value; the other four fields are unchanged |
| `Outboxes.Outbox.SetAggregateId` | domain-core/src/main/java/io/github/ddd/core/entity/Outbox.java:50-52 | the aggregate id becomes the given value; the other four fields are unchanged |
| `Outboxes.Outbox.SetType` | domain-core/src/main/java/io/github/ddd/core/entity/Outbox.java:58-60 | the type becomes the given value; the other four fields are unchanged |
| `Outboxes.Outbox.SetPayload` | domain-core/src/main/java/io/github/ddd/core/entity/Outbox.java:66-68 | the payload becomes the given value; the other four fields are unchanged |
| `Outboxes.CreationScenario` | domain-core/src/test/java/io/github/ddd/core/entity/OutboxTest.java:21-38 | a record built without an id has a non-null id, and each getter returns the aggregate type, aggregate id, type and payload passed in |
| `Outboxes.ConstructWithMismatchedType` | domain-core/src/main/java/io/github/ddd/core/entity/Outbox.java:22-28 | construction performs no validation: a type that differs from the payload's own type is stored as given |

## Left out

- Getters: Dafny fields are readable directly, so each Java getter (`getId`, `getVersion`, the audit getters, the five `Outbox` getters) is a read of the field; the setters' postconditions say what that read returns afterwards.
- `LocalDateTime.now()` and `UUID.randomUUID()` are parameters. The model cannot show that generated ids are globally unique; it shows only that the generated id is stored and is not null.
- `Entities.DomainEntity.Equals`: takes another entity, not any `Object`; an object that is not an entity has a different runtime class, so `equals` would return false for it.
- The id type's own `equals` is taken to be value equality, and its `hashCode` is the parameter `idHash`.
- `version` is stored as a Java `long`; the library never does arithmetic on it, so no overflow arises.
- `List.copyOf` returns a list whose mutators throw `UnsupportedOperationException` (the test at AggregateRootTest.java:58-60 calls `clear()` on it); in the model the snapshot is an immutable sequence, so there is no mutator to call and that exception is not modelled.
- Encapsulation: `domainEvents` is `private final` in Java, so only add and clear change it; a Dafny field cannot be hidden from other modules, so the model does not enforce that no other code assigns it.
- `isSatisfiedBy` of a user predicate is a total, side-effect-free function; Java predicates that throw, or that have side effects whose order `&&`/`||` short-circuiting would expose, are not modelled.
- `Specifications.Specification`: candidates are values that hold no references (`T(!new)`), because the combinators' postconditions quantify over all candidates. A specification over an aggregate or an entity, as the repository interface's `findAll` and `exists` take, must be written over a value snapshot such as `EntityState`; a Java predicate that reads a candidate's mutable fields is captured only through such a snapshot.
- A null operand of `and`/`or`: Java builds `a.and(null)` and `a.or(null)` without a null check, and because `&&`/`||` short-circuit, `a.and(null)` is false where `a` fails and throws `NullPointerException` where `a` holds, while `a.or(null)` is true where `a` holds and throws elsewhere. The model's operands are never null, so this behaviour is not modelled.
- `DomainEvent` accessors that return null: `eventId()`, `occurredOn()` and `type()` may return null in Java; the model's event fields are never null.
- Inheritance: `AggregateRoot` holds its `DomainEntity` instead of extending it, and the runtime class of a concrete subclass is a string tag.
- `Outbox<T extends DomainEvent>` holds a `DomainEvent` value; fields that a concrete event record adds beyond `eventId`, `occurredOn` and `type` are not modelled.
- `LocalDateTime` is reduced to a tick count.
- Thread safety: the library provides none for concurrent mutation of one aggregate, and the model is sequential.
- `Repository` is an interface without an implementation; `DomainException` only holds an error code; `ValueObject` and `DomainService` are markers without behaviour. None is part of this model.
