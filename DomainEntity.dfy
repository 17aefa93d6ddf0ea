/** `DomainEntity`: identity, optimistic-concurrency version and audit stamps,
    with identity-based `equals` and `hashCode`. */
module Entities {
  import opened JavaTypes

  /** The name of an object's concrete runtime class, as `getClass()` tells it. */
  type ClassName = string

  /** Everything an entity holds, as one value. */
  datatype EntityState<ID> = EntityState(
    runtimeClass: ClassName,
    id: Option<ID>,
    version: int64,
    createdAt: Option<Timestamp>,
    createdBy: Option<string>,
    lastModifiedAt: Option<Timestamp>,
    lastModifiedBy: Option<string>)

  /** `equals` between two non-null entities: same runtime class and
      `Objects.equals` on the ids, so two null ids are equal. */
  predicate SameIdentity<ID(==)>(a: EntityState<ID>, b: EntityState<ID>) {
    a.runtimeClass == b.runtimeClass && a.id == b.id
  }

  /** `Objects.hash(id)`, that is `31 * 1 + (id == null ? 0 : id.hashCode())`
      in Java `int` arithmetic; `idHash` is the id type's own `hashCode`. */
  function IdentityHash<ID>(id: Option<ID>, idHash: ID -> int32): int32 {
    Wrap32(31 + (match id case None => 0 case Some(v) => idHash(v) as int))
  }

  lemma SameIdentityReflexive<ID>(a: EntityState<ID>)
    ensures SameIdentity(a, a)
  {
  }

  lemma SameIdentitySymmetric<ID>(a: EntityState<ID>, b: EntityState<ID>)
    ensures SameIdentity(a, b) <==> SameIdentity(b, a)
  {
  }

  lemma SameIdentityTransitive<ID>(a: EntityState<ID>, b: EntityState<ID>, c: EntityState<ID>)
    requires SameIdentity(a, b) && SameIdentity(b, c)
    ensures SameIdentity(a, c)
  {
  }

  /** Equality looks at the runtime class and the id only: any change to the
      version or the audit stamps leaves it as it was. */
  lemma SameIdentityIgnoresVersionAndAudit<ID>(
    a: EntityState<ID>, b: EntityState<ID>,
    version: int64, createdAt: Option<Timestamp>, createdBy: Option<string>,
    lastModifiedAt: Option<Timestamp>, lastModifiedBy: Option<string>)
    ensures SameIdentity(a.(version := version, createdAt := createdAt, createdBy := createdBy,
                            lastModifiedAt := lastModifiedAt, lastModifiedBy := lastModifiedBy), b)
            == SameIdentity(a, b)
  {
  }

  /** Two entities of one class whose ids are both unset are equal: the
      behaviour of the code, kept as it is. */
  lemma UnsavedEntitiesAreEqual<ID>(a: EntityState<ID>, b: EntityState<ID>)
    requires a.runtimeClass == b.runtimeClass && a.id == None && b.id == None
    ensures SameIdentity(a, b)
  {
  }

  /** Entities with different ids, or of different classes, are never equal. */
  lemma DifferentIdentitiesNeverEqual<ID>(a: EntityState<ID>, b: EntityState<ID>)
    requires a.id != b.id || a.runtimeClass != b.runtimeClass
    ensures !SameIdentity(a, b)
  {
  }

  /** The hash is a function of the id alone, so equal entities hash alike. */
  lemma EqualEntitiesHashAlike<ID>(a: EntityState<ID>, b: EntityState<ID>, idHash: ID -> int32)
    requires SameIdentity(a, b)
    ensures IdentityHash(a.id, idHash) == IdentityHash(b.id, idHash)
  {
  }

  /** An entity without an id hashes to `Objects.hash(null)`, which is 31. */
  lemma UnsetIdHash<ID>(idHash: ID -> int32)
    ensures IdentityHash(None, idHash) == 31
  {
  }

  /** A set id hashes to 31 plus the id's own hash, wrapped to 32 bits. */
  lemma SetIdHash<ID>(v: ID, idHash: ID -> int32)
    ensures (IdentityHash(Some(v), idHash) as int - 31 - idHash(v) as int) % 0x1_0000_0000 == 0
  {
  }

  /** A domain entity; the concrete subclass is the `runtimeClass` tag. */
  class DomainEntity<ID(==)> {
    const runtimeClass: ClassName
    var id: Option<ID>
    var version: int64
    var createdAt: Option<Timestamp>
    var createdBy: Option<string>
    var lastModifiedAt: Option<Timestamp>
    var lastModifiedBy: Option<string>

    function State(): EntityState<ID>
      reads this
    {
      EntityState(runtimeClass, id, version, createdAt, createdBy, lastModifiedAt, lastModifiedBy)
    }

    /** `DomainEntity()`: no id, version 0, created at `now`. */
    constructor (runtimeClass: ClassName, now: Timestamp)
      ensures State() == EntityState(runtimeClass, None, 0, Some(now), None, None, None)
    {
      this.runtimeClass := runtimeClass;
      id := None;
      version := 0;
      createdAt := Some(now);
      createdBy := None;
      lastModifiedAt := None;
      lastModifiedBy := None;
    }

    /** `DomainEntity(id, version)`: the given id and version, created at `now`. */
    constructor WithId(runtimeClass: ClassName, id: Option<ID>, version: int64, now: Timestamp)
      ensures State() == EntityState(runtimeClass, id, version, Some(now), None, None, None)
    {
      this.runtimeClass := runtimeClass;
      this.id := id;
      this.version := version;
      createdAt := Some(now);
      createdBy := None;
      lastModifiedAt := None;
      lastModifiedBy := None;
    }

    method SetId(id: Option<ID>)
      modifies this
      ensures State() == old(State()).(id := id)
    {
      this.id := id;
    }

    method SetVersion(version: int64)
      modifies this
      ensures State() == old(State()).(version := version)
    {
      this.version := version;
    }

    method SetCreatedAt(createdAt: Option<Timestamp>)
      modifies this
      ensures State() == old(State()).(createdAt := createdAt)
    {
      this.createdAt := createdAt;
    }

    method SetCreatedBy(createdBy: Option<string>)
      modifies this
      ensures State() == old(State()).(createdBy := createdBy)
    {
      this.createdBy := createdBy;
    }

    method SetLastModifiedAt(lastModifiedAt: Option<Timestamp>)
      modifies this
      ensures State() == old(State()).(lastModifiedAt := lastModifiedAt)
    {
      this.lastModifiedAt := lastModifiedAt;
    }

    method SetLastModifiedBy(lastModifiedBy: Option<string>)
      modifies this
      ensures State() == old(State()).(lastModifiedBy := lastModifiedBy)
    {
      this.lastModifiedBy := lastModifiedBy;
    }

    /** `equals(o)`: false for null and for another runtime class, otherwise
        the ids decide; the reference-equality shortcut agrees with that. */
    method Equals(o: DomainEntity?<ID>) returns (r: bool)
      ensures r <==> o != null && SameIdentity(State(), o.State())
      ensures o == this ==> r
    {
      if this == o {
        return true;
      }
      if o == null || runtimeClass != o.runtimeClass {
        return false;
      }
      r := id == o.id;
    }

    /** `hashCode()`: `Objects.hash(id)`. */
    method HashCode(idHash: ID -> int32) returns (h: int32)
      ensures h == IdentityHash(id, idHash)
      ensures id == None ==> h == 31
    {
      var idCode: int := if id.Some? then idHash(id.value) as int else 0;
      h := Wrap32(31 + idCode);
    }
  }
}
