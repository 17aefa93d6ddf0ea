/** `Specification`: a predicate over candidates, composed with `and`, `or`
    and `not`. Each combinator wraps its operands in a new specification, so
    a specification is a tree whose leaves are the user's predicates. */
module Specifications {

  datatype Specification<!T(!new)> =
    | Predicate(test: T -> bool)
    | Conjunction(left: Specification<T>, right: Specification<T>)
    | Disjunction(left: Specification<T>, right: Specification<T>)
    | Negation(operand: Specification<T>)
  {
    /** `isSatisfiedBy(t)`. */
    predicate IsSatisfiedBy(t: T) {
      match this
      case Predicate(test) => test(t)
      case Conjunction(l, r) => l.IsSatisfiedBy(t) && r.IsSatisfiedBy(t)
      case Disjunction(l, r) => l.IsSatisfiedBy(t) || r.IsSatisfiedBy(t)
      case Negation(s) => !s.IsSatisfiedBy(t)
    }

    /** The number of nodes in the tree; used to tell trees apart. */
    ghost function Size(): nat {
      match this
      case Predicate(_) => 1
      case Conjunction(l, r) => 1 + l.Size() + r.Size()
      case Disjunction(l, r) => 1 + l.Size() + r.Size()
      case Negation(s) => 1 + s.Size()
    }

    /** `and(other)`: satisfied exactly when both operands are. */
    function And(other: Specification<T>): (r: Specification<T>)
      ensures forall t :: r.IsSatisfiedBy(t) <==> IsSatisfiedBy(t) && other.IsSatisfiedBy(t)
    {
      Conjunction(this, other)
    }

    /** `or(other)`: satisfied exactly when either operand is. */
    function Or(other: Specification<T>): (r: Specification<T>)
      ensures forall t :: r.IsSatisfiedBy(t) <==> IsSatisfiedBy(t) || other.IsSatisfiedBy(t)
    {
      Disjunction(this, other)
    }

    /** `not()`: satisfied exactly when the operand is not. */
    function Not(): (r: Specification<T>)
      ensures forall t :: r.IsSatisfiedBy(t) <==> !IsSatisfiedBy(t)
    {
      Negation(this)
    }
  }

  /** Two specifications agree on every candidate. */
  ghost predicate Equivalent<T(!new)>(a: Specification<T>, b: Specification<T>) {
    forall t :: a.IsSatisfiedBy(t) == b.IsSatisfiedBy(t)
  }

  lemma DoubleNegation<T(!new)>(a: Specification<T>)
    ensures Equivalent(a.Not().Not(), a)
    ensures a.Not().Not() != a
  {
    assert a.Not().Not().Size() == a.Size() + 2;
  }

  /** De Morgan: equal in truth value, different as trees. */
  lemma DeMorganAnd<T(!new)>(a: Specification<T>, b: Specification<T>)
    ensures Equivalent(a.And(b).Not(), a.Not().Or(b.Not()))
    ensures a.And(b).Not() != a.Not().Or(b.Not())
  {
  }

  lemma DeMorganOr<T(!new)>(a: Specification<T>, b: Specification<T>)
    ensures Equivalent(a.Or(b).Not(), a.Not().And(b.Not()))
    ensures a.Or(b).Not() != a.Not().And(b.Not())
  {
  }

  /** `and` is commutative in truth value; as trees the two orders differ unless the operands are equal. */
  lemma AndCommutative<T(!new)>(a: Specification<T>, b: Specification<T>)
    ensures Equivalent(a.And(b), b.And(a))
    ensures a.And(b) == b.And(a) <==> a == b
  {
  }

  lemma OrCommutative<T(!new)>(a: Specification<T>, b: Specification<T>)
    ensures Equivalent(a.Or(b), b.Or(a))
    ensures a.Or(b) == b.Or(a) <==> a == b
  {
  }

  /** `and` is associative in truth value, never in structure. */
  lemma AndAssociative<T(!new)>(a: Specification<T>, b: Specification<T>, c: Specification<T>)
    ensures Equivalent(a.And(b).And(c), a.And(b.And(c)))
    ensures a.And(b).And(c) != a.And(b.And(c))
  {
    assert a.And(b).Size() > a.Size();
  }

  lemma OrAssociative<T(!new)>(a: Specification<T>, b: Specification<T>, c: Specification<T>)
    ensures Equivalent(a.Or(b).Or(c), a.Or(b.Or(c)))
    ensures a.Or(b).Or(c) != a.Or(b.Or(c))
  {
    assert a.Or(b).Size() > a.Size();
  }

  /** The combinators wrap their operands unchanged. */
  lemma CombinatorsKeepOperands<T(!new)>(a: Specification<T>, b: Specification<T>)
    ensures a.And(b).left == a && a.And(b).right == b
    ensures a.Or(b).left == a && a.Or(b).right == b
    ensures a.Not().operand == a
  {
  }

  /** A candidate with an age and an account status. */
  datatype Person = Person(age: int, status: string)

  /** `isAdult.and(isActive)` accepts an active adult and rejects a minor or an inactive adult. */
  lemma AdultAndActiveScenario()
    ensures var isAdult := Predicate((p: Person) => p.age >= 18);
            var isActive := Predicate((p: Person) => p.status == "active");
            && isAdult.And(isActive).IsSatisfiedBy(Person(20, "active"))
            && !isAdult.And(isActive).IsSatisfiedBy(Person(16, "active"))
            && !isAdult.And(isActive).IsSatisfiedBy(Person(20, "inactive"))
  {
  }
}
