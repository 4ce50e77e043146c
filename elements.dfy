/** The damage elements of pkg/hsrtct/element.go. The source keys an element
    by its name and uses the empty name as a wildcard; here the wildcard is an
    explicit constructor, `AnyElement`. */
module Elements {

  datatype Element = AnyElement | Ice | Wind | Fire | Imaginary | Lightning | Quantum | Physical
  {
    /** The element's name as the source spells it; the wildcard's is empty. */
    function Name(): (s: string)
      ensures s == "" <==> this == AnyElement
    {
      match this
      case AnyElement => ""
      case Ice => "Ice"
      case Wind => "Wind"
      case Fire => "Fire"
      case Imaginary => "Imaginary"
      case Lightning => "Lightning"
      case Quantum => "Quantum"
      case Physical => "Physical"
    }

    /** Wildcard-aware equality: equal, or either side is the wildcard. */
    predicate Is(other: Element) {
      this == other || this == AnyElement || other == AnyElement
    }
  }

  /** `Is` as the source states it, on the string values of the names:
      equal names, or either name the empty wildcard `AnyElement`. */
  lemma IsByName(a: Element, b: Element)
    ensures a.Is(b) <==> a.Name() == b.Name() || a.Name() == "" || b.Name() == ""
  {
  }

  /** Distinct elements have distinct names, so the name-keyed source and this
      enumeration agree on equality. */
  lemma NameInjective(a: Element, b: Element)
    ensures a.Name() == b.Name() ==> a == b
  {
  }

  lemma IsReflexive(e: Element)
    ensures e.Is(e)
  {
  }

  lemma IsSymmetric(a: Element, b: Element)
    ensures a.Is(b) == b.Is(a)
  {
  }

  /** The wildcard matches every element, itself included, from either side. */
  lemma AnyElementMatchesAll(e: Element)
    ensures AnyElement.Is(e) && e.Is(AnyElement)
  {
  }

  /** Two concrete elements match only when they are the same element. */
  lemma ConcreteElementsMatchOnlyThemselves(a: Element, b: Element)
    requires a != AnyElement && b != AnyElement
    ensures a.Is(b) <==> a == b
  {
  }

  /** Matching is not transitive: going through the wildcard links two
      concrete elements that do not match each other. */
  lemma IsNotTransitive()
    ensures Fire.Is(AnyElement) && AnyElement.Is(Ice) && !Fire.Is(Ice)
  {
  }
}
