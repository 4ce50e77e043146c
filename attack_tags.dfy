/** The attack categories of pkg/hsrtct/damage.go. The source declares the
    type as `AttackTag` but types a buff's filter as `DamageTag`; both are the
    one datatype here, with the empty-name wildcard made explicit as
    `AnyAttack`. */
module AttackTags {

  datatype AttackTag = AnyAttack | Basic | Skill | Ultimate | FollowUp | Dot
  {
    /** The tag's name as the source spells it; the wildcard's is empty. */
    function Name(): (s: string)
      ensures s == "" <==> this == AnyAttack
    {
      match this
      case AnyAttack => ""
      case Basic => "Basic"
      case Skill => "Skill"
      case Ultimate => "Ultimate"
      case FollowUp => "FollowUp"
      case Dot => "Dot"
    }

    /** Wildcard-aware equality: equal, or either side is the wildcard. */
    predicate Is(other: AttackTag) {
      this == other || this == AnyAttack || other == AnyAttack
    }
  }

  /** `Is` as the source states it, on the string values of the names:
      equal names, or either name the empty wildcard `AnyAttack`. */
  lemma IsByName(a: AttackTag, b: AttackTag)
    ensures a.Is(b) <==> a.Name() == b.Name() || a.Name() == "" || b.Name() == ""
  {
  }

  lemma NameInjective(a: AttackTag, b: AttackTag)
    ensures a.Name() == b.Name() ==> a == b
  {
  }

  lemma IsReflexive(t: AttackTag)
    ensures t.Is(t)
  {
  }

  lemma IsSymmetric(a: AttackTag, b: AttackTag)
    ensures a.Is(b) == b.Is(a)
  {
  }

  /** The wildcard matches every tag, itself included, from either side. */
  lemma AnyAttackMatchesAll(t: AttackTag)
    ensures AnyAttack.Is(t) && t.Is(AnyAttack)
  {
  }

  /** Two concrete tags match only when they are the same tag. */
  lemma ConcreteTagsMatchOnlyThemselves(a: AttackTag, b: AttackTag)
    requires a != AnyAttack && b != AnyAttack
    ensures a.Is(b) <==> a == b
  {
  }
}
