/** The three elemental attributes and their dominance cycle (model/Attribute.java). */
module Attributes {

  datatype Attribute = Fire | Water | Grass {

    /** `isStrongAgainst`: FIRE beats GRASS, GRASS beats WATER, WATER beats FIRE. */
    predicate IsStrongAgainst(other: Attribute) {
      (this == Fire && other == Grass) ||
      (this == Grass && other == Water) ||
      (this == Water && other == Fire)
    }

    /** The one attribute this attribute beats: an independent description of the cycle. */
    function Prey(): Attribute {
      match this
      case Fire => Grass
      case Grass => Water
      case Water => Fire
    }
  }

  /** `Attribute.values()`, in declaration order; the attribute roll indexes into it. */
  const Values: seq<Attribute> := [Fire, Water, Grass]

  /** No attribute is strong against itself. */
  lemma NeverStrongAgainstItself(a: Attribute)
    ensures !a.IsStrongAgainst(a)
  {
  }

  /** Dominance is asymmetric: the two directions never both hold. */
  lemma NeverMutuallyStrong(a: Attribute, b: Attribute)
    ensures !(a.IsStrongAgainst(b) && b.IsStrongAgainst(a))
  {
  }

  /** Trichotomy: for any two attributes exactly one of "a beats b", "b beats a", "a == b" holds. */
  lemma Trichotomy(a: Attribute, b: Attribute)
    ensures a == b ==> !a.IsStrongAgainst(b) && !b.IsStrongAgainst(a)
    ensures a != b ==> (a.IsStrongAgainst(b) <==> !b.IsStrongAgainst(a))
  {
  }

  /** Each attribute beats exactly its prey, and is beaten exactly by the attribute whose prey it is. */
  lemma StrongAgainstIsPrey(a: Attribute, b: Attribute)
    ensures a.IsStrongAgainst(b) <==> b == a.Prey()
  {
  }

  /** The prey relation is a single 3-cycle: no fixed point, no 2-cycle, back to the start after three steps. */
  lemma PreyIsThreeCycle(a: Attribute)
    ensures a.Prey() != a && a.Prey().Prey() != a
    ensures a.Prey().Prey().Prey() == a
  {
  }

  /** There are exactly three attributes, listed once each in the order FIRE, WATER, GRASS. */
  lemma ValuesEnumerateAttributes(a: Attribute)
    ensures |Values| == 3 && a in Values
    ensures Values[0] == Fire && Values[1] == Water && Values[2] == Grass
  {
  }
}
