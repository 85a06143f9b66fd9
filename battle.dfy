/** Battle resolution between two cards (service/BattleService.java). The service has no fields, so it is a pure function. */
module Battle {
  import opened Wrappers
  import opened Attributes
  import opened Cards

  /** The power added to the card whose attribute dominates. */
  const AdvantageBonus: int := 4

  /** Which argument won; the Java result encodes this by object identity of `winner`. */
  datatype Outcome = FirstWins | SecondWins | Draw

  /**
   * `BattleResult`: in a draw `winner` and `loser` are absent (null in Java) and the two
   * power fields hold the first and second card's final power, in argument order.
   */
  datatype BattleResult = BattleResult(
    outcome: Outcome,
    winner: Option<Card>,
    loser: Option<Card>,
    winnerFinalPower: int,
    loserFinalPower: int)
  {
    /** The final power of the first argument of `Fight`, read back from the result. */
    function FirstPower(): int {
      if outcome == SecondWins then loserFinalPower else winnerFinalPower
    }

    /** The final power of the second argument of `Fight`, read back from the result. */
    function SecondPower(): int {
      if outcome == SecondWins then winnerFinalPower else loserFinalPower
    }
  }

  /** `fight`: add the bonus to the dominant card (first argument checked first), then compare. */
  function Fight(c1: Card, c2: Card): (r: BattleResult)
    // each final power is the base power or the base power plus the bonus, and at most one card gets it
    ensures r.FirstPower() == c1.basePower || r.FirstPower() == c1.basePower + AdvantageBonus
    ensures r.SecondPower() == c2.basePower || r.SecondPower() == c2.basePower + AdvantageBonus
    ensures r.FirstPower() == c1.basePower || r.SecondPower() == c2.basePower
    // the bonus goes exactly to the card whose attribute dominates the other's
    ensures r.FirstPower() == c1.basePower + AdvantageBonus <==> c1.attribute.IsStrongAgainst(c2.attribute)
    ensures r.SecondPower() == c2.basePower + AdvantageBonus <==> c2.attribute.IsStrongAgainst(c1.attribute)
    // the strictly greater final power wins; equal final powers are a draw
    ensures r.outcome == FirstWins <==> r.FirstPower() > r.SecondPower()
    ensures r.outcome == SecondWins <==> r.SecondPower() > r.FirstPower()
    ensures r.outcome == Draw <==> r.FirstPower() == r.SecondPower()
    // winner and loser are the two arguments, and the winner's final power is the larger
    ensures r.outcome == FirstWins ==> r.winner == Some(c1) && r.loser == Some(c2)
    ensures r.outcome == SecondWins ==> r.winner == Some(c2) && r.loser == Some(c1)
    ensures r.outcome == Draw <==> r.winner == None && r.loser == None
    ensures r.outcome != Draw ==> r.winnerFinalPower > r.loserFinalPower
  {
    var p1 := c1.basePower;
    var p2 := c2.basePower;
    var (q1, q2) :=
      if c1.attribute.IsStrongAgainst(c2.attribute) then (p1 + AdvantageBonus, p2)
      else if c2.attribute.IsStrongAgainst(c1.attribute) then (p1, p2 + AdvantageBonus)
      else (p1, p2);
    if q1 > q2 then BattleResult(FirstWins, Some(c1), Some(c2), q1, q2)
    else if q2 > q1 then BattleResult(SecondWins, Some(c2), Some(c1), q2, q1)
    else BattleResult(Draw, None, None, q1, q2)
  }

  /**
   * Swapping the arguments swaps the roles: the same card wins with the same powers,
   * and a draw stays a draw with its two reported powers exchanged.
   */
  lemma FightIsSymmetric(c1: Card, c2: Card)
    ensures Fight(c1, c2).outcome == FirstWins <==> Fight(c2, c1).outcome == SecondWins
    ensures Fight(c1, c2).outcome == Draw <==> Fight(c2, c1).outcome == Draw
    ensures Fight(c1, c2).outcome != Draw ==>
      Fight(c1, c2).winner == Fight(c2, c1).winner &&
      Fight(c1, c2).loser == Fight(c2, c1).loser &&
      Fight(c1, c2).winnerFinalPower == Fight(c2, c1).winnerFinalPower &&
      Fight(c1, c2).loserFinalPower == Fight(c2, c1).loserFinalPower
    ensures Fight(c1, c2).outcome == Draw ==>
      Fight(c1, c2).winnerFinalPower == Fight(c2, c1).loserFinalPower &&
      Fight(c1, c2).loserFinalPower == Fight(c2, c1).winnerFinalPower
  {
    NeverMutuallyStrong(c1.attribute, c2.attribute);
  }

  /** Cards of the same attribute are compared on base power alone. */
  lemma SameAttributeComparesBasePower(c1: Card, c2: Card)
    requires c1.attribute == c2.attribute
    ensures Fight(c1, c2).FirstPower() == c1.basePower && Fight(c1, c2).SecondPower() == c2.basePower
  {
    NeverStrongAgainstItself(c1.attribute);
  }

  /** A dominant card wins exactly when its base power plus the bonus exceeds the other's base power. */
  lemma AdvantageDecides(c1: Card, c2: Card)
    requires c1.attribute.IsStrongAgainst(c2.attribute)
    ensures Fight(c1, c2).outcome == FirstWins <==> c1.basePower + AdvantageBonus > c2.basePower
    ensures Fight(c1, c2).outcome == Draw <==> c1.basePower + AdvantageBonus == c2.basePower
  {
  }
}
