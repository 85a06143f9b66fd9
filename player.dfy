/** Player progression: level, experience, currency, rating and deck (model/Player.java). */
module Progression {
  import opened Wrappers
  import opened Cards

  /** `calculateXpToNextLevel`: the experience needed to leave `level`. */
  function Threshold(level: int): int {
    100 * level
  }

  /** The level-up currency bonus granted on reaching `newLevel`. */
  function LevelBonus(newLevel: int): int {
    50 * newLevel
  }

  /** The part of a player's state that experience gains change. */
  datatype Progress = Progress(level: int, xp: int, currency: int)

  /** A measure that falls with every level-up: first the distance of a non-positive level to 1, then the experience. */
  function LevelRank(level: int): nat {
    if level < 1 then 1 - level else 0
  }

  /** `levelUp`: pay the current threshold, go up one level, collect the bonus for the new level. */
  function LevelUpStep(p: Progress): (q: Progress)
    ensures q.level == p.level + 1
    ensures q.xp == p.xp - Threshold(p.level)
    ensures q.currency == p.currency + LevelBonus(q.level)
  {
    Progress(p.level + 1, p.xp - Threshold(p.level), p.currency + LevelBonus(p.level + 1))
  }

  /** The `while` loop of `addXp`: level up as long as the experience reaches the current threshold. */
  function Cascade(p: Progress): (q: Progress)
    decreases LevelRank(p.level), p.xp
    ensures q.xp < Threshold(q.level)
    ensures q.level >= p.level
    ensures p.level >= 0 ==> q.currency >= p.currency
    ensures p.xp < Threshold(p.level) ==> q == p
    ensures p.level >= 1 && p.xp >= 0 ==> 0 <= q.xp
  {
    if p.xp >= Threshold(p.level) then Cascade(LevelUpStep(p)) else p
  }

  /** `addXp(amount)`: add the experience, then cascade through the level-ups it pays for. */
  function GainXp(p: Progress, amount: int): (q: Progress)
    ensures q.xp < Threshold(q.level)
    ensures q.level >= p.level
    ensures p.level >= 0 ==> q.currency >= p.currency
    ensures p.level >= 1 && p.xp >= 0 && amount >= 0 ==> 0 <= q.xp
  {
    Cascade(GainXpRaw(p, amount))
  }

  /** `addCurrency(amount)` on a progress value. */
  function GainCurrency(p: Progress, amount: int): Progress {
    Progress(p.level, p.xp, p.currency + amount)
  }

  /** Extra experience can be added before or after a cascade: the final state is the same. */
  lemma {:induction false} CascadeAbsorbsLaterXp(p: Progress, b: int)
    requires b >= 0
    decreases LevelRank(p.level), p.xp
    ensures Cascade(GainXpRaw(Cascade(p), b)) == Cascade(GainXpRaw(p, b))
  {
    if p.xp >= Threshold(p.level) {
      assert LevelUpStep(GainXpRaw(p, b)) == GainXpRaw(LevelUpStep(p), b);
      CascadeAbsorbsLaterXp(LevelUpStep(p), b);
    }
  }

  /** Experience without the level-up loop: the state right after `this.xp += amount`. */
  function GainXpRaw(p: Progress, amount: int): Progress {
    Progress(p.level, p.xp + amount, p.currency)
  }

  /** `addXp(a); addXp(b)` ends in the same level, experience and currency as `addXp(a + b)`. */
  lemma GainXpIsAdditive(p: Progress, a: int, b: int)
    requires a >= 0 && b >= 0
    ensures GainXp(GainXp(p, a), b) == GainXp(p, a + b)
  {
    var raw := GainXpRaw(p, a);
    CascadeAbsorbsLaterXp(raw, b);
    assert GainXpRaw(raw, b) == GainXpRaw(p, a + b);
  }

  /** The experience needed to climb from level 1 to `level`: 100 * (1 + 2 + ... + (level - 1)). */
  function XpToReach(level: int): int {
    50 * level * (level - 1)
  }

  /** The level-up bonuses collected from level 1 to `level`: 50 * (2 + ... + level), offset by a constant. */
  function BonusToReach(level: int): int {
    25 * level * (level + 1)
  }

  lemma ReachStep(level: int)
    ensures XpToReach(level + 1) == XpToReach(level) + Threshold(level)
    ensures BonusToReach(level + 1) == BonusToReach(level) + LevelBonus(level + 1)
  {
    calc {
      XpToReach(level + 1);
      50 * (level + 1) * level;
      50 * level * (level - 1) + 100 * level;
    }
    calc {
      BonusToReach(level + 1);
      25 * (level + 1) * (level + 2);
      25 * level * (level + 1) + 50 * (level + 1);
    }
  }

  /**
   * The cascade in closed form: the experience spent is the sum of the thresholds of the levels
   * left behind, and the currency gained is the sum of the bonuses of the levels reached.
   */
  lemma {:induction false} CascadeClosedForm(p: Progress)
    decreases LevelRank(p.level), p.xp
    ensures Cascade(p).xp + XpToReach(Cascade(p).level) == p.xp + XpToReach(p.level)
    ensures Cascade(p).currency - BonusToReach(Cascade(p).level) == p.currency - BonusToReach(p.level)
  {
    if p.xp >= Threshold(p.level) {
      CascadeClosedForm(LevelUpStep(p));
      ReachStep(p.level);
    }
  }

  /** 250 experience at level 1 with none banked reaches level 2 with 150 left over and a bonus of 100, not level 3. */
  lemma TwoHundredFiftyXpFromLevelOne(currency: int)
    ensures GainXp(Progress(1, 0, currency), 250) == Progress(2, 150, currency + 100)
  {
    assert LevelUpStep(Progress(1, 250, currency)) == Progress(2, 150, currency + 100);
  }

  /** Currency granted before a cascade is still there, unchanged, after it. */
  lemma {:induction false} CascadeKeepsExtraCurrency(p: Progress, c: int)
    decreases LevelRank(p.level), p.xp
    ensures Cascade(GainCurrency(p, c)) == GainCurrency(Cascade(p), c)
  {
    if p.xp >= Threshold(p.level) {
      assert LevelUpStep(GainCurrency(p, c)) == GainCurrency(LevelUpStep(p), c);
      CascadeKeepsExtraCurrency(LevelUpStep(p), c);
    }
  }

  /** Experience gained after a currency grant leaves that grant in place. */
  lemma GainXpAfterCurrency(p: Progress, c: int, n: int)
    ensures GainXp(GainCurrency(p, c), n) == GainCurrency(GainXp(p, n), c)
  {
    assert GainXpRaw(GainCurrency(p, c), n) == GainCurrency(GainXpRaw(p, n), c);
    CascadeKeepsExtraCurrency(GainXpRaw(p, n), c);
  }

  /** Two grants of experience and currency in a row are one grant of the sums. */
  lemma GrantsCompose(p: Progress, x: int, c: int, y: int, d: int)
    requires x >= 0 && y >= 0
    ensures GainCurrency(GainXp(GainCurrency(GainXp(p, x), c), y), d) == GainCurrency(GainXp(p, x + y), c + d)
  {
    GainXpAfterCurrency(GainXp(p, x), c, y);
    GainXpIsAdditive(p, x, y);
  }

  /**
   * `Player`. The invariant `Valid` is that `xpToNextLevel` is the threshold of the current level;
   * the constructors establish it and `levelUp` restores it.
   */
  class Player {
    var username: string
    var level: int
    var xp: int
    var currency: int
    var deck: seq<Card>
    var xpToNextLevel: int
    var rating: int

    ghost predicate Valid()
      reads this
    {
      xpToNextLevel == Threshold(level)
    }

    /** The level, experience and currency, as one value. */
    ghost function Stats(): Progress
      reads this
    {
      Progress(level, xp, currency)
    }

    /** The five-argument constructor. */
    constructor (username: string, level: int, xp: int, currency: int, rating: int)
      ensures Valid()
      ensures this.username == username && this.level == level && this.xp == xp
      ensures this.currency == currency && this.rating == rating && this.deck == []
    {
      this.username := username;
      this.level := level;
      this.xp := xp;
      this.currency := currency;
      this.rating := rating;
      this.deck := [];
      this.xpToNextLevel := Threshold(level);
    }

    /** The four-argument constructor: the rating defaults to 1000. */
    constructor WithDefaultRating(username: string, level: int, xp: int, currency: int)
      ensures Valid()
      ensures this.username == username && this.level == level && this.xp == xp
      ensures this.currency == currency && this.rating == 1000 && this.deck == []
    {
      this.username := username;
      this.level := level;
      this.xp := xp;
      this.currency := currency;
      this.rating := 1000;
      this.deck := [];
      this.xpToNextLevel := Threshold(level);
    }

    /** `addRating`: a signed change with no floor or cap. */
    method AddRating(delta: int)
      modifies this
      ensures rating == old(rating) + delta
      ensures username == old(username) && Stats() == old(Stats()) && deck == old(deck)
      ensures xpToNextLevel == old(xpToNextLevel)
    {
      rating := rating + delta;
    }

    /** `setRating`. */
    method SetRating(rating: int)
      modifies this
      ensures this.rating == rating
      ensures username == old(username) && Stats() == old(Stats()) && deck == old(deck)
      ensures xpToNextLevel == old(xpToNextLevel)
    {
      this.rating := rating;
    }

    /** `addXp`: add the experience, then level up while it reaches the threshold. */
    method AddXp(amount: int)
      requires Valid()
      modifies this
      ensures Valid()
      ensures Stats() == GainXp(old(Stats()), amount)
      ensures old(level) >= 1 && old(xp) >= 0 && amount >= 0 ==> 0 <= xp < xpToNextLevel
      ensures username == old(username) && rating == old(rating) && deck == old(deck)
    {
      xp := xp + amount;
      while xp >= xpToNextLevel
        invariant Valid()
        invariant Cascade(Stats()) == GainXp(old(Stats()), amount)
        invariant username == old(username) && rating == old(rating) && deck == old(deck)
        decreases LevelRank(level), xp
      {
        LevelUp();
      }
    }

    /** `levelUp`: one step of the cascade. */
    method LevelUp()
      requires Valid()
      modifies this
      ensures Valid()
      ensures Stats() == LevelUpStep(old(Stats()))
      ensures level == old(level) + 1 && xp == old(xp) - old(xpToNextLevel)
      ensures username == old(username) && rating == old(rating) && deck == old(deck)
    {
      xp := xp - xpToNextLevel;
      level := level + 1;
      xpToNextLevel := Threshold(level);
      AddCurrency(LevelBonus(level));
    }

    /** `addCurrency`: no floor or cap. */
    method AddCurrency(amount: int)
      modifies this
      ensures currency == old(currency) + amount
      ensures level == old(level) && xp == old(xp) && xpToNextLevel == old(xpToNextLevel)
      ensures username == old(username) && rating == old(rating) && deck == old(deck)
    {
      currency := currency + amount;
    }

    /** `spendCurrency`: deduct and report success exactly when the balance covers the amount. */
    method SpendCurrency(amount: int) returns (ok: bool)
      modifies this
      ensures ok <==> old(currency) >= amount
      ensures currency == if ok then old(currency) - amount else old(currency)
      ensures old(currency) >= 0 && amount >= 0 ==> currency >= 0
      ensures level == old(level) && xp == old(xp) && xpToNextLevel == old(xpToNextLevel)
      ensures username == old(username) && rating == old(rating) && deck == old(deck)
    {
      if currency >= amount {
        currency := currency - amount;
        return true;
      }
      return false;
    }

    /** `addCardToDeck`: append a card at the end; `None` stands for `null` and changes nothing. */
    method AddCardToDeck(card: Option<Card>)
      modifies this
      ensures deck == if card.Some? then old(deck) + [card.value] else old(deck)
      ensures username == old(username) && Stats() == old(Stats()) && rating == old(rating)
      ensures xpToNextLevel == old(xpToNextLevel)
    {
      if card.Some? {
        deck := deck + [card.value];
      }
    }
  }
}
