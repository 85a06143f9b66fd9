/** The rarity table: draw weight and power band per rarity (model/Rarity.java). */
module Rarities {

  datatype Rarity = SSR | SR | R {

    /** `getProbability`: the draw weight, out of 100. */
    function Probability(): int {
      match this
      case SSR => 10
      case SR => 30
      case R => 60
    }

    /** `getMinPower`: the smallest base power a drawn card of this rarity can have. */
    function MinPower(): int {
      match this
      case SSR => 9
      case SR => 6
      case R => 3
    }

    /** `getMaxPower`: the largest base power a drawn card of this rarity can have. */
    function MaxPower(): int {
      match this
      case SSR => 10
      case SR => 8
      case R => 5
    }

    /** Whether `power` lies in this rarity's band. */
    predicate InBand(power: int) {
      MinPower() <= power <= MaxPower()
    }
  }

  /** The draw weights are positive and sum to 100. */
  lemma WeightsSumTo100()
    ensures SSR.Probability() + SR.Probability() + R.Probability() == 100
    ensures SSR.Probability() > 0 && SR.Probability() > 0 && R.Probability() > 0
  {
  }

  /** Every band is non-empty. */
  lemma BandIsNonEmpty(x: Rarity)
    ensures x.MinPower() <= x.MaxPower()
  {
  }

  /** The bands are strictly ordered R < SR < SSR, so a power determines its band. */
  lemma BandsAreOrdered()
    ensures R.MaxPower() < SR.MinPower() && SR.MaxPower() < SSR.MinPower()
  {
  }

  /** Distinct rarities have disjoint bands. */
  lemma BandsAreDisjoint(x: Rarity, y: Rarity, power: int)
    requires x.InBand(power) && y.InBand(power)
    ensures x == y
  {
  }

  /** The constant table, exactly as declared. */
  lemma TableValues()
    ensures SSR.Probability() == 10 && SSR.MinPower() == 9 && SSR.MaxPower() == 10
    ensures SR.Probability() == 30 && SR.MinPower() == 6 && SR.MaxPower() == 8
    ensures R.Probability() == 60 && R.MinPower() == 3 && R.MaxPower() == 5
  {
  }
}
