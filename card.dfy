/** Card categories, catalog templates and immutable cards (model/CardType.java, model/CardTemplate.java, model/Card.java). */
module Cards {
  import opened Attributes
  import opened Rarities

  /** `CardType`: a cosmetic category with no effect on play. */
  datatype CardType = Beast | Warrior | Nature | Mage | Elemental | Golem

  /** `CardTemplate`: a catalog entry; `imagePath` is carried but never read by the core. */
  datatype CardTemplate = CardTemplate(
    name: string,
    attribute: Attribute,
    rarity: Rarity,
    cardType: CardType,
    description: string,
    imagePath: string)

  /**
   * `Card`: an immutable value. The datatype constructor is the six-argument Java constructor,
   * and its destructors are the getters. Nothing here ties `basePower` to the rarity's band.
   */
  datatype Card = Card(
    name: string,
    attribute: Attribute,
    rarity: Rarity,
    cardType: CardType,
    description: string,
    basePower: int)

  /** The four-argument constructor: type defaults to BEAST and description to "". */
  function NewCard(name: string, attribute: Attribute, rarity: Rarity, basePower: int): (c: Card)
    ensures c.cardType == Beast && c.description == ""
    ensures c.name == name && c.attribute == attribute && c.rarity == rarity && c.basePower == basePower
  {
    Card(name, attribute, rarity, Beast, "", basePower)
  }

  /** A card may carry a base power outside its rarity's band: only the draw engine keeps powers in band. */
  lemma CardDoesNotEnforceBand()
    ensures exists c: Card :: !c.rarity.InBand(c.basePower)
  {
    var c := NewCard("Inferno Dragon", Fire, SSR, 0);
    assert !c.rarity.InBand(c.basePower);
  }
}
