/**
 * The draw engine (service/GachaService.java). `java.util.Random` is replaced by an injected stream of rolls:
 * the i-th card of a draw uses `rng(i)`, and a raw roll `r` stands for `nextInt(n)` through `r % n`,
 * which reaches every value of `[0, n)`.
 */
module Gacha {
  import opened Wrappers
  import opened Attributes
  import opened Rarities
  import opened Cards
  import opened Progression

  /** `CARD_DRAW_COST`: the price of one card. */
  const CardDrawCost: int := 10

  /** The four `nextInt` results consumed for one card, in the order the source draws them. */
  datatype CardRolls = CardRolls(rarityRoll: nat, attributeRoll: nat, templateRoll: nat, powerRoll: nat)

  /** `TEMPLATES`: the fixed catalog, in declaration order. */
  const Templates: seq<CardTemplate> := [
    CardTemplate("Blaze Hound", Fire, R, Beast, "A fast-burning canine, agile but fragile.", "resources/images/blaze_hound.png"),
    CardTemplate("Flame Hedgehog", Fire, R, Beast, "Defensive spiker that retaliates when hit.", "resources/images/flame_hedgehog.png"),
    CardTemplate("Ember Archer", Fire, SR, Warrior, "Fires burning arrows from long range.", "resources/images/ember_archer.png"),
    CardTemplate("Lava Beetle", Fire, SR, Nature, "Molten body grants high resistance.", "resources/images/lava_beetle.png"),
    CardTemplate("Flame Dancer", Fire, SR, Mage, "Twirls through the battlefield, evasive.", "resources/images/flame_dancer.png"),
    CardTemplate("Inferno Dragon", Fire, SSR, Beast, "Dominant fire-breather, area burn skill.", "resources/images/inferno_dragon.png"),
    CardTemplate("Hellfire Knight", Fire, SSR, Warrior, "Rides a fire beast, blends strength & magic.", "resources/images/hellfire_knight.png"),
    CardTemplate("Solar Fox", Fire, SR, Beast, "Quick-strike card with bonus crit chance.", "resources/images/solar_fox.png"),
    CardTemplate("Magma Golem", Fire, R, Golem, "Slow but incredibly hard to destroy.", "resources/images/magma_golem.png"),
    CardTemplate("Ash Phoenix", Fire, SSR, Elemental, "Mythical rebirth card, powerful late-game.", "resources/images/ash_phoenix.png"),
    CardTemplate("Mossback Turtle", Grass, R, Beast, "Tanky turtle with regeneration abilities.", "resources/images/mossback_turtle.png"),
    CardTemplate("Leaf Pixie", Grass, R, Mage, "Disruptive support unit, specializes in CC.", "resources/images/leaf_pixie.png"),
    CardTemplate("Vine Hunter", Grass, SR, Warrior, "Archer who tracks with entangling vines.", "resources/images/vine_hunter.png"),
    CardTemplate("Boomshroom", Grass, SR, Nature, "Explodes on attack, high-risk card.", "resources/images/boomshroom.png"),
    CardTemplate("Thorn Witch", Grass, SR, Mage, "Specializes in poison and control.", "resources/images/thorn_witch.png"),
    CardTemplate("Shadow Leopard", Grass, SSR, Beast, "Stealthy predator, double strike ability.", "resources/images/shadow_leopard.png"),
    CardTemplate("Glimmerhorn King", Grass, SSR, Beast, "King of the field, inspires other cards.", "resources/images/glimmerhorn_king.png"),
    CardTemplate("Spirit of Forest", Grass, SSR, Elemental, "Legendary support card, heals over time.", "resources/images/spirit_of_forest.png"),
    CardTemplate("Petal Guardian", Grass, R, Warrior, "Defensive shield unit, ideal for stalling.", "resources/images/petal_guardian.png"),
    CardTemplate("Prairie Windwolf", Grass, SR, Beast, "Breaks through defense with speed.", "resources/images/prairie_windwolf.png"),
    CardTemplate("Bubble Tardigrade", Water, R, Beast, "Cute yet resilient, restores minor HP.", "resources/images/bubble_tardigrade.png"),
    CardTemplate("Tide Ninja", Water, R, Warrior, "High dodge rate, fast assassin.", "resources/images/tide_ninja.png"),
    CardTemplate("Ice-scaled Murloc", Water, SR, Beast, "Blocks incoming attacks, counter-ready.", "resources/images/ice_scaled_murloc.png"),
    CardTemplate("Aqua Sorcerer", Water, SR, Mage, "Area caster, slows enemy cards.", "resources/images/aqua_sorcerer.png"),
    CardTemplate("Abyssal Tentacle", Water, SR, Nature, "Disrupts and binds opponents in place.", "resources/images/abyssal_tentacle.png"),
    CardTemplate("Frost Giant", Water, SSR, Elemental, "Slows enemies and freezes the battlefield.", "resources/images/frost_giant.png"),
    CardTemplate("Sea King Knight", Water, SSR, Warrior, "Leads aquatic troops, aggressive leader.", "resources/images/sea_king_knight.png"),
    CardTemplate("Snowfang Lynx", Water, SR, Beast, "Fast striker with high crit potential.", "resources/images/snowfang_lynx.png"),
    CardTemplate("Mystic Codex", Water, R, Mage, "Autonomous water spellcaster.", "resources/images/mystic_codex.png"),
    CardTemplate("Tidal Leviathan", Water, SSR, Beast, "Devastating waterquake attack, hard to beat.", "resources/images/tidal_leviathan.png")
  ]

  /** The catalog holds 30 templates. */
  lemma TemplatesCount()
    ensures |Templates| == 30
  {
  }

  /** The two stream predicates of the draw engine: a matching attribute and rarity, or a matching rarity. */
  datatype Criterion = SamePair(attribute: Attribute, rarity: Rarity) | SameRarity(rarity: Rarity) {
    predicate Accepts(t: CardTemplate) {
      match this
      case SamePair(a, x) => t.attribute == a && t.rarity == x
      case SameRarity(x) => t.rarity == x
    }
  }

  /** A stream filter: the elements that `keep` accepts, in their original order. */
  function Filter(s: seq<CardTemplate>, keep: Criterion): (r: seq<CardTemplate>)
    ensures |r| <= |s|
    ensures forall t :: t in r <==> t in s && keep.Accepts(t)
  {
    if s == [] then []
    else if keep.Accepts(s[0]) then [s[0]] + Filter(s[1..], keep)
    else Filter(s[1..], keep)
  }

  /** The templates matching both the rolled attribute and the rolled rarity. */
  function ExactPool(catalog: seq<CardTemplate>, a: Attribute, x: Rarity): seq<CardTemplate> {
    Filter(catalog, SamePair(a, x))
  }

  /** The templates matching the rolled rarity, whatever their attribute. */
  function RarityPool(catalog: seq<CardTemplate>, x: Rarity): seq<CardTemplate> {
    Filter(catalog, SameRarity(x))
  }

  /** The catalog contract of the draw engine: a template for every (attribute, rarity) pair. */
  predicate CoversEveryPair(catalog: seq<CardTemplate>)
    ensures CoversEveryPair(catalog) ==> |catalog| > 0
  {
    var covered := forall a: Attribute, x: Rarity :: |ExactPool(catalog, a, x)| > 0;
    assert covered ==> |ExactPool(catalog, Fire, R)| > 0;
    covered
  }

  /** A template at position `k` of the catalog puts its pair's exact pool out of reach of emptiness. */
  lemma ExactPoolHolds(catalog: seq<CardTemplate>, k: nat)
    requires k < |catalog|
    ensures catalog[k] in ExactPool(catalog, catalog[k].attribute, catalog[k].rarity)
  {
  }

  /** Every (attribute, rarity) pair has a template in the catalog, so the exact pool is never empty. */
  lemma TemplatesCoverPair(a: Attribute, x: Rarity)
    ensures |ExactPool(Templates, a, x)| > 0
  {
    var k: nat :=
      match (a, x)
      case (Fire, R) => 0
      case (Fire, SR) => 2
      case (Fire, SSR) => 5
      case (Grass, R) => 10
      case (Grass, SR) => 12
      case (Grass, SSR) => 15
      case (Water, R) => 20
      case (Water, SR) => 22
      case (Water, SSR) => 25;
    assert Templates[k].attribute == a && Templates[k].rarity == x;
    ExactPoolHolds(Templates, k);
  }

  /** The catalog meets the draw engine's contract. */
  lemma TemplatesCoverEveryPair()
    ensures CoversEveryPair(Templates)
  {
    forall a: Attribute, x: Rarity
      ensures |ExactPool(Templates, a, x)| > 0
    {
      TemplatesCoverPair(a, x);
    }
  }

  /**
   * The pool of the opponent's draw: the exact pool, or, when that is empty, every template of the rolled
   * rarity, or, when that is empty too, the whole catalog.
   */
  function BroadenedPool(catalog: seq<CardTemplate>, a: Attribute, x: Rarity): (pool: seq<CardTemplate>)
    ensures forall t :: t in pool ==> t in catalog
    ensures |pool| > 0 <==> |catalog| > 0
    ensures (exists t :: t in catalog && t.attribute == a && t.rarity == x) ==>
      forall t :: t in pool ==> t.attribute == a && t.rarity == x
    ensures (exists t :: t in catalog && t.rarity == x) ==> forall t :: t in pool ==> t.rarity == x
    ensures (forall t :: t in catalog ==> t.rarity != x) ==> pool == catalog
  {
    var exact := ExactPool(catalog, a, x);
    if |exact| > 0 then
      assert exact[0] in exact;
      exact
    else
      var sameRarity := RarityPool(catalog, x);
      if |sameRarity| > 0 then
        assert sameRarity[0] in sameRarity;
        sameRarity
      else catalog
  }

  /** `pool.get(random.nextInt(pool.size()))`. */
  function Pick(pool: seq<CardTemplate>, raw: nat): CardTemplate
    requires |pool| > 0
  {
    pool[raw % |pool|]
  }

  /** `getRandomRarity` once the roll `1 + nextInt(100)` is known: cumulative ranges over the weights. */
  function RarityForRoll(roll: int): Rarity {
    if roll <= SSR.Probability() then SSR
    else if roll <= SSR.Probability() + SR.Probability() then SR
    else R
  }

  /** `getRandomRarity`, from the raw `nextInt(100)` result. */
  function RollRarity(raw: nat): (x: Rarity)
    ensures x == SSR <==> raw % 100 < SSR.Probability()
    ensures x == SR <==> SSR.Probability() <= raw % 100 < SSR.Probability() + SR.Probability()
    ensures x == R <==> SSR.Probability() + SR.Probability() <= raw % 100
  {
    RarityForRoll(raw % 100 + 1)
  }

  /** `getRandomAttribute`: index the attributes in declaration order. */
  function RollAttribute(raw: nat): (a: Attribute)
    ensures a == Fire <==> raw % 3 == 0
    ensures a == Water <==> raw % 3 == 1
    ensures a == Grass <==> raw % 3 == 2
  {
    Values[raw % |Values|]
  }

  /** `getRandomPower`: a value in the rarity's band, offset from its minimum. */
  function RollPower(x: Rarity, raw: nat): (power: int)
    ensures x.InBand(power)
  {
    raw % (x.MaxPower() - x.MinPower() + 1) + x.MinPower()
  }

  /** Rolls 1..10 give SSR, 11..40 give SR, 41..100 give R. */
  lemma RarityRanges(roll: int)
    requires 1 <= roll <= 100
    ensures RarityForRoll(roll) == SSR <==> roll <= 10
    ensures RarityForRoll(roll) == SR <==> 10 < roll <= 40
    ensures RarityForRoll(roll) == R <==> 40 < roll
  {
  }

  /** The rolls `lo..hi` as a set. */
  function RollRange(lo: int, hi: int): (s: set<int>)
    decreases hi - lo
    ensures forall roll :: roll in s <==> lo <= roll <= hi
  {
    if lo > hi then {} else RollRange(lo, hi - 1) + {hi}
  }

  lemma {:induction false} RollRangeSize(lo: int, hi: int)
    requires lo <= hi + 1
    decreases hi - lo
    ensures |RollRange(lo, hi)| == hi - lo + 1
  {
    if lo <= hi {
      assert hi !in RollRange(lo, hi - 1);
      RollRangeSize(lo, hi - 1);
    }
  }

  /** The rolls of 1..100 that give rarity `x`. */
  function RollsGiving(x: Rarity): set<int> {
    set roll | 1 <= roll <= 100 && RarityForRoll(roll) == x
  }

  /** Exactly `x.Probability()` of the 100 equally likely rolls give rarity `x`: the weights are the distribution. */
  lemma RollsPerRarity(x: Rarity)
    ensures |RollsGiving(x)| == x.Probability()
  {
    match x
    case SSR =>
      assert RollsGiving(x) == RollRange(1, 10);
      RollRangeSize(1, 10);
    case SR =>
      assert RollsGiving(x) == RollRange(11, 40);
      RollRangeSize(11, 40);
    case R =>
      assert RollsGiving(x) == RollRange(41, 100);
      RollRangeSize(41, 100);
  }

  /** Every power in the band is reached by some roll, so the power range is exactly the band. */
  lemma EveryPowerInBandIsRolled(x: Rarity, power: int)
    requires x.InBand(power)
    ensures RollPower(x, power - x.MinPower()) == power
  {
  }

  /** The attribute roll indexes FIRE, WATER, GRASS in that order, so every attribute is reachable. */
  lemma AttributeRollOrder()
    ensures RollAttribute(0) == Fire && RollAttribute(1) == Water && RollAttribute(2) == Grass
  {
  }

  /** A card from a template: the rolled attribute and rarity, the template's name, type and description. */
  function MakeCard(t: CardTemplate, a: Attribute, x: Rarity, power: int): Card {
    Card(t.name, a, x, t.cardType, t.description, power)
  }

  /** The template the player's draw picks for one card: from the exact pool, never broadened. */
  function PlayerTemplate(catalog: seq<CardTemplate>, rolls: CardRolls): (t: CardTemplate)
    requires CoversEveryPair(catalog)
    ensures t.attribute == RollAttribute(rolls.attributeRoll) && t.rarity == RollRarity(rolls.rarityRoll)
  {
    var pool := ExactPool(catalog, RollAttribute(rolls.attributeRoll), RollRarity(rolls.rarityRoll));
    assert Pick(pool, rolls.templateRoll) in pool;
    Pick(pool, rolls.templateRoll)
  }

  /** One card of the player's draw: the rolled attribute and rarity, and a power in that rarity's band. */
  function PlayerCard(catalog: seq<CardTemplate>, rolls: CardRolls): (c: Card)
    requires CoversEveryPair(catalog)
    ensures c.attribute == RollAttribute(rolls.attributeRoll) && c.rarity == RollRarity(rolls.rarityRoll)
    ensures c.rarity.InBand(c.basePower)
    ensures c.name == PlayerTemplate(catalog, rolls).name
    ensures c.cardType == PlayerTemplate(catalog, rolls).cardType
    ensures c.description == PlayerTemplate(catalog, rolls).description
  {
    var t := PlayerTemplate(catalog, rolls);
    var x := RollRarity(rolls.rarityRoll);
    MakeCard(t, RollAttribute(rolls.attributeRoll), x, RollPower(x, rolls.powerRoll))
  }

  /** The player's template is a catalog entry. */
  lemma PlayerTemplateInCatalog(catalog: seq<CardTemplate>, rolls: CardRolls)
    requires CoversEveryPair(catalog)
    ensures PlayerTemplate(catalog, rolls) in catalog
  {
    var pool := ExactPool(catalog, RollAttribute(rolls.attributeRoll), RollRarity(rolls.rarityRoll));
    assert PlayerTemplate(catalog, rolls) == Pick(pool, rolls.templateRoll);
    assert Pick(pool, rolls.templateRoll) in pool;
  }

  /** The template the opponent's draw picks for one card, from the broadened pool. */
  function OpponentTemplate(catalog: seq<CardTemplate>, rolls: CardRolls): (t: CardTemplate)
    requires |catalog| > 0
    ensures t in catalog
  {
    var pool := BroadenedPool(catalog, RollAttribute(rolls.attributeRoll), RollRarity(rolls.rarityRoll));
    assert Pick(pool, rolls.templateRoll) in pool;
    Pick(pool, rolls.templateRoll)
  }

  /**
   * One card of the opponent's draw: it keeps the rolled attribute and rarity and a power in band even when the
   * template came from a broadened pool.
   */
  function OpponentCard(catalog: seq<CardTemplate>, rolls: CardRolls): (c: Card)
    requires |catalog| > 0
    ensures c.attribute == RollAttribute(rolls.attributeRoll) && c.rarity == RollRarity(rolls.rarityRoll)
    ensures c.rarity.InBand(c.basePower)
    ensures c.name == OpponentTemplate(catalog, rolls).name
    ensures c.cardType == OpponentTemplate(catalog, rolls).cardType
    ensures c.description == OpponentTemplate(catalog, rolls).description
  {
    var t := OpponentTemplate(catalog, rolls);
    var x := RollRarity(rolls.rarityRoll);
    MakeCard(t, RollAttribute(rolls.attributeRoll), x, RollPower(x, rolls.powerRoll))
  }

  /**
   * The opponent's template is broadened only as far as needed: it matches the rolled pair whenever the catalog
   * has a template for it, and the rolled rarity whenever the catalog has a template of that rarity.
   */
  lemma OpponentTemplateBroadensInOrder(catalog: seq<CardTemplate>, rolls: CardRolls, u: CardTemplate)
    requires |catalog| > 0 && u in catalog
    ensures var t := OpponentTemplate(catalog, rolls);
      && (u.attribute == RollAttribute(rolls.attributeRoll) && u.rarity == RollRarity(rolls.rarityRoll) ==>
            t.attribute == u.attribute && t.rarity == u.rarity)
      && (u.rarity == RollRarity(rolls.rarityRoll) ==> t.rarity == u.rarity)
  {
  }

  /**
   * On a catalog that covers every pair the fallback never fires: both draw paths make the same card from the
   * same rolls, so the opponent's hands follow the same tables as the player's.
   */
  lemma OpponentCardMatchesPlayerCard(catalog: seq<CardTemplate>, rolls: CardRolls)
    requires CoversEveryPair(catalog)
    ensures OpponentCard(catalog, rolls) == PlayerCard(catalog, rolls)
  {
    assert |ExactPool(catalog, RollAttribute(rolls.attributeRoll), RollRarity(rolls.rarityRoll))| > 0;
  }

  /** The number of cards `for (int i = 0; i < count; i++)` produces. */
  function DrawnCount(count: int): nat {
    if count > 0 then count else 0
  }

  /**
   * The first `n` cards of a draw whose card maker is `make`: card `k` is made from the rolls of index `k`.
   */
  function Draws(make: CardRolls --> Card, rng: nat -> CardRolls, n: nat): (cards: seq<Card>)
    requires forall rolls :: make.requires(rolls)
    ensures |cards| == n
    ensures forall k :: 0 <= k < n ==> cards[k] == make(rng(k))
  {
    if n == 0 then [] else Draws(make, rng, n - 1) + [make(rng(n - 1))]
  }

  /**
   * `drawCards(player, count)`: charge `10 * count` in one check-and-deduct, then make one card per roll set.
   * `None` is the `null` returned on insufficient funds. A negative count passes the funds check with a
   * negative cost, which credits the player, and yields no cards.
   */
  method DrawForPlayer(player: Player, catalog: seq<CardTemplate>, count: int, rng: nat -> CardRolls)
    returns (cards: Option<seq<Card>>)
    requires player.Valid() && CoversEveryPair(catalog)
    modifies player
    ensures player.Valid()
    ensures cards.Some? <==> old(player.currency) >= CardDrawCost * count
    ensures player.currency == if cards.Some? then old(player.currency) - CardDrawCost * count else old(player.currency)
    ensures cards.Some? ==> |cards.value| == DrawnCount(count)
    ensures cards.Some? ==> forall i :: 0 <= i < |cards.value| ==> cards.value[i] == PlayerCard(catalog, rng(i))
    ensures player.level == old(player.level) && player.xp == old(player.xp)
    ensures player.username == old(player.username) && player.rating == old(player.rating)
    ensures player.deck == old(player.deck)
  {
    var totalCost := CardDrawCost * count;
    var paid := player.SpendCurrency(totalCost);
    if !paid {
      return None;
    }
    var drawn := MakePlayerCards(catalog, count, rng);
    return Some(drawn);
  }

  /** The card-making loop of `drawCards(player, count)`, run once the cost has been paid. */
  method MakePlayerCards(catalog: seq<CardTemplate>, count: int, rng: nat -> CardRolls) returns (cards: seq<Card>)
    requires CoversEveryPair(catalog)
    ensures |cards| == DrawnCount(count)
    ensures forall i :: 0 <= i < |cards| ==> cards[i] == PlayerCard(catalog, rng(i))
  {
    ghost var playerCard := (rolls: CardRolls) requires CoversEveryPair(catalog) => PlayerCard(catalog, rolls);
    cards := [];
    var i := 0;
    while i < count
      invariant 0 <= i <= DrawnCount(count)
      invariant cards == Draws(playerCard, rng, i)
    {
      var rarity := RollRarity(rng(i).rarityRoll);
      var attribute := RollAttribute(rng(i).attributeRoll);
      var pool := ExactPool(catalog, attribute, rarity);
      var template := Pick(pool, rng(i).templateRoll);
      var basePower := RollPower(rarity, rng(i).powerRoll);
      var card := Card(template.name, attribute, rarity, template.cardType, template.description, basePower);
      cards := cards + [card];
      i := i + 1;
    }
  }

  /**
   * An opponent card is the rolled attribute, rarity and power on the template picked from the exact pool, else
   * the rarity pool, else the catalog.
   */
  lemma OpponentCardFromPool(catalog: seq<CardTemplate>, rolls: CardRolls)
    requires |catalog| > 0
    ensures var x := RollRarity(rolls.rarityRoll);
      var a := RollAttribute(rolls.attributeRoll);
      var exact, sameRarity := ExactPool(catalog, a, x), RarityPool(catalog, x);
      var pool := if |exact| > 0 then exact else if |sameRarity| > 0 then sameRarity else catalog;
      var t := Pick(pool, rolls.templateRoll);
      OpponentCard(catalog, rolls) == Card(t.name, a, x, t.cardType, t.description, RollPower(x, rolls.powerRoll))
  {
  }

  /**
   * `drawCards(count)` for the computer: no currency, the same rolls, and a pool broadened when empty.
   * It returns early, with the cards made so far (none), only when the catalog is empty.
   */
  method DrawForOpponent(catalog: seq<CardTemplate>, count: int, rng: nat -> CardRolls) returns (cards: seq<Card>)
    ensures |catalog| == 0 ==> cards == []
    ensures |catalog| > 0 ==> |cards| == DrawnCount(count)
    ensures |catalog| > 0 ==> forall i :: 0 <= i < |cards| ==> cards[i] == OpponentCard(catalog, rng(i))
  {
    ghost var opponentCard := (rolls: CardRolls) requires |catalog| > 0 => OpponentCard(catalog, rolls);
    cards := [];
    var i := 0;
    while i < count
      invariant 0 <= i <= DrawnCount(count)
      invariant |cards| == i
      invariant |catalog| == 0 ==> i == 0
      invariant |catalog| > 0 ==> cards == Draws(opponentCard, rng, i)
    {
      var card := OpponentDraw(catalog, rng(i));
      if card.None? {
        return;
      }
      cards := cards + [card.value];
      i := i + 1;
    }
  }

  /**
   * One card of `drawCards(count)`: roll rarity and attribute, broaden an empty pool to the rarity and then to
   * the whole catalog, and give up (`None`) only when the catalog is empty.
   */
  method OpponentDraw(catalog: seq<CardTemplate>, rolls: CardRolls) returns (card: Option<Card>)
    ensures card.None? <==> |catalog| == 0
    ensures card.Some? ==> |catalog| > 0 && card.value == OpponentCard(catalog, rolls)
  {
    var rarity := RollRarity(rolls.rarityRoll);
    var attribute := RollAttribute(rolls.attributeRoll);
    var pool := ExactPool(catalog, attribute, rarity);
    if |pool| == 0 {
      pool := RarityPool(catalog, rarity);
      if |pool| == 0 {
        pool := catalog;
        if |pool| == 0 {
          return None;
        }
      }
    }
    var template := Pick(pool, rolls.templateRoll);
    var basePower := RollPower(rarity, rolls.powerRoll);
    card := Some(Card(template.name, attribute, rarity, template.cardType, template.description, basePower));
    OpponentCardFromPool(catalog, rolls);
  }
}
