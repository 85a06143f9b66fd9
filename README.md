# Card battle game: a Dafny model of its core

The game is a Java desktop card game. A player buys cards from a gacha, a random draw engine: each card costs 10
currency, gets a rarity by weight (SSR 10, SR 30, R 60), gets an attribute (FIRE, WATER or GRASS) and a template
from a fixed catalog of 30, and gets a base power in its rarity's band. The player then battles a computer hand
drawn the same way, round by round. A card whose attribute beats the other's gets +4 power. Higher final power
wins, and equal power is a draw. A round won pays 10 XP and 5 currency, a draw pays 2 XP and 1 currency, and a
loss pays nothing. XP is banked against a threshold of 100 × level. Each level-up carries the surplus XP over,
advances the level and pays 50 × the new level in currency. After a match the player's rating moves by
wins − losses.

The model has one module per source concern:

| module | file | models |
|---|---|---|
| `Wrappers` | `wrappers.dfy` | `Option` and `Result`, standing for `null` and for thrown exceptions |
| `Attributes` | `attribute.dfy` | `model/Attribute.java`: the FIRE → GRASS → WATER → FIRE advantage cycle |
| `Rarities` | `rarity.dfy` | `model/Rarity.java`: draw weights and power bands |
| `Cards` | `card.dfy` | `model/Card.java`, `model/CardTemplate.java`, `model/CardType.java` |
| `Battle` | `battle.dfy` | `service/BattleService.java`: `fight` and its result |
| `Progression` | `player.dfy` | `model/Player.java`: a `Player` class, plus the pure `Progress` functions its contracts are stated in |
| `Gacha` | `gacha.dfy` | `service/GachaService.java`: the catalog, the rolls and both draw paths |
| `Controller` | `controller.dfy` | `controller/GameController.java`: the match state machine and the reward totals |

`Player` and `GameController` update their fields in place in the source, so they are Dafny classes.
Each class has a `Valid()` invariant, and its methods carry `modifies` clauses.
`Player.AddXp` keeps the source's `while` loop. Its postcondition ties the new state to the pure function
`GainXp`, and the lemmas about `GainXp` (additivity, the closed form after n level-ups) therefore describe
the class too. Both draw loops are methods with loop invariants. They are proved against per-card
functions (`PlayerCard`, `OpponentCard`) and a sequence of such cards (`Draws`).

Randomness is a parameter. A draw takes `rng: nat -> CardRolls`, and the i-th card uses the four raw rolls
`rng(i)`. A raw roll `r` stands for `nextInt(n)` through `r % n`, which reaches every value of `[0, n)`.
The controller takes one roll stream for the player's draw and another for the computer's.

### Behaviour that differs from what one might expect (the model follows the code)

- One might expect 250 XP from level 1 to reach level 3. In the code the first level-up at 100
  leaves 150 XP against a threshold of 200, so the player ends at level 2 with 150 XP and +100 currency
  (`Progression.TwoHundredFiftyXpFromLevelOne`).
- One might expect a draw to add the cards to the player's own collection. `drawCards(player, count)`
  does not touch `Player.deck`; only the controller's own `playerDeck` grows (`Gacha.DrawForPlayer`,
  `Controller.GameController.DrawCard`).

## Model

| member | source | states |
|---|---|---|
| `Attributes.Attribute.IsStrongAgainst` | src/model/Attribute.java:15-19 | the three-way disjunction as written; it has no contract of its own, and its properties are the rows below |
| `Attributes.NeverStrongAgainstItself` | src/model/Attribute.java:15-19 | no attribute is strong against itself |
| `Attributes.NeverMutuallyStrong` | src/model/Attribute.java:15-19 | two attributes are never strong against each other |
| `Attributes.Trichotomy` | src/model/Attribute.java:5-19 | for any two attributes exactly one holds: equal, first strong, second strong |
| `Attributes.StrongAgainstIsPrey` | src/model/Attribute.java:15-19 | `a` is strong against `b` if and only if `b` is the prey of `a` in the documented cycle |
| `Attributes.PreyIsThreeCycle` | src/model/Attribute.java:5 | following the prey three times returns to the start, and never sooner |
| `Attributes.ValuesEnumerateAttributes` | src/model/Attribute.java:8 | `values()` lists FIRE, WATER, GRASS once each, in declaration order |
| `Rarities.WeightsSumTo100` | src/model/Rarity.java:8-10 | the draw weights 10, 30, 60 sum to 100 |
| `Rarities.BandIsNonEmpty` | src/model/Rarity.java:8-10 | every band has min ≤ max |
| `Rarities.BandsAreOrdered` | src/model/Rarity.java:8-10 | every SSR power exceeds every SR power, which exceeds every R power |
| `Rarities.BandsAreDisjoint` | src/model/Rarity.java:8-10 | a power lies in at most one band, so a drawn power determines its rarity |
| `Rarities.TableValues` | src/model/Rarity.java:8-38 | the getters return the enum's constants |
| `Cards.NewCard` | src/model/Card.java:23-25 | the four-argument constructor keeps its arguments, with type BEAST and an empty description |
| `Cards.CardDoesNotEnforceBand` | src/model/Card.java:36-43 | a card can carry a power outside its rarity's band: only the draw engine keeps powers in band |
| `Battle.Fight` | src/service/BattleService.java:58-76 | each final power is base or base + 4; the bonus goes to a card if and only if its attribute is strong against the other; the outcome follows the final powers; winner and loser are the two cards, or both absent in a draw; the winner's final power is strictly higher |
| `Battle.FightIsSymmetric` | src/service/BattleService.java:58-76 | swapping the cards swaps the outcome; a decisive fight keeps its winner, loser and their final powers, and a draw swaps its two reported powers |
| `Battle.SameAttributeComparesBasePower` | src/service/BattleService.java:63-66 | with equal attributes no bonus applies and base powers decide |
| `Battle.AdvantageDecides` | src/service/BattleService.java:63-71 | an advantaged card beats any card with at most 3 more base power |
| `Progression.Threshold` | src/model/Player.java:109-111 | `calculateXpToNextLevel`, 100 × level; no contract of its own; `Player.Valid()` ties `xpToNextLevel` to it and `LevelUpStep`, `Cascade` and `CascadeClosedForm` state the level-ups it prices |
| `Progression.LevelUpStep` | src/model/Player.java:81-88 | one level-up subtracts the old threshold, advances the level and pays 50 × the new level |
| `Progression.Cascade` | src/model/Player.java:76-78 | the level-up loop ends below the threshold, never lowers the level, never lowers currency from level ≥ 0, changes nothing when already below, and leaves XP non-negative from level ≥ 1 |
| `Progression.GainXp` | src/model/Player.java:73-79 | `addXp` on a value: the result lies below its level's threshold, the level never falls, currency never falls from level ≥ 0, and XP stays non-negative from level ≥ 1 with a non-negative amount; `GainXpIsAdditive`, `GainXpAfterCurrency` and `GrantsCompose` relate several calls |
| `Progression.CascadeAbsorbsLaterXp` | src/model/Player.java:73-88 | XP added after the level-ups gives the same final state as XP added before them |
| `Progression.GainXpIsAdditive` | src/model/Player.java:73-88 | `addXp(a); addXp(b)` ends in the same state as `addXp(a + b)` |
| `Progression.CascadeClosedForm` | src/model/Player.java:76-88 | from level ≥ 1, reaching level L spends 50·L·(L−1) − 50·l·(l−1) XP and pays 25·L·(L+1) − 25·l·(l+1) currency |
| `Progression.TwoHundredFiftyXpFromLevelOne` | src/model/Player.java:73-88 | 250 XP at level 1 with no banked XP gives level 2, 150 XP and +100 currency |
| `Progression.CascadeKeepsExtraCurrency` | src/model/Player.java:81-92 | currency granted before the level-ups is still there after them |
| `Progression.GainXpAfterCurrency` | src/model/Player.java:73-92 | `addCurrency(c)` then `addXp(n)` ends like `addXp(n)` then `addCurrency(c)` |
| `Progression.GrantsCompose` | src/model/Player.java:73-92 | two grants of XP and currency in a row equal one grant of the sums |
| `Progression.Player.constructor` | src/model/Player.java:20-28 | stores the arguments, starts an empty deck and sets the threshold to 100 × level |
| `Progression.Player.WithDefaultRating` | src/model/Player.java:15-17 | the same, with rating 1000 |
| `Progression.Player.AddRating` | src/model/Player.java:39-41 | rating grows by `delta`; nothing else changes |
| `Progression.Player.SetRating` | src/model/Player.java:43-45 | rating becomes the argument; nothing else changes |
| `Progression.Player.AddXp` | src/model/Player.java:73-79 | the new level, XP and currency are `GainXp` of the old ones; at level ≥ 1, 0 ≤ xp < xpToNextLevel afterwards |
| `Progression.Player.LevelUp` | src/model/Player.java:81-88 | the state becomes `LevelUpStep` of the old state, and the threshold follows the new level |
| `Progression.Player.AddCurrency` | src/model/Player.java:90-92 | currency grows by `amount`; nothing else changes |
| `Progression.Player.SpendCurrency` | src/model/Player.java:94-100 | returns true if and only if currency ≥ amount; on true it deducts, on false it changes nothing |
| `Progression.Player.AddCardToDeck` | src/model/Player.java:102-106 | a card is appended to the deck; `null` leaves the deck unchanged |
| `Gacha.TemplatesCount` | src/service/GachaService.java:25-57 | the catalog holds 30 templates |
| `Gacha.Filter` | src/service/GachaService.java:78-80 | the stream filter keeps exactly the accepted catalog entries and never grows |
| `Gacha.CoversEveryPair` | src/service/GachaService.java:78-81 | a catalog with a template for every pair is non-empty |
| `Gacha.ExactPoolHolds` | src/service/GachaService.java:78-80 | a catalog entry is in the pool of its own attribute and rarity |
| `Gacha.TemplatesCoverPair` | src/service/GachaService.java:25-57 | the catalog has a template for each attribute and rarity pair |
| `Gacha.TemplatesCoverEveryPair` | src/service/GachaService.java:25-81 | so the player's pool is never empty and `nextInt(pool.size())` never throws |
| `Gacha.BroadenedPool` | src/service/GachaService.java:104-119 | the opponent's pool is drawn from the catalog; it is empty only when the catalog is; it holds only exact matches when any exist, only the rolled rarity when any template has it, and is the whole catalog otherwise |
| `Gacha.RarityForRoll` | src/service/GachaService.java:135-141 | the cumulative-weight comparison as written; no contract of its own; `RarityRanges` and `RollsPerRarity` state its ranges |
| `Gacha.RollRarity` | src/service/GachaService.java:133-142 | a raw `nextInt(100)` result r gives SSR if and only if r < 10, SR if and only if 10 ≤ r < 40, and R if and only if r ≥ 40 |
| `Gacha.RollAttribute` | src/service/GachaService.java:144-147 | a raw roll r gives FIRE, WATER or GRASS if and only if r mod 3 is 0, 1 or 2 |
| `Gacha.RarityRanges` | src/service/GachaService.java:133-142 | the roll 1..100 gives SSR for 1..10, SR for 11..40 and R for 41..100 |
| `Gacha.RollsPerRarity` | src/service/GachaService.java:133-142 | exactly `x.Probability()` of the 100 rolls give rarity `x` |
| `Gacha.RollPower` | src/service/GachaService.java:149-151 | every rolled power lies in the rarity's band |
| `Gacha.EveryPowerInBandIsRolled` | src/service/GachaService.java:149-151 | every power of the band is reached by some roll |
| `Gacha.AttributeRollOrder` | src/service/GachaService.java:144-147 | rolls 0, 1, 2 give FIRE, WATER, GRASS |
| `Gacha.PlayerTemplate` | src/service/GachaService.java:76-81 | the player's template matches the rolled attribute and rarity |
| `Gacha.PlayerCard` | src/service/GachaService.java:76-83 | a player card has the rolled attribute and rarity, a power in band, and its template's name, type and description |
| `Gacha.PlayerTemplateInCatalog` | src/service/GachaService.java:78-81 | the player's template is a catalog entry |
| `Gacha.OpponentTemplate` | src/service/GachaService.java:102-121 | the opponent's template is a catalog entry |
| `Gacha.OpponentCard` | src/service/GachaService.java:102-124 | an opponent card keeps the rolled attribute and rarity and a power in band even when the pool was broadened |
| `Gacha.OpponentTemplateBroadensInOrder` | src/service/GachaService.java:104-119 | the opponent's template matches the rolled pair whenever the catalog has one, and the rolled rarity whenever the catalog has one |
| `Gacha.OpponentCardMatchesPlayerCard` | src/service/GachaService.java:67-131 | on a catalog covering every pair both draw paths make the same card from the same rolls |
| `Gacha.OpponentCardFromPool` | src/service/GachaService.java:104-124 | an opponent card is built from the exact pool, else the rarity pool, else the whole catalog |
| `Gacha.Draws` | src/service/GachaService.java:74-90 | card k of a draw is made from the rolls of index k |
| `Gacha.DrawForPlayer` | src/service/GachaService.java:67-91 | succeeds if and only if currency ≥ 10 × count, and only then deducts it; yields max(count, 0) cards, card i being `PlayerCard` of rolls i; level, XP, rating and deck unchanged |
| `Gacha.MakePlayerCards` | src/service/GachaService.java:74-90 | the loop makes max(count, 0) cards, card i being `PlayerCard` of rolls i |
| `Gacha.DrawForOpponent` | src/service/GachaService.java:99-131 | on an empty catalog returns no cards; otherwise max(count, 0) cards, card i being `OpponentCard` of rolls i |
| `Gacha.OpponentDraw` | src/service/GachaService.java:102-125 | one iteration of the opponent's loop gives up if and only if the catalog is empty, and otherwise makes `OpponentCard` |
| `Controller.RoundReward` | src/controller/GameController.java:119-129 | the scoring block's rewards for one round; no contract of its own; `RoundRewardIsGrant`, `RoundRewardNeverCosts` and `MatchRewardTotals` state what it pays |
| `Controller.MatchRewardTotals` | src/controller/GameController.java:119-129 | for a player below the threshold, the round-by-round rewards of a match equal one grant of 10 XP per win and 2 per draw, then 5 currency per win and 1 per draw |
| `Controller.MatchTotalsSplit` | src/controller/GameController.java:119-129 | the match totals are the first round's grant plus the totals of the rest |
| `Controller.RoundRewardIsGrant` | src/controller/GameController.java:119-129 | for a player below the threshold, a loss is the empty grant, so every round is one grant |
| `Controller.RoundRewardNeverCosts` | src/controller/GameController.java:119-129 | from level ≥ 0 no round lowers level or currency |
| `Controller.SevenWinsOneDraw` | src/controller/GameController.java:119-129 | 7 wins and 1 draw in any order take a fresh level-1 player with 900 currency to 72 XP, no level-up, and 936 currency |
| `Controller.GameController.constructor` | src/controller/GameController.java:29-33 | the player is stored; the deck and hands start empty and the tallies at zero |
| `Controller.GameController.StartGame` | src/controller/GameController.java:38-43 | both hands empty and both tallies zero; the deck and player are kept |
| `Controller.GameController.DrawCard` | src/controller/GameController.java:49-61 | a card comes back if and only if there is a player who can pay 10; only then is it the player's card of rolls 0, appended to the deck, with 10 deducted; the hands, tallies and the player's username, level, XP, rating and deck are untouched |
| `Controller.GameController.DrawMultiple` | src/controller/GameController.java:68-86 | succeeds if and only if there is a player who can pay; then the cards join the deck and become the hand, the computer draws a hand of the same size, and the tallies reset; otherwise nothing changes; the player's username, level, XP, rating and deck are untouched either way |
| `Controller.GameController.SetBattleCards` | src/controller/GameController.java:99-104 | the selection becomes the hand, the opponent hand has the same size, opponent card i is `OpponentCard` of rolls i, and the tallies reset |
| `Controller.GameController.PlayRound` | src/controller/GameController.java:111-132 | an index outside the hand fails and changes nothing; otherwise the chosen and the first opponent card leave the hands, the result is their `Fight`, the winner's tally grows, and the player is paid `RoundReward` |
| `Controller.GameController.AddXP` | src/controller/GameController.java:137-141 | the current player, if any, gains XP as `GainXp` |
| `Controller.GameController.AddCurrency` | src/controller/GameController.java:146-150 | the current player, if any, gains the currency |
| `Controller.GameController.AddRating` | src/controller/GameController.java:192-196 | the current player's rating, if any, grows by the amount |
| `Controller.GameController.SetCurrentPlayer` | src/controller/GameController.java:223-225 | the current player becomes the argument, which must itself be valid; deck, hands and tallies are kept |
| `Controller.GameController.DetermineWinner` | src/controller/GameController.java:156-164 | "Player" if and only if the player's tally is higher, "Computer" if and only if the computer's is, "Draw" if and only if they are equal |
| `Controller.GameController.CalculateRatingDelta` | src/controller/GameController.java:202-204 | the delta is positive, negative or zero exactly when the winner is Player, Computer or Draw, and it is the tally difference |
| `Controller.GameController.ApplyRatingChange` | src/controller/GameController.java:209-214 | the current player's rating, if any, grows by the tally difference |

## Left out

- Console and error output (`System.out`, `System.err`) is not modelled. It has no effect on state.
- `Random` is replaced by the injected rolls. The model states which rolls give which result, and
  `RollsPerRarity` counts the rarity rolls. It does not model the sampling distribution itself.
- Java's 32-bit `int` overflow is not modelled. Levels, XP, currency, rating and `10 * count` are unbounded integers.
- The GUI, the console front end and the database service are not part of this model: `view/GameGUI.java`,
  `view/ConsoleUI.java` and `database/GameRecordService.java`. The same goes for
  `GameController.loadPlayerDeck`, which only copies a deck loaded from the database.
- `Controller.GameController.SetCurrentPlayer`: `Valid()` of the controller includes the player's `Valid()`, so the new player
  must satisfy it; every `Player` the constructors build does.
- Getters, `Player.setDeck` and `Card.toString` / `BattleResult.toString` are not modelled. They are plain
  field access or formatting, and the model reads the fields directly.
- Java lists are shared by reference. `getDeck` and `getPlayerCards` hand out the live list. The model's
  fields are values, so outside code changing a returned list is not captured.
- In Java the hands are `null` until `startGame`, `drawMultiple` or `setBattleCards`. The model starts them empty, so a `playRound`
  before then (a `NullPointerException` in Java) is the model's `InvalidCardIndex` failure. The thrown
  `IllegalArgumentException` for a bad index is the `Failure` result.
- `Controller.GameController.PlayRound`: the source finds the winner by object identity (`winner == playerCard`).
  The model uses the result's outcome tag. The two agree because the two cards are always distinct objects.
- `Gacha.DrawForPlayer`: the draw engine reads a static catalog. The model takes the catalog as a parameter and
  requires it to cover every attribute and rarity pair. `TemplatesCoverEveryPair` proves this for the real
  catalog, so the `nextInt(0)` exception the source would throw on an empty pool is unreachable and not modelled.
- `Progression.Player.AddXp`: the bound 0 ≤ xp < xpToNextLevel is stated only from level ≥ 1 with non-negative XP.
  With a negative amount or level the exact state is still given by `GainXp`.
- `Gacha.OpponentDraw`: the source writes one card's draw inline in the loop of `drawCards(count)`. The model moves
  it into a helper method with the same steps. The `return cards` on an empty catalog becomes `None`, and the loop stops on it.
- `Gacha.DrawForPlayer`, `Gacha.DrawForOpponent`: a negative `count` is modelled as written. The cost `10 * count` is then
  negative, so the funds check passes whenever the currency covers that negative cost; the player is then credited, and no card is drawn.
- Both draw paths use one `java.util.Random` in the source. The model gives the player's and the computer's draws
  separate roll streams, so which exact values the shared generator hands each draw is not captured.
