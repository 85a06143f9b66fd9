/** The match controller (controller/GameController.java): hands, tallies and the rewards of each round. */
module Controller {
  import opened Wrappers
  import opened Cards
  import opened Battle
  import opened Progression
  import opened Gacha

  /** The experience and currency a round won by the player brings. */
  const WinXp: int := 10
  const WinCurrency: int := 5

  /** The experience and currency a drawn round brings; a lost round brings nothing. */
  const DrawXp: int := 2
  const DrawCurrency: int := 1

  /** The `IllegalArgumentException` of `playRound`. */
  datatype RoundError = InvalidCardIndex

  /** The player's progress after a round whose battle (player card first) ended in `outcome`. */
  function RoundReward(p: Progress, outcome: Outcome): Progress {
    match outcome
    case FirstWins => GainCurrency(GainXp(p, WinXp), WinCurrency)
    case SecondWins => p
    case Draw => GainCurrency(GainXp(p, DrawXp), DrawCurrency)
  }

  /** How many rounds of `outcomes` ended in `o`. */
  function Count(outcomes: seq<Outcome>, o: Outcome): nat {
    if outcomes == [] then 0
    else (if outcomes[0] == o then 1 else 0) + Count(outcomes[1..], o)
  }

  /** The player's progress after the rewards of a whole sequence of rounds, one at a time. */
  function MatchReward(p: Progress, outcomes: seq<Outcome>): Progress
    decreases |outcomes|
  {
    if outcomes == [] then p else MatchReward(RoundReward(p, outcomes[0]), outcomes[1..])
  }

  /** The experience a match grants: 10 per win and 2 per draw. */
  function MatchXp(outcomes: seq<Outcome>): int {
    WinXp * Count(outcomes, FirstWins) + DrawXp * Count(outcomes, Draw)
  }

  /** The currency a match grants outside level-ups: 5 per win and 1 per draw. */
  function MatchCurrency(outcomes: seq<Outcome>): int {
    WinCurrency * Count(outcomes, FirstWins) + DrawCurrency * Count(outcomes, Draw)
  }

  /**
   * For a player whose experience is below the threshold (as after every `addXp`), the round-by-round rewards
   * of a match add up to one grant of 10 experience per win and 2 per draw, followed by 5 currency per win and
   * 1 per draw; the level-up bonuses are those of that single grant.
   */
  lemma {:induction false} MatchRewardTotals(p: Progress, outcomes: seq<Outcome>)
    requires p.xp < Threshold(p.level)
    decreases |outcomes|
    ensures MatchReward(p, outcomes) == GainCurrency(GainXp(p, MatchXp(outcomes)), MatchCurrency(outcomes))
  {
    if outcomes == [] {
      assert GainXpRaw(p, 0) == p;
    } else {
      var o, rest := outcomes[0], outcomes[1..];
      var q := RoundReward(p, o);
      assert MatchReward(p, outcomes) == MatchReward(q, rest);
      MatchRewardTotals(q, rest);
      RoundRewardIsGrant(p, o);
      MatchTotalsSplit(outcomes);
      GrantsCompose(p, RoundXp(o), RoundCurrency(o), MatchXp(rest), MatchCurrency(rest));
    }
  }

  /** The experience one round grants. */
  function RoundXp(o: Outcome): nat {
    match o
    case FirstWins => WinXp
    case SecondWins => 0
    case Draw => DrawXp
  }

  /** The currency one round grants outside level-ups. */
  function RoundCurrency(o: Outcome): nat {
    match o
    case FirstWins => WinCurrency
    case SecondWins => 0
    case Draw => DrawCurrency
  }

  /** The match totals are the first round's grant plus the totals of the rest. */
  lemma MatchTotalsSplit(outcomes: seq<Outcome>)
    requires |outcomes| > 0
    ensures MatchXp(outcomes) == RoundXp(outcomes[0]) + MatchXp(outcomes[1..])
    ensures MatchCurrency(outcomes) == RoundCurrency(outcomes[0]) + MatchCurrency(outcomes[1..])
  {
  }

  /** For a settled player a loss is the empty grant, so every round is one grant of experience and currency. */
  lemma RoundRewardIsGrant(p: Progress, o: Outcome)
    requires p.xp < Threshold(p.level)
    ensures RoundReward(p, o) == GainCurrency(GainXp(p, RoundXp(o)), RoundCurrency(o))
  {
    if o == SecondWins {
      assert GainXpRaw(p, 0) == p;
    }
  }

  /** For a player of level at least 0, no round outcome lowers level or currency. */
  lemma RoundRewardNeverCosts(p: Progress, outcome: Outcome)
    requires p.level >= 0
    ensures RoundReward(p, outcome).level >= p.level
    ensures RoundReward(p, outcome).currency >= p.currency
  {
  }

  /**
   * A level-1 player with no banked experience and 900 currency who wins 7 rounds and draws 1 (in any order,
   * with any number of losses) gains 72 experience, not enough for a level-up, and 36 currency.
   */
  lemma SevenWinsOneDraw(outcomes: seq<Outcome>)
    requires Count(outcomes, FirstWins) == 7 && Count(outcomes, Draw) == 1
    ensures MatchReward(Progress(1, 0, 900), outcomes) == Progress(1, 72, 936)
  {
    var p := Progress(1, 0, 900);
    assert GainXp(p, 72) == Progress(1, 72, 900) by {
      assert GainXpRaw(p, 72) == Progress(1, 72, 900);
    }
    MatchRewardTotals(p, outcomes);
  }

  /**
   * `GameController`. The hands are equal in length at all times, so `playRound` always finds an opponent
   * card; `templates` is the draw engine's catalog.
   */
  class GameController {
    const templates: seq<CardTemplate>
    var playerDeck: seq<Card>
    var playerCards: seq<Card>
    var computerCards: seq<Card>
    var playerScore: int
    var computerScore: int
    var currentPlayer: Player?

    ghost predicate Valid()
      reads this, currentPlayer
    {
      && CoversEveryPair(templates)
      && |playerCards| == |computerCards|
      && (currentPlayer != null ==> currentPlayer.Valid())
    }

    /** The constructor: the deck and both hands start empty, the tallies at zero. */
    constructor (player: Player?)
      requires player != null ==> player.Valid()
      ensures Valid()
      ensures templates == Templates && currentPlayer == player
      ensures playerDeck == [] && playerCards == [] && computerCards == []
      ensures playerScore == 0 && computerScore == 0
    {
      TemplatesCoverEveryPair();
      templates := Templates;
      currentPlayer := player;
      playerDeck := [];
      playerCards := [];
      computerCards := [];
      playerScore := 0;
      computerScore := 0;
    }

    /** `startGame`: empty both hands and zero both tallies. */
    method StartGame()
      requires Valid()
      modifies this
      ensures Valid()
      ensures playerCards == [] && computerCards == [] && playerScore == 0 && computerScore == 0
      ensures playerDeck == old(playerDeck) && currentPlayer == old(currentPlayer)
    {
      playerCards := [];
      computerCards := [];
      playerScore := 0;
      computerScore := 0;
    }

    /** `drawCard`: buy one card; only a successful draw adds it to the deck. The hands are untouched. */
    method DrawCard(rng: nat -> CardRolls) returns (card: Option<Card>)
      requires Valid()
      modifies this, currentPlayer
      ensures Valid()
      ensures currentPlayer == old(currentPlayer)
      ensures card.Some? <==> currentPlayer != null && old(currentPlayer.currency) >= CardDrawCost
      ensures card.Some? ==> card.value == PlayerCard(templates, rng(0))
      ensures playerDeck == if card.Some? then old(playerDeck) + [card.value] else old(playerDeck)
      ensures currentPlayer != null ==>
        currentPlayer.currency == old(currentPlayer.currency) - (if card.Some? then CardDrawCost else 0)
      ensures currentPlayer != null ==>
        currentPlayer.level == old(currentPlayer.level) && currentPlayer.xp == old(currentPlayer.xp) &&
        currentPlayer.rating == old(currentPlayer.rating) && currentPlayer.deck == old(currentPlayer.deck) &&
        currentPlayer.username == old(currentPlayer.username)
      ensures playerCards == old(playerCards) && computerCards == old(computerCards)
      ensures playerScore == old(playerScore) && computerScore == old(computerScore)
    {
      if currentPlayer == null {
        return None;
      }
      var drawnCards := DrawForPlayer(currentPlayer, templates, 1, rng);
      if drawnCards.Some? && |drawnCards.value| > 0 {
        var c := drawnCards.value[0];
        playerDeck := playerDeck + [c];
        return Some(c);
      }
      return None;
    }

    /**
     * `drawMultiple`: buy `count` cards, add them to the deck, make them the hand, draw an opponent hand of the
     * same size and reset the tallies. Without a player or without the funds nothing changes.
     */
    method DrawMultiple(count: int, playerRng: nat -> CardRolls, computerRng: nat -> CardRolls)
      returns (cards: Option<seq<Card>>)
      requires Valid()
      modifies this, currentPlayer
      ensures Valid()
      ensures currentPlayer == old(currentPlayer)
      ensures cards.Some? <==> currentPlayer != null && old(currentPlayer.currency) >= CardDrawCost * count
      ensures cards.None? ==>
        && playerDeck == old(playerDeck) && playerCards == old(playerCards) && computerCards == old(computerCards)
        && playerScore == old(playerScore) && computerScore == old(computerScore)
        && (currentPlayer != null ==> currentPlayer.currency == old(currentPlayer.currency))
      ensures cards.Some? ==>
        && |cards.value| == DrawnCount(count)
        && (forall i :: 0 <= i < |cards.value| ==> cards.value[i] == PlayerCard(templates, playerRng(i)))
        && playerDeck == old(playerDeck) + cards.value
        && playerCards == cards.value
        && |computerCards| == |cards.value|
        && (forall i :: 0 <= i < |computerCards| ==> computerCards[i] == OpponentCard(templates, computerRng(i)))
        && playerScore == 0 && computerScore == 0
        && currentPlayer.currency == old(currentPlayer.currency) - CardDrawCost * count
      ensures currentPlayer != null ==>
        currentPlayer.level == old(currentPlayer.level) && currentPlayer.xp == old(currentPlayer.xp) &&
        currentPlayer.rating == old(currentPlayer.rating) && currentPlayer.deck == old(currentPlayer.deck) &&
        currentPlayer.username == old(currentPlayer.username)
    {
      if currentPlayer == null {
        return None;
      }
      cards := DrawForPlayer(currentPlayer, templates, count, playerRng);
      if cards.Some? {
        playerDeck := playerDeck + cards.value;
        playerCards := cards.value;
        computerCards := DrawForOpponent(templates, count, computerRng);
        playerScore := 0;
        computerScore := 0;
        return cards;
      }
      return None;
    }

    /** `setBattleCards`: the selection becomes the hand, with an opponent hand of the same size; tallies reset. */
    method SetBattleCards(selectedCards: seq<Card>, rng: nat -> CardRolls)
      requires Valid()
      modifies this
      ensures Valid()
      ensures playerCards == selectedCards && |computerCards| == |selectedCards|
      ensures forall i :: 0 <= i < |computerCards| ==> computerCards[i] == OpponentCard(templates, rng(i))
      ensures playerScore == 0 && computerScore == 0
      ensures playerDeck == old(playerDeck) && currentPlayer == old(currentPlayer)
    {
      playerCards := selectedCards;
      computerCards := DrawForOpponent(templates, |selectedCards|, rng);
      playerScore := 0;
      computerScore := 0;
    }

    /**
     * `playRound`: take the chosen player card and the opponent's first card out of the hands, fight them
     * (player card first), score the round and reward the player. An index outside the hand is rejected and
     * nothing changes.
     */
    method PlayRound(playerCardIndex: int) returns (r: Result<BattleResult, RoundError>)
      requires Valid()
      modifies this, currentPlayer
      ensures Valid()
      ensures currentPlayer == old(currentPlayer) && playerDeck == old(playerDeck)
      ensures r.Failure? <==> !(0 <= playerCardIndex < old(|playerCards|))
      ensures r.Failure? ==>
        && playerCards == old(playerCards) && computerCards == old(computerCards)
        && playerScore == old(playerScore) && computerScore == old(computerScore)
        && (currentPlayer != null ==> currentPlayer.Stats() == old(currentPlayer.Stats()))
      ensures r.Success? ==>
        var i := playerCardIndex;
        && r.value == Fight(old(playerCards)[i], old(computerCards)[0])
        && playerCards == old(playerCards)[..i] + old(playerCards)[i + 1..]
        && computerCards == old(computerCards)[1..]
        && playerScore == old(playerScore) + (if r.value.outcome == FirstWins then 1 else 0)
        && computerScore == old(computerScore) + (if r.value.outcome == SecondWins then 1 else 0)
        && (currentPlayer != null ==> currentPlayer.Stats() == RoundReward(old(currentPlayer.Stats()), r.value.outcome))
      ensures currentPlayer != null ==>
        currentPlayer.username == old(currentPlayer.username) && currentPlayer.rating == old(currentPlayer.rating) &&
        currentPlayer.deck == old(currentPlayer.deck)
    {
      if playerCardIndex < 0 || playerCardIndex >= |playerCards| {
        return Failure(InvalidCardIndex);
      }
      var playerCard := playerCards[playerCardIndex];
      playerCards := playerCards[..playerCardIndex] + playerCards[playerCardIndex + 1..];
      var computerCard := computerCards[0];
      computerCards := computerCards[1..];
      var result := Fight(playerCard, computerCard);
      match result.outcome {
        case FirstWins =>
          playerScore := playerScore + 1;
          AddXP(WinXp);
          AddCurrency(WinCurrency);
        case SecondWins =>
          computerScore := computerScore + 1;
        case Draw =>
          AddXP(DrawXp);
          AddCurrency(DrawCurrency);
      }
      return Success(result);
    }

    /** `addXP`: pass experience to the current player, if there is one. */
    method AddXP(amount: int)
      requires currentPlayer != null ==> currentPlayer.Valid()
      modifies currentPlayer
      ensures currentPlayer != null ==> currentPlayer.Valid()
      ensures currentPlayer != null ==> currentPlayer.Stats() == GainXp(old(currentPlayer.Stats()), amount)
      ensures currentPlayer != null ==>
        currentPlayer.username == old(currentPlayer.username) && currentPlayer.rating == old(currentPlayer.rating) &&
        currentPlayer.deck == old(currentPlayer.deck)
    {
      if currentPlayer != null {
        currentPlayer.AddXp(amount);
      }
    }

    /** `addCurrency`: pass currency to the current player, if there is one. */
    method AddCurrency(amount: int)
      requires currentPlayer != null ==> currentPlayer.Valid()
      modifies currentPlayer
      ensures currentPlayer != null ==> currentPlayer.Valid()
      ensures currentPlayer != null ==> currentPlayer.Stats() == GainCurrency(old(currentPlayer.Stats()), amount)
      ensures currentPlayer != null ==>
        currentPlayer.username == old(currentPlayer.username) && currentPlayer.rating == old(currentPlayer.rating) &&
        currentPlayer.deck == old(currentPlayer.deck)
    {
      if currentPlayer != null {
        currentPlayer.AddCurrency(amount);
      }
    }

    /** `addRating`: pass a rating change to the current player, if there is one. */
    method AddRating(amount: int)
      requires currentPlayer != null ==> currentPlayer.Valid()
      modifies currentPlayer
      ensures currentPlayer != null ==> currentPlayer.Valid()
      ensures currentPlayer != null ==> currentPlayer.rating == old(currentPlayer.rating) + amount
      ensures currentPlayer != null ==>
        currentPlayer.Stats() == old(currentPlayer.Stats()) && currentPlayer.username == old(currentPlayer.username) &&
        currentPlayer.deck == old(currentPlayer.deck)
    {
      if currentPlayer != null {
        currentPlayer.AddRating(amount);
      }
    }

    /** `determineWinner`: compare the tallies. */
    function DetermineWinner(): (winner: string)
      reads this
      ensures winner == "Player" <==> playerScore > computerScore
      ensures winner == "Computer" <==> computerScore > playerScore
      ensures winner == "Draw" <==> playerScore == computerScore
    {
      if playerScore > computerScore then "Player"
      else if computerScore > playerScore then "Computer"
      else "Draw"
    }

    /** `calculateRatingDelta`: the tally difference, whose sign names the match winner. */
    function CalculateRatingDelta(): (delta: int)
      reads this
      ensures delta > 0 <==> DetermineWinner() == "Player"
      ensures delta < 0 <==> DetermineWinner() == "Computer"
      ensures delta == 0 <==> DetermineWinner() == "Draw"
      ensures playerScore == computerScore + delta
    {
      playerScore - computerScore
    }

    /** `applyRatingChange`: add the tally difference to the current player's rating, if there is one. */
    method ApplyRatingChange()
      requires currentPlayer != null ==> currentPlayer.Valid()
      modifies currentPlayer
      ensures currentPlayer != null ==> currentPlayer.Valid()
      ensures currentPlayer != null ==> currentPlayer.rating == old(currentPlayer.rating) + CalculateRatingDelta()
      ensures currentPlayer != null ==>
        currentPlayer.Stats() == old(currentPlayer.Stats()) && currentPlayer.username == old(currentPlayer.username) &&
        currentPlayer.deck == old(currentPlayer.deck)
    {
      if currentPlayer != null {
        var delta := CalculateRatingDelta();
        currentPlayer.AddRating(delta);
      }
    }

    /** `setCurrentPlayer`: switch the player whose stats the rounds update; hands, deck and tallies stay. */
    method SetCurrentPlayer(player: Player?)
      requires Valid()
      requires player != null ==> player.Valid()
      modifies this
      ensures Valid()
      ensures currentPlayer == player
      ensures playerDeck == old(playerDeck) && playerCards == old(playerCards) && computerCards == old(computerCards)
      ensures playerScore == old(playerScore) && computerScore == old(computerScore)
    {
      currentPlayer := player;
    }
  }
}
