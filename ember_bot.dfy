/**
 EmberBot: an aggressive scripted poker policy. It raises with strong hole
 cards before the flop and with made hands after it, folds nearly every
 other hand, and keeps a little per-object state (hands played, a raise
 frequency that drifts with wins and losses, a play frequency tuned by
 table size).

 Randomness and the engine's hand evaluator are inputs here: every
 random.random() and random.randint(3, 4) the policy may call has its own
 field in `Draws`, and the evaluator's verdict arrives as a category rank.
 */
module Ember {
  import opened Poker

  /** One value per random call site of the policy. Each field is read only
      if control reaches its call site. */
  datatype Draws = Draws(
    early: real,      // players/Ember_bot.py:57, the 95% immediate-raise draw
    play: real,       // :66, compared with play_frequency
    aggression: real, // :67, compared with raise_frequency
    multiple: int,    // :69, random.randint(3, 4)
    strong: real,     // :84, the 90% draw for flush-or-better
    medium: real,     // :96, the 50% draw for pair-or-better
    bluff: real)      // :111, the 0.5% bluff draw

  /** What the random module guarantees of the draws. */
  predicate ValidDraws(d: Draws)
  {
    && 0.0 <= d.early < 1.0
    && 0.0 <= d.play < 1.0
    && 0.0 <= d.aggression < 1.0
    && 3 <= d.multiple <= 4
    && 0.0 <= d.strong < 1.0
    && 0.0 <= d.medium < 1.0
    && 0.0 <= d.bluff < 1.0
  }

  /** Every raise the policy makes stays inside the engine's bet bounds,
      and when those bounds are inverted it is the minimum bet. */
  predicate WithinBetBounds(amount: int, minBet: int, maxBet: int)
  {
    && (minBet <= maxBet ==> minBet <= amount <= maxBet)
    && (minBet > maxBet ==> amount == minBet)
  }

  /** max(min_bet, min(max_bet, x)), the clamp every raise site applies. */
  function Clamp(minBet: int, maxBet: int, x: int): (r: int)
    ensures WithinBetBounds(r, minBet, maxBet)
    ensures minBet <= x <= maxBet ==> r == x
  {
    Max(minBet, Min(maxBet, x))
  }

  /** max_bet - int(max_bet / 20): the "all but a twentieth" raise target. */
  function BetCap(maxBet: int): (r: int)
    ensures maxBet >= 0 ==> 0 <= r <= maxBet && 19 * maxBet <= 20 * r
    ensures maxBet < 0 ==> maxBet <= r <= 0
  {
    maxBet - TruncDiv(maxBet, 20)
  }

  /** The postflop raise size: the target when it is below the cap, the cap
      otherwise, then clamped into the bet bounds. */
  function RaiseAmount(target: int, minBet: int, maxBet: int): (r: int)
    ensures WithinBetBounds(r, minBet, maxBet)
    ensures 0 <= minBet <= target < BetCap(maxBet) ==> r == target
    ensures 0 <= maxBet && minBet <= BetCap(maxBet) <= target ==> r == BetCap(maxBet)
  {
    Clamp(minBet, maxBet, if target < BetCap(maxBet) then target else BetCap(maxBet))
  }

  // ---------------------------------------------------------------------
  // Preflop classification
  // ---------------------------------------------------------------------

  /** The gap between the two hole ranks, abs(card1 - card2). */
  function Gap(c1: Card, c2: Card): (g: nat)
    ensures g == c1.rank - c2.rank || g == c2.rank - c1.rank
  {
    if c1.rank >= c2.rank then c1.rank - c2.rank else c2.rank - c1.rank
  }

  /** hole_average >= v, stated on the sum of the ranks; it agrees with the
      comparison of the true quotient (r1 + r2) / 2 that Python computes. */
  function AverageAtLeast(c1: Card, c2: Card, v: int): (r: bool)
    ensures r <==> (c1.rank + c2.rank) as real / 2.0 >= v as real
  {
    c1.rank + c2.rank >= 2 * v
  }

  /** The hands lines 51-55 mark as good: average at least 10 and either
      suited, adjacent and averaging at least 11, or a pocket pair. */
  function IsPremium(c1: Card, c2: Card): (r: bool)
    ensures r ==> c1.rank + c2.rank >= 20
    ensures r && c1.rank != c2.rank ==>
              c1.suit == c2.suit && Gap(c1, c2) == 1 && c1.rank + c2.rank >= 23
    ensures c1.rank == c2.rank >= 10 ==> r
    ensures c1.suit == c2.suit && Gap(c1, c2) <= 1 && c1.rank + c2.rank >= 22 ==> r
  {
    && AverageAtLeast(c1, c2, 10)
    && ((c1.suit == c2.suit && AverageAtLeast(c1, c2, 11) && Gap(c1, c2) <= 1)
        || c1.rank == c2.rank)
  }

  /** Control reaches the immediate-raise test of line 56: the first two
      tests of the chain failed and the third one holds. */
  function ReachesImmediateRaise(c1: Card, c2: Card): (r: bool)
    ensures !r
  {
    && AverageAtLeast(c1, c2, 10)
    && !(c1.suit == c2.suit && AverageAtLeast(c1, c2, 11) && Gap(c1, c2) <= 1)
    && c1.rank != c2.rank
    && (c1.suit == c2.suit && Gap(c1, c2) <= 1 && AverageAtLeast(c1, c2, 12))
  }

  /** Why lines 56-60 are dead code: every hand that passes the test of
      line 56 (suited, adjacent, averaging 12 or more) is already premium
      by the test of line 52. */
  lemma ImmediateRaiseUnreachable(c1: Card, c2: Card)
    requires c1.suit == c2.suit && Gap(c1, c2) <= 1 && AverageAtLeast(c1, c2, 12)
    ensures IsPremium(c1, c2)
  {
  }

  /** The preflop decision of lines 62-73, given whether the hand was marked
      good and the two frequencies in force when line 62 is reached. */
  function PreflopPlay(c1: Card, c2: Card, bigBlind: int, legal: seq<Action>,
                       minBet: int, maxBet: int, draws: Draws,
                       goodHole: bool, playFrequency: real, raiseFrequency: real): (d: Decision)
    ensures d.action == Raise || d.action == Fold
    ensures d.action == Raise <==>
              && draws.play < (if goodHole || IsPremium(c1, c2) then playFrequency else 0.04)
              && Raise in legal
              && draws.aggression < raiseFrequency
    ensures d.action == Raise ==> d.amount == Clamp(minBet, maxBet, draws.multiple * bigBlind)
    ensures d.action == Fold ==> d.amount == 0
  {
    var good := goodHole || IsPremium(c1, c2);
    var frequency := if good then playFrequency else 0.04;
    if draws.play < frequency && Raise in legal && draws.aggression < raiseFrequency then
      Decision(Raise, Clamp(minBet, maxBet, draws.multiple * bigBlind))
    else
      Decision(Fold, 0)
  }

  // ---------------------------------------------------------------------
  // Postflop decision
  // ---------------------------------------------------------------------

  /** _postflop_strategy (lines 75-115): a decision tree on the evaluated
      hand category. A flush-or-better hand that does not act at line 84-92
      falls through to the pair-or-better test of line 95, which is a
      separate `if`; the final fold is returned without consulting `legal`. */
  function PostflopStrategy(handRank: int, ranks: HandRankings, bigBlind: int,
                            legal: seq<Action>, minBet: int, maxBet: int,
                            draws: Draws): (d: Decision)
    ensures d.action != Fold ==> d.action in legal
    ensures d.action == Raise ==> WithinBetBounds(d.amount, minBet, maxBet)
    ensures d.action != Raise ==> d.amount == 0
    ensures handRank < ranks.pair && handRank < ranks.flush && d.action != Fold ==>
              d.action == Raise && draws.bluff < 0.005
  {
    var strong := handRank >= ranks.flush && draws.strong < 0.9;
    var pairOrBetter := handRank >= ranks.pair;
    if strong && Raise in legal then
      Decision(Raise, RaiseAmount(3 * bigBlind, minBet, maxBet))
    else if strong && Call in legal then
      Decision(Call, 0)
    else if pairOrBetter && draws.medium < 0.5 && Raise in legal then
      Decision(Raise, RaiseAmount(TruncDiv(6 * bigBlind, 5), minBet, maxBet))
    else if pairOrBetter && draws.medium >= 0.5 && Check in legal then
      Decision(Check, 0)
    else if pairOrBetter && draws.medium >= 0.5 && Call in legal then
      Decision(Call, 0)
    else if draws.bluff < 0.005 && Raise in legal then
      Decision(Raise, Clamp(minBet, maxBet, BetCap(maxBet)))
    else
      Decision(Fold, 0)
  }

  // ---------------------------------------------------------------------
  // The whole decision
  // ---------------------------------------------------------------------

  /** What get_action returns. It takes no argument from the bot's fields:
      get_action resets them (lines 26-28) before they are read. */
  function Decide(state: GameState, holeCards: seq<Card>, legal: seq<Action>,
                  minBet: int, maxBet: int, draws: Draws,
                  handRank: int, ranks: HandRankings): (d: Decision)
    requires state.roundName == "preflop" ==> |holeCards| >= 2
    ensures d.action != Fold ==> d.action in legal
    ensures d.action == Raise ==> WithinBetBounds(d.amount, minBet, maxBet)
    ensures d.action != Raise ==> d.amount == 0
    ensures state.roundName == "preflop" ==> d.action == Raise || d.action == Fold
  {
    if state.roundName == "preflop" then
      PreflopPlay(holeCards[0], holeCards[1], state.bigBlind, legal, minBet, maxBet, draws,
                  false, 1.0, 1.0)
    else
      PostflopStrategy(handRank, ranks, state.bigBlind, legal, minBet, maxBet, draws)
  }

  /** raise_frequency after one hand_complete (lines 119-124). */
  function AfterHand(raiseFrequency: real, won: bool): (r: real)
    ensures won ==> r <= 0.7 && (raiseFrequency <= 0.7 ==> raiseFrequency <= r)
    ensures !won ==> r >= 0.3 && (raiseFrequency >= 0.3 ==> r <= raiseFrequency)
    ensures 0.3 <= raiseFrequency <= 0.7 ==> 0.3 <= r <= 0.7
  {
    if won then MinReal(0.7, raiseFrequency + 0.02) else MaxReal(0.3, raiseFrequency - 0.01)
  }

  /** raise_frequency after hand_complete has reported each outcome in turn
      (true for a hand the bot won). */
  function Drift(raiseFrequency: real, outcomes: seq<bool>): (r: real)
    ensures outcomes == [] ==> r == raiseFrequency
    ensures outcomes != [] && outcomes[|outcomes| - 1] ==> r <= 0.7
    ensures outcomes != [] && !outcomes[|outcomes| - 1] ==> r >= 0.3
    decreases |outcomes|
  {
    if outcomes == [] then raiseFrequency
    else Drift(AfterHand(raiseFrequency, outcomes[0]), outcomes[1..])
  }

  /** One more hand_complete applies AfterHand to the frequency reached by
      the hands before it. */
  lemma {:induction false} DriftOneMoreHand(raiseFrequency: real, outcomes: seq<bool>, won: bool)
    ensures Drift(raiseFrequency, outcomes + [won]) == AfterHand(Drift(raiseFrequency, outcomes), won)
    decreases |outcomes|
  {
    if outcomes != [] {
      assert (outcomes + [won])[1..] == outcomes[1..] + [won];
      DriftOneMoreHand(AfterHand(raiseFrequency, outcomes[0]), outcomes[1..], won);
    } else {
      assert ([] + [won])[1..] == [];
    }
  }

  /** The bot is among the winners of a hand result; a result without a
      "winners" entry counts as a loss. */
  function Won(name: string, handResult: map<string, seq<string>>): (r: bool)
    ensures "winners" !in handResult ==> !r
    ensures "winners" in handResult ==> (r <==> name in handResult["winners"])
  {
    "winners" in handResult && name in handResult["winners"]
  }

  // ---------------------------------------------------------------------
  // The bot object
  // ---------------------------------------------------------------------

  class EmberBot {
    /** The name given to the base class; hand results list winners by it. */
    const name: string
    var handsPlayed: int
    var raiseFrequency: real
    var playFrequency: real
    var isGoodHole: bool

    constructor (name: string)
      ensures this.name == name
      ensures handsPlayed == 0 && raiseFrequency == 1.0 && playFrequency == 1.0
      ensures !isGoodHole
    {
      this.name := name;
      handsPlayed := 0;
      raiseFrequency := 1.0;
      playFrequency := 1.0;
      isGoodHole := false;
    }

    /** get_action: resets the three per-decision fields, then dispatches on
        the round. handRank is the category rank the engine's evaluator gives
        the hole and community cards; only the postflop branch reads it. */
    method GetAction(state: GameState, holeCards: seq<Card>, legal: seq<Action>,
                     minBet: int, maxBet: int, draws: Draws,
                     handRank: int, ranks: HandRankings) returns (d: Decision)
      requires state.roundName == "preflop" ==> |holeCards| >= 2
      modifies this`raiseFrequency, this`playFrequency, this`isGoodHole
      ensures d == Decide(state, holeCards, legal, minBet, maxBet, draws, handRank, ranks)
      ensures raiseFrequency == 1.0
      ensures isGoodHole == (state.roundName == "preflop" && IsPremium(holeCards[0], holeCards[1]))
      ensures playFrequency == if state.roundName == "preflop" && !isGoodHole then 0.04 else 1.0
    {
      raiseFrequency := 1.0;
      playFrequency := 1.0;
      isGoodHole := false;
      if state.roundName == "preflop" {
        d := PreflopStrategy(state, holeCards, legal, minBet, maxBet, draws);
      } else {
        d := PostflopStrategy(handRank, ranks, state.bigBlind, legal, minBet, maxBet, draws);
      }
    }

    /** _preflop_strategy: marks a good hole, lowers play_frequency for any
        other hand, then reads both back to decide. */
    method PreflopStrategy(state: GameState, holeCards: seq<Card>, legal: seq<Action>,
                           minBet: int, maxBet: int, draws: Draws) returns (d: Decision)
      requires |holeCards| >= 2
      modifies this`playFrequency, this`isGoodHole
      ensures isGoodHole == (old(isGoodHole) || IsPremium(holeCards[0], holeCards[1]))
      ensures playFrequency == if isGoodHole then old(playFrequency) else 0.04
      ensures d == PreflopPlay(holeCards[0], holeCards[1], state.bigBlind, legal, minBet, maxBet,
                               draws, old(isGoodHole), old(playFrequency), raiseFrequency)
    {
      var c1, c2 := holeCards[0], holeCards[1];
      var suited := c1.suit == c2.suit;
      var difference := Gap(c1, c2);
      if AverageAtLeast(c1, c2, 10) {
        if suited && AverageAtLeast(c1, c2, 11) && difference <= 1 {
          isGoodHole := true;
        } else if c1.rank == c2.rank {
          isGoodHole := true;
        } else if suited && difference <= 1 && AverageAtLeast(c1, c2, 12) {
          // Lines 57-60 (raise to the bet cap on a 95% draw, else mark the
          // hole good) can never run: this test implies the one of line 52.
          assert false;
        }
      }
      if !isGoodHole {
        playFrequency := 0.04;
      }
      if draws.play < playFrequency {
        if Raise in legal && draws.aggression < raiseFrequency {
          var raiseAmount := Min(draws.multiple * state.bigBlind, maxBet);
          raiseAmount := Max(raiseAmount, minBet);
          return Decision(Raise, raiseAmount);
        }
      }
      return Decision(Fold, 0);
    }

    /** hand_complete: one more hand played; a win raises raise_frequency by
        0.02 up to 0.7, a loss lowers it by 0.01 down to 0.3. */
    method HandComplete(handResult: map<string, seq<string>>)
      modifies this`handsPlayed, this`raiseFrequency
      ensures handsPlayed == old(handsPlayed) + 1
      ensures raiseFrequency == AfterHand(old(raiseFrequency), Won(name, handResult))
      ensures Won(name, handResult) ==> raiseFrequency <= 0.7
      ensures !Won(name, handResult) ==> raiseFrequency >= 0.3
    {
      handsPlayed := handsPlayed + 1;
      if "winners" in handResult && name in handResult["winners"] {
        raiseFrequency := MinReal(0.7, raiseFrequency + 0.02);
      } else {
        raiseFrequency := MaxReal(0.3, raiseFrequency - 0.01);
      }
    }

    /** tournament_start: tunes both frequencies by table size; a table of
        five to seven players leaves them as they were. */
    method TournamentStart(players: seq<string>, startingChips: int)
      modifies this`raiseFrequency, this`playFrequency
      ensures |players| <= 4 ==> raiseFrequency == 0.6 && playFrequency == 0.9
      ensures |players| >= 8 ==> raiseFrequency == 0.4 && playFrequency == 0.7
      ensures 4 < |players| < 8 ==>
                raiseFrequency == old(raiseFrequency) && playFrequency == old(playFrequency)
    {
      if |players| <= 4 {
        raiseFrequency := 0.6;
        playFrequency := 0.9;
      } else if |players| >= 8 {
        raiseFrequency := 0.4;
        playFrequency := 0.7;
      }
    }
  }

  /** Whatever a bot has been through, its decision equals that of a newly
      built bot given the same inputs: the reset at lines 26-28 erases what
      hand_complete and tournament_start wrote. */
  method DecisionIgnoresHistory(bot: EmberBot, state: GameState, holeCards: seq<Card>,
                                legal: seq<Action>, minBet: int, maxBet: int, draws: Draws,
                                handRank: int, ranks: HandRankings)
    returns (seasoned: Decision, newcomer: Decision)
    requires state.roundName == "preflop" ==> |holeCards| >= 2
    modifies bot
    ensures seasoned == newcomer
  {
    var rookie := new EmberBot(bot.name);
    seasoned := bot.GetAction(state, holeCards, legal, minBet, maxBet, draws, handRank, ranks);
    newcomer := rookie.GetAction(state, holeCards, legal, minBet, maxBet, draws, handRank, ranks);
  }

  // ---------------------------------------------------------------------
  // Properties of the decision
  // ---------------------------------------------------------------------

  /** A premium hand preflop raises 3 or 4 big blinds, clamped, whenever a
      raise is legal, and folds otherwise. */
  lemma PremiumHandRaises(state: GameState, holeCards: seq<Card>, legal: seq<Action>,
                          minBet: int, maxBet: int, draws: Draws,
                          handRank: int, ranks: HandRankings)
    requires state.roundName == "preflop" && |holeCards| >= 2
    requires IsPremium(holeCards[0], holeCards[1]) && ValidDraws(draws)
    ensures Decide(state, holeCards, legal, minBet, maxBet, draws, handRank, ranks) ==
              if Raise in legal
              then Decision(Raise, Clamp(minBet, maxBet, draws.multiple * state.bigBlind))
              else Decision(Fold, 0)
  {
  }

  /** A pocket pair of tens or better is always premium. */
  lemma PocketPairIsPremium(c1: Card, c2: Card)
    requires c1.rank == c2.rank >= 10
    ensures IsPremium(c1, c2)
  {
  }

  /** Any other preflop hand folds unless the play draw falls under 0.04 and
      a raise is legal. */
  lemma OrdinaryHandMostlyFolds(state: GameState, holeCards: seq<Card>, legal: seq<Action>,
                                minBet: int, maxBet: int, draws: Draws,
                                handRank: int, ranks: HandRankings)
    requires state.roundName == "preflop" && |holeCards| >= 2
    requires !IsPremium(holeCards[0], holeCards[1]) && ValidDraws(draws)
    ensures Decide(state, holeCards, legal, minBet, maxBet, draws, handRank, ranks) ==
              if draws.play < 0.04 && Raise in legal
              then Decision(Raise, Clamp(minBet, maxBet, draws.multiple * state.bigBlind))
              else Decision(Fold, 0)
  {
  }

  /** A flush or better, with the 90% draw won, a raise legal and three big
      blinds under the cap, raises exactly three big blinds, clamped. */
  lemma FlushRaisesThreeBlinds(handRank: int, ranks: HandRankings, bigBlind: int,
                               legal: seq<Action>, minBet: int, maxBet: int, draws: Draws)
    requires handRank >= ranks.flush && draws.strong < 0.9 && Raise in legal
    requires 3 * bigBlind < BetCap(maxBet)
    ensures PostflopStrategy(handRank, ranks, bigBlind, legal, minBet, maxBet, draws) ==
              Decision(Raise, Clamp(minBet, maxBet, 3 * bigBlind))
  {
  }

  /** A flush or better that loses the 90% draw is not decided there: it is
      played by the pair-or-better branch like any made pair. */
  lemma FlushFallsThroughToPair(handRank: int, ranks: HandRankings, bigBlind: int,
                                legal: seq<Action>, minBet: int, maxBet: int, draws: Draws)
    requires handRank >= ranks.flush && handRank >= ranks.pair && draws.strong >= 0.9
    ensures PostflopStrategy(handRank, ranks, bigBlind, legal, minBet, maxBet, draws) ==
              PostflopStrategy(ranks.pair, ranks, bigBlind, legal, minBet, maxBet, draws)
  {
  }

  /** Below a pair, the hand folds unless the bluff draw hits with a raise
      legal, whether or not folding is among the legal actions. */
  lemma WeakHandFoldsRegardless(handRank: int, ranks: HandRankings, bigBlind: int,
                                legal: seq<Action>, minBet: int, maxBet: int, draws: Draws)
    requires handRank < ranks.pair && handRank < ranks.flush
    requires !(draws.bluff < 0.005 && Raise in legal)
    ensures PostflopStrategy(handRank, ranks, bigBlind, legal, minBet, maxBet, draws) ==
              Decision(Fold, 0)
  {
  }

  // ---------------------------------------------------------------------
  // Properties of the raise-frequency drift
  // ---------------------------------------------------------------------

  /** Once raise_frequency is within [0.3, 0.7], no sequence of results
      moves it out. */
  lemma {:induction false} DriftStaysInBand(raiseFrequency: real, outcomes: seq<bool>)
    requires 0.3 <= raiseFrequency <= 0.7
    ensures 0.3 <= Drift(raiseFrequency, outcomes) <= 0.7
    decreases |outcomes|
  {
    if outcomes != [] {
      DriftStaysInBand(AfterHand(raiseFrequency, outcomes[0]), outcomes[1..]);
    }
  }

  /** From any frequency of at least 0.3 (1.0 from the constructor, 0.4 or
      0.6 from tournament_start), the first win brings it into [0.3, 0.7]
      for good; before any win, losses alone may keep it above 0.7. */
  lemma {:induction false} DriftAfterAWin(raiseFrequency: real, outcomes: seq<bool>)
    requires raiseFrequency >= 0.3
    requires true in outcomes
    ensures 0.3 <= Drift(raiseFrequency, outcomes) <= 0.7
    decreases |outcomes|
  {
    if outcomes[0] {
      DriftStaysInBand(AfterHand(raiseFrequency, true), outcomes[1..]);
    } else {
      assert true in outcomes[1..];
      DriftAfterAWin(AfterHand(raiseFrequency, false), outcomes[1..]);
    }
  }

  /** n straight wins: raise_frequency climbs 0.02 per hand and stops at 0.7. */
  lemma {:induction false} WinStreak(raiseFrequency: real, n: nat)
    requires n >= 1
    ensures Drift(raiseFrequency, seq(n, _ => true)) ==
              MinReal(0.7, raiseFrequency + 0.02 * n as real)
    decreases n
  {
    var wins := seq(n, _ => true);
    assert wins[1..] == seq(n - 1, _ => true);
    if n > 1 {
      WinStreak(AfterHand(raiseFrequency, true), n - 1);
    }
  }

  /** n straight losses: raise_frequency falls 0.01 per hand and stops at 0.3. */
  lemma {:induction false} LossStreak(raiseFrequency: real, n: nat)
    requires n >= 1
    ensures Drift(raiseFrequency, seq(n, _ => false)) ==
              MaxReal(0.3, raiseFrequency - 0.01 * n as real)
    decreases n
  {
    var losses := seq(n, _ => false);
    assert losses[1..] == seq(n - 1, _ => false);
    if n > 1 {
      LossStreak(AfterHand(raiseFrequency, false), n - 1);
    }
  }
}
