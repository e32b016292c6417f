# EmberBot, modelled in Dafny

EmberBot is a scripted poker player for an external tournament engine. The
engine calls `get_action` at each betting decision with the game state, the
bot's two hole cards, the legal actions and the bet bounds, and the bot answers
with an action and an amount. It also calls `hand_complete` after each hand and
`tournament_start` once per tournament. Before the flop the bot raises 3 or 4
big blinds with premium hole cards and folds almost everything else. After the
flop it raises or calls with a flush or better, raises, checks or calls with a
pair or better, bluffs 0.5% of the time with a raise to the cap (max_bet less a
twentieth of it, about 95% of max_bet), and otherwise folds.

The model has two modules:

- `Poker` (poker.dfy): the engine-side values the bot reads and returns
  (`Action`, `Decision`, `Card`, `GameState`, the two hand-ranking entries). It
  also holds `TruncDiv`, which is Python's `int(a / b)`.
- `Ember` (ember_bot.dfy): the class `EmberBot` and its state. It has
  `handsPlayed`, `raiseFrequency`, `playFrequency` and `isGoodHole`, and its
  methods `GetAction`, `PreflopStrategy`, `HandComplete` and `TournamentStart`
  change them in place. Beside the class are the specification functions
  those methods are proved against. `PostflopStrategy` is field-free in the
  source, so it is a function. The properties of the decision and of the
  raise-frequency drift are lemmas.

Randomness is an input. Every `random.random()` call site has its own field in
`Draws`, and so does the `random.randint(3, 4)` call. `ValidDraws` states what
the random module guarantees: reals in [0, 1) and a big-blind multiplier of
exactly 3 or 4. The
engine's hand evaluator is also an input. `GetAction` receives the category
rank the evaluator would give, and the ranks of "pair" and "flush" arrive as
`HandRankings`.

Arithmetic is exact:

- `hole_average >= v` is written `rank1 + rank2 >= 2 * v`. This is exact,
  because the ranks are small integers.
- `int(max_bet / 20)` is `TruncDiv(maxBet, 20)`. It truncates toward zero, as
  Python's `int()` does, negative bets included.
- `int(big_blind * 1.2)` is `TruncDiv(6 * bigBlind, 5)`.

Four points where the code does less than a reader of its comments might expect. The model follows the code:

- Not every returned action is legal. The code returns
  `FOLD` at lines 73 and 115 without looking at `legal_actions`. So the
  contracts promise legality only for the other actions, and
  `WeakHandFoldsRegardless` shows the unchecked fold.
- `raiseFrequency` does not always stay in [0.3, 0.7]. A loss from the
  initial 1.0 gives 0.99. `DriftAfterAWin` and `DriftStaysInBand` state what
  does hold, for a run of back-to-back `hand_complete` calls. `get_action`
  puts `raiseFrequency` back to 1.0, so after any hand in which the bot acted
  the next `hand_complete` starts again from 1.0 (a loss then gives 0.99, a
  win 0.7).
- The immediate raise of lines 56-60, commented as a "95% chance to raise",
  never runs. Its guard implies the guard of line 52.
  `ImmediateRaiseUnreachable` proves this, and `PreflopStrategy` has
  `assert false` in that branch.
- The raise frequency that `hand_complete` adapts has no effect. The reset
  at lines 26-28 erases it before every decision, and the model keeps that
  reset (`Decide` reads no field; see `DecisionIgnoresHistory`).

## Model

| member | source | states |
|---|---|---|
| `Poker.TruncDiv` | players/Ember_bot.py:58 | `int(a / b)` truncates toward zero. For a ≥ 0 the quotient is the largest q ≥ 0 with q·b ≤ a. For a < 0 it is the smallest q ≤ 0 with q·b ≥ a. |
| `Ember.Clamp` | players/Ember_bot.py:69-70 | `max(min_bet, min(max_bet, x))` lies in [min_bet, max_bet] when min_bet ≤ max_bet and equals min_bet otherwise. A value already in range is kept. |
| `Ember.BetCap` | players/Ember_bot.py:86 | For max_bet ≥ 0, `max_bet - int(max_bet/20)` lies in [0, max_bet] and is at least 95% of max_bet. For max_bet < 0 it lies in [max_bet, 0]. |
| `Ember.RaiseAmount` | players/Ember_bot.py:86-89 | The postflop raise size stays within the bet bounds. It is exactly the target when 0 ≤ min_bet ≤ target < cap. It is exactly the cap when max_bet ≥ 0 and min_bet ≤ cap ≤ target. |
| `Ember.Gap` | players/Ember_bot.py:47 | `abs(card1 - card2)` is one of the two differences and is never negative. |
| `Ember.ImmediateRaiseUnreachable` | players/Ember_bot.py:51-60 | Every hand that passes the test of line 56 (suited, gap ≤ 1, average ≥ 12) is premium by the test of line 52, which comes first. |
| `Ember.ReachesImmediateRaise` | players/Ember_bot.py:51-56 | The guard chain that leads into the immediate raise (average ≥ 10, the tests of lines 52 and 54 false, the test of line 56 true) holds of no hole cards, so lines 57-60 never run. |
| `Ember.AverageAtLeast` | players/Ember_bot.py:45-52 | The integer test rank1 + rank2 ≥ 2v agrees exactly with `hole_average >= v` on the true quotient (rank1 + rank2) / 2. |
| `Ember.IsPremium` | players/Ember_bot.py:51-55 | The hands marked good have average ≥ 10. A premium non-pair is suited with gap exactly 1 and rank sum ≥ 23. Every pocket pair of rank ≥ 10 and every suited hand with gap ≤ 1 and average ≥ 11 is premium. `PreflopStrategy` is proved to set `isGoodHole` to exactly this after the reset. |
| `Ember.PreflopPlay` | players/Ember_bot.py:62-73 | The result is RAISE or FOLD. It is RAISE exactly when the play draw is below the play frequency in force (0.04 unless the hole is good), RAISE is legal and the aggression draw is below raise_frequency. Then the amount is the clamped k·big_blind. FOLD has amount 0. |
| `Ember.PostflopStrategy` | players/Ember_bot.py:75-115 | Every CHECK, CALL or RAISE returned is in legal_actions, and FOLD is not checked. Every raise is within the bet bounds. Non-raises have amount 0. Below pair and flush, only a bluff raise (draw < 0.005) avoids FOLD. |
| `Ember.Decide` | players/Ember_bot.py:22-33 | The whole decision: only FOLD may be illegal, raises are within the bet bounds, and other actions carry 0. Preflop answers only RAISE or FOLD. |
| `Ember.Won` | players/Ember_bot.py:119 | A hand result without a "winners" entry is a loss; with one, the bot won exactly when its name is listed there. |
| `Ember.Drift` | players/Ember_bot.py:117-124 | The raise frequency after back-to-back `hand_complete` calls: none leaves it unchanged; it is ≤ 0.7 when the last hand was won and ≥ 0.3 when it was lost, whatever came before. |
| `Ember.DriftOneMoreHand` | players/Ember_bot.py:117-124 | One more `hand_complete` applies `AfterHand` to the frequency reached by the hands before it. |
| `Ember.AfterHand` | players/Ember_bot.py:119-124 | A win leaves raise_frequency ≤ 0.7 and does not lower a value ≤ 0.7. A loss leaves it ≥ 0.3 and does not raise a value ≥ 0.3. A value in [0.3, 0.7] stays there. |
| `Ember.EmberBot.constructor` | players/Ember_bot.py:15-20 | A new bot has played 0 hands, both frequencies are 1.0 and the hole is not marked good. |
| `Ember.EmberBot.GetAction` | players/Ember_bot.py:22-33 | Returns `Decide` of its inputs, which reads no field. Afterwards raise_frequency is 1.0, is_good_hole is true exactly for a premium preflop hand, and play_frequency is 0.04 for any other preflop hand and 1.0 otherwise. hands_played is untouched. |
| `Ember.EmberBot.PreflopStrategy` | players/Ember_bot.py:36-73 | is_good_hole becomes its old value or "premium". play_frequency drops to 0.04 unless the hole is good. The result is `PreflopPlay` with the flags in force, and raise_frequency and hands_played are untouched. |
| `Ember.EmberBot.HandComplete` | players/Ember_bot.py:117-124 | hands_played grows by exactly 1. raise_frequency becomes `AfterHand` of its old value and of whether the bot's name is among the "winners": ≤ 0.7 after a win, ≥ 0.3 after a loss. Nothing else changes. |
| `Ember.EmberBot.TournamentStart` | players/Ember_bot.py:126-133 | With ≤ 4 players the frequencies become (0.6, 0.9). With ≥ 8 they become (0.4, 0.7). With 5-7 both are unchanged. hands_played and is_good_hole are untouched. |
| `Ember.DecisionIgnoresHistory` | players/Ember_bot.py:26-28 | A bot with any past state and a newly built bot return the same decision for the same inputs. |
| `Ember.PremiumHandRaises` | players/Ember_bot.py:51-71 | A premium preflop hand returns RAISE with `max(min_bet, min(k·big_blind, max_bet))` when RAISE is legal, and FOLD otherwise. |
| `Ember.PocketPairIsPremium` | players/Ember_bot.py:54-55 | A pocket pair of rank ≥ 10 is premium. |
| `Ember.OrdinaryHandMostlyFolds` | players/Ember_bot.py:62-73 | A non-premium preflop hand returns FOLD unless the play draw is < 0.04 and RAISE is legal. In that case it raises k·big_blind, clamped. |
| `Ember.FlushRaisesThreeBlinds` | players/Ember_bot.py:83-87 | A flush or better with the 90% draw won, RAISE legal and 3·bb below the cap returns exactly (RAISE, clamp(3·bb)). |
| `Ember.FlushFallsThroughToPair` | players/Ember_bot.py:83-95 | A hand ranked at least flush and at least pair whose 90% draw fails is decided exactly as a bare pair would be: line 95 is a separate `if`. |
| `Ember.WeakHandFoldsRegardless` | players/Ember_bot.py:111-115 | A hand below both thresholds, without a bluff raise, returns (FOLD, 0) whatever legal_actions holds. |
| `Ember.DriftStaysInBand` | players/Ember_bot.py:117-124 | Once raise_frequency is in [0.3, 0.7], no sequence of hand results moves it out. |
| `Ember.DriftAfterAWin` | players/Ember_bot.py:117-124 | From any raise_frequency ≥ 0.3, a sequence of hand results that contains a win ends in [0.3, 0.7]. |
| `Ember.WinStreak` | players/Ember_bot.py:121 | After n ≥ 1 straight wins, raise_frequency is min(0.7, rf + 0.02·n). |
| `Ember.LossStreak` | players/Ember_bot.py:124 | After n ≥ 1 straight losses, raise_frequency is max(0.3, rf − 0.01·n). |

## Left out

- `HandEvaluator.evaluate_best_hand` and the `HAND_RANKINGS` table (lines 78-80) are engine code and are not part of this model. The category rank is an input, the "pair" and "flush" ranks are parameters, and community cards are therefore not modelled.
- The `random` module: each draw is an input. No probabilities or distributions are modelled.
- `PokerBotAPI` base behaviour (`super().__init__`, `super().tournament_start`, lines 16 and 127) is not part of this model. Only the name the base class stores is kept, as `EmberBot.name`.
- `GameState` and `Card` are reduced to what the bot reads: the round name, the big blind, and each card's rank value and suit.
- Floating point: `int(big_blind * 1.2)`, `/ 2` and `/ 20` are computed exactly on integers (see above). Frequencies are exact reals, so 1.0 − 0.01 is exactly 0.99, not its IEEE-754 neighbour.
- The `game_state` argument of `hand_complete` and the `starting_chips` argument of `tournament_start` are unused by the code. The first is dropped. The second is kept but never read.
- Input validation: the code validates none of its inputs. A hole-card list shorter than two raises IndexError, so `GetAction` requires two cards before the flop.
