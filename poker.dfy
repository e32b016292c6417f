/**
 The values the tournament engine hands to a bot and takes back from it.
 The engine itself (dealing, betting rounds, hand evaluation) is not part
 of this model; only the parts of its types a bot reads are kept.
 */
module Poker {

  /** The four moves a bot may answer with (PlayerAction in bot_api). */
  datatype Action = Fold | Check | Call | Raise

  /** What a decision returns: an action and, for Raise, the amount. */
  datatype Decision = Decision(action: Action, amount: int)

  /** A card as the bot sees it: its rank's numeric value and its suit.
      Suits are only ever compared for equality, so an index stands for them. */
  datatype Card = Card(rank: int, suit: nat)

  /** The part of the engine's GameState a bot reads directly. */
  datatype GameState = GameState(roundName: string, bigBlind: int)

  /** The two entries of the engine's hand-category ranking table a bot
      compares against; their values belong to the engine. */
  datatype HandRankings = HandRankings(pair: int, flush: int)

  function Min(a: int, b: int): (r: int)
    ensures r <= a && r <= b && (r == a || r == b)
  {
    if a <= b then a else b
  }

  function Max(a: int, b: int): (r: int)
    ensures r >= a && r >= b && (r == a || r == b)
  {
    if a >= b then a else b
  }

  function MinReal(a: real, b: real): (r: real)
    ensures r <= a && r <= b && (r == a || r == b)
  {
    if a <= b then a else b
  }

  function MaxReal(a: real, b: real): (r: real)
    ensures r >= a && r >= b && (r == a || r == b)
  {
    if a >= b then a else b
  }

  /** Python's int(a / b) for a positive divisor: the quotient truncated
      toward zero, also for negative a (Dafny's own / rounds down). */
  function TruncDiv(a: int, b: int): (q: int)
    requires b > 0
    ensures a >= 0 ==> 0 <= q && q * b <= a < q * b + b
    ensures a < 0 ==> q <= 0 && a <= q * b < a + b
  {
    if a >= 0 then a / b else -((-a) / b)
  }
}
