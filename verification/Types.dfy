/** The values a hand is made of: cards, actions, seats, the game record and the events
    that describe it. Chip counts are natural numbers; `Limits.DecisionFits` and
    `Limits.EndFits` show where the source's 32-bit arithmetic agrees with them. */
module Types {

  datatype Option<+T> = None | Some(value: T)

  /** A card is one of the 52 packed values. */
  type Card = nat

  datatype Street = Preflop | Flop | Turn | River | Showdown

  datatype Status = Active | Folded | AllIn | Out

  datatype SeatKind = Live | DeadHand

  datatype Action = Fold | Check | Call | Raise(amount: nat) | AllIn

  datatype LegalActions = LegalActions(
    canCheck: bool, canCall: bool, callAmount: nat,
    canRaise: bool, minRaise: nat, maxRaise: nat, allInAmount: nat)
  {
    predicate IsLegal(a: Action) {
      match a
      case Fold => true
      case Check => canCheck
      case Call => canCall
      case Raise(amount) => canRaise && minRaise <= amount <= maxRaise
      case AllIn => allInAmount > 0
    }

    /** What the shipped agents submit: a legal action, or a call for less than is owed
        (the calling station never checks whether its stack covers the call). */
    predicate Allows(a: Action) {
      IsLegal(a) || (a.Call? && !canCheck)
    }
  }

  datatype BetVariant = NoLimit | PotLimit | FixedLimit

  datatype Rules = Rules(variant: BetVariant, smallBlind: nat, bigBlind: nat, ante: nat)

  datatype Player = Player(
    stack: nat, hole: Option<(Card, Card)>, bet: nat, committed: nat, status: Status)
  {
    /** Counted by `players_still_in`. */
    predicate StillIn() { status.Active? || status.AllIn? }
  }

  /** `action_on` is left out (the engine writes it and never reads it); `pot` is
      `pot.main`, the side list being empty in every state the engine builds. */
  datatype Game = Game(
    handId: nat, street: Street, board: seq<Card>, players: seq<Player>, pot: nat,
    dealer: nat, lastAggressor: Option<nat>, currentBet: nat, minRaise: nat,
    shortSum: nat, satOut: seq<bool>)

  datatype SeatOutcome = SeatOutcome(
    seat: nat, hole: Option<(Card, Card)>, chipDelta: int, satOut: bool)

  datatype HandResult = HandResult(handId: nat, board: seq<Card>, seats: seq<SeatOutcome>)

  datatype Event =
    | HandStarted(handId: nat, dealer: nat, seed: nat)
    | HoleCardsDealt(seat: nat, hole: (Card, Card))
    | BoardDealt(street: Street, cards: seq<Card>)
    | ActionTaken(seat: nat, action: Action, potTotal: nat)
    | PlayerAllIn(seat: nat, total: nat)
    | HandEnded(handId: nat, result: HandResult)

  /** A shuffled deck and how many of its cards have been dealt. Dealing past the end is an
      index panic in the source; here it yields card 0, and `Theorems.CardsDistinct` shows
      it never happens. */
  datatype Deck = Deck(cards: seq<Card>, cursor: nat)
  {
    function At(i: nat): Card { if i < |cards| then cards[i] else 0 }
  }

  /** The engine's rules and its evaluator, any function from seven cards to an ordered rank. */
  datatype Engine = Engine(rules: Rules, rank7: seq<Card> -> int)

  /** Everything a running hand mutates: the game, the deck and the event sink. */
  datatype Hand = Hand(g: Game, deck: Deck, log: seq<Event>)

  /** The arguments of `run_hand` besides the agents. */
  datatype Setup = Setup(
    handId: nat, seed: nat, cards: seq<Card>, stacks: seq<nat>, dealer: nat,
    kinds: Option<seq<SeatKind>>)

  function Min(a: int, b: int): int { if a <= b then a else b }
  function Max(a: int, b: int): int { if a <= b then b else a }

  /** Unsigned subtraction that stops at zero. */
  function Monus(a: nat, b: nat): nat { if a <= b then 0 else a - b }
}
