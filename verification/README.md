# A model of the poker engine, server and client

This project models a No-Limit Hold'em system and proves what it promises: the hand engine and its
pausable twin, the live table with its concurrent sessions, the client's state machine, the
simulator and the framed event log. All `.dfy` files are verified together with `dafny verify
dfyconfig.toml`.

**The hand.** `Types`, `Betting`, `PotCalc`, `Showdown` and `Tree` hold the values and operations of
a hand; `Tree.Step` is the pausable stepper, `EngineRun.RunHand` the nested loops of the engine,
proved to do the same on every list of submitted actions. `Ledger`, `Order`, `Story` and
`Invariants` build the invariant of every reachable state; `Theorems` states what follows for whole
hands; `Forced` works out the forced bets from a caller's arguments. `Rulebook` sets every turn of
every hand against the rules of betting, stated in chips and seats without the machine's own
operations; `ByCards` does the same for showdowns, from the cards. `Limits`, `ZeroBlind` and
`FreeHands` give the exact conditions under which promises stop holding and the ranges in which
32-bit arithmetic is exact; `Witnesses` shows the failures at concrete calls. `DeckShuffle` is the
deck. The hand evaluator is any function from seven cards to an ordered rank. Agents are a list of
submitted actions: the hand waits where the list ends. Nothing about them is assumed unless a lemma
says so (`AllowedRun`: each action is legal, or a call for less than is owed, which the calling
station makes).

**The server.** `Table` and `TableRuns` model the table lock and the actor as atomic moves in any
order; a finished hand there is a hand played by the engine model. `Sink` is the event fan-out,
`Links` the seat link with its replay buffer and every separate step of every thread that touches
it, `Prompts` the life of a prompt's one-shot responder over every lock-sized step, `Answers` where
an agent's answers come from, `Reach` whether the player can answer at all. `ServerRuns` joins
prompts to the engine. `TableLimits` shows why the big blind must be positive.

**The client.** `Client`, `ClientCore` and `ClientRuns`; `Views`, `Mirror`, `StreetBets` and
`AfterHand` set what it shows against the seat's link and the engine's hand. **Around it.** `Sim`,
`Frames`.

Operations that the source performs on `&mut GameState` take and return the state as a value; the
loops stay loops. Sinks, tables, connections, clients, decks, runners and `GameTree` are classes.

What the proofs found in the code:

- With an ante, antes count towards street bets but not towards the bet to call, so an active big
  blind can never be settled and legal play may go on for ever (`ZeroBlind.EndsExactlyWhen`,
  `Witnesses.AnteRunsOn`).
- If the blinds put every live seat all-in, the pot goes to the lowest-numbered seat without
  looking at the cards (`Limits.BlindsPayBySeat`, `Witnesses.BlindsOverpay`).
- A lone live seat may fold, and the pot is then paid to nobody; with a big blind of zero a folded
  small blind may be left over when the others check the hand down (`FreeHands.PaysOutExactly`,
  `Witnesses.LoneSeatFolds`).
- Short all-ins that add up to a full raise reopen the betting but stay in the running sum, so a
  later all-in of one chip more reopens it again (`Betting.ShortSumOutlivesReopening`,
  `Witnesses.OneChipReopens`).
- An event is pushed into a seat's buffer and sent in two steps, and a replay is read and sent in
  two. A replay sent between the first two tells the event twice: harmless but for board cards, which
  the client then shows twice (`Mirror.DoubledExactly`, `Mirror.FlopShownTwice`), against the promise
  of crates/poker-engine/src/net/PROTOCOL.md:463. Events sent between the other two are wiped out by
  the replay (`Mirror.ReplayShowsItsReading` says exactly when that shows).
- The same race after the end: a replay read before the result and sent after it makes the client
  show the finished hand again (`AfterHand.ShownAfterTheEnd`).
- The client shows an all-in with everything its seat put in during the hand, so after the flop its
  street bets are the engine's exactly until the first all-in of a street
  (`StreetBets.ClientShowsBets`).
- A prompt is left where its player cannot answer it when the seat is rebound between the agent's
  look-up and its placing, when it is placed between a reconnect's lifting and rebinding, or when two
  reconnects of the seat overlap and the one without the prompt rebinds last (`Reach.StrandedExactly`
  gives the moves, `Reach.CalmRunsReach` the schedules that are safe).
- With a big blind of zero, stored hands can name the wrong players (`TableLimits.ZeroBlindMisnames`).
- The comment beside the small-blind helper says the dealer posts it heads-up; the code gives it
  to the seat after the dealer. The model follows the code.
- The comment on sealing a replay buffer says events are kept for slow reconnects; the code clears
  them. The model follows the code.

## Model

| member | source | states |
|---|---|---|
| EngineRun.RunHand | crates/poker-engine/src/game/engine.rs:29-98 | For every seat count, stacks, dealer, deck, dead-hand marking and list of submitted actions, the nested-loop driver stops exactly where the small-step machine stops: same decisions put to the same seats with the same legal sets, same events, same final stacks, board and payouts; at the end it returns the built result and closes the stream with one `HandEnded`, and while waiting it returns nothing |
| EngineRun.RunStreets | crates/poker-engine/src/game/engine.rs:193-242 | The loop over the three later streets, with its shortcut for running out the board, reaches the outcome of the street-by-street machine |
| EngineRun.RunBettingRound | crates/poker-engine/src/game/engine.rs:300-409 | One round of seat scanning and asking is a stretch of machine steps; it closes only with every active seat having matched the bet to call, ends with a winner only when one seat is left, and pauses only when answers run out |
| EngineRun.AllSettled | crates/poker-engine/src/game/engine.rs:314-326 | The round-over test holds exactly when no active seat is still to act or short of the bet |
| EngineRun.RunOut | crates/poker-engine/src/game/engine.rs:268-292 | Dealing the missing board in one go equals opening the remaining streets one by one when nobody can bet |
| Tree.BoardIsFull | crates/poker-engine/src/game/engine.rs:268-292 | The run-out leaves exactly five board cards, so the silent fallback loop has nothing to do |
| EngineRun.PostAllAntes | crates/poker-engine/src/game/engine.rs:135-151 | The ante loop equals posting seat by seat |
| EngineRun.DealHoleCards | crates/poker-engine/src/game/engine.rs:176-187 | The dealing loop equals dealing two cards to each seat in the hand, in seat order |
| Seats.FindSeat | crates/poker-engine/src/game/engine.rs:721-745 | The clockwise search returns the first marked seat strictly after the start, wrapping round to the start itself, and fails exactly when no seat is marked |
| GameTrees.GameTree.constructor | crates/poker-engine/src/game/tree.rs:74-137 | Posting, dealing and folding dead hands with the engine's loops, a fresh tree stands where the engine stands before the first answer; it is over at once exactly when no live seat has chips behind its forced bets, and otherwise asks one that has |
| GameTrees.GameTree.ApplyAction | crates/poker-engine/src/game/tree.rs:163-189 | Applying an action is one machine step, in place |
| GameTrees.GameTree.Move | crates/poker-engine/src/game/tree.rs:214-257 | From just after an action to the uncontested award, the next unsettled seat, or the next street |
| GameTrees.GameTree.AdvanceStreets | crates/poker-engine/src/game/tree.rs:254-317 | The street loop stops at the first street where two seats can bet, or shows the hand down |
| Rulebook.TurnFollowsRules | crates/poker-engine/src/game/engine.rs:300-610 | Every turn of every hand against the betting rules, for whatever the asked seat submits: its chips, the bet to call, the raise size and the sum of short all-ins move as the rules say in chips and are announced so; the others must speak again exactly after a full raise; a last seat takes everything in the middle; otherwise the next seat clockwise that owes an answer is asked; only when none does the street closes, and the next opens, if two seats can still bet, with no bet to call, the big blind as raise size, nobody heard and the first such seat after the dealer asked |
| Rulebook.OfferAtDecision | crates/poker-engine/src/game/engine.rs:453-499 | At every decision of a No-Limit hand, what is offered and nothing else: folding and all-in always, checking exactly when nothing is owed, calling exactly when something is owed and chips are left after paying it, raising to exactly the totals from a full raise over the bet up to everything in front of the seat, if it has not spoken since the last full raise and has more than the least |
| Rulebook.NextRaiseCosts | crates/poker-engine/src/game/engine.rs:538-595 | The raise quoted to the next seat asked: after a raise to x, x plus what it raised the bet by, on the same street; after a full all-in likewise; after a short one its total plus the old raise size, its size joining the sum; after a fold, check or call unchanged; on a new street the big blind |
| Rulebook.ResultReports | crates/poker-engine/src/game/engine.rs:753-772 | The result of a finished hand: its number, its board, and in seat order one line for each seat that came with chips and no other, with its cards, its stack now less its stack then, and whether it was dealt in as a dead hand |
| Rulebook.AllInNoticesTrue | crates/poker-engine/src/game/engine.rs:135-174 | At every point of every hand each all-in notice in the stream, those of forced bets included, gives exactly what its seat has committed in all |
| Forced.BlindsGoClockwise | crates/poker-engine/src/game/engine.rs:702-751 | The small blind goes to the first funded seat clockwise of the dealer, the big blind to the first funded seat after that |
| Forced.FirstToAct | crates/poker-engine/src/game/engine.rs:76-98 | The first seat asked is the first one clockwise of the big blind with chips behind its forced bets and a live hand, with the big blind to call and as raise size |
| Seats.ScanIsFirst | crates/poker-engine/src/game/engine.rs:721-745 | Of all marked seats the search finds the one the fewest steps clockwise of where it starts |
| Betting.OfferedActionsDo | crates/poker-engine/src/game/engine.rs:453-610 | Each offered action costs what was quoted and does what its name says: a free check exactly when nothing is owed, a call that matches the bet, a raise that ends at exactly the named amount and is a full raise, an all-in of the quoted stack |
| Betting.OfferExactly | crates/poker-engine/src/game/engine.rs:453-499 | The No-Limit offer of any seat, both ways: which actions are legal, exactly, and what the quoted amounts come to |
| Betting.SubmittedTakes | crates/poker-engine/src/game/engine.rs:424-610 | Any submitted action, legal or not, does to chips and registers what the rules say: a raise of everything is an all-in, a raise short of a full one a call or a check, a call pays as far as the stack goes, a full raise or all-in sets the raise size to its own, a short all-in leaves it and joins the sum |
| Betting.SubmittedReopens | crates/poker-engine/src/game/engine.rs:538-595 | The other seats lose their answers exactly when the bet went up by a full raise, earlier short all-ins counted |
| Betting.SubmittedIsAnnounced | crates/poker-engine/src/game/engine.rs:506-610 | An action is announced as it was understood, with the chips in the middle after it, preceded by the all-in notice exactly if it took the last chip |
| Betting.NormalizedRaiseIsFull | crates/poker-engine/src/game/engine.rs:424-447 | A raise that survives normalization is unchanged, leaves chips behind and is at least a full raise |
| Betting.NoAssertFires | crates/poker-engine/src/game/engine.rs:424-557 | None of the three debug assertions about a raise fires on an allowed action: it is never downgraded, strictly raises the bet, and leaves chips unless it became an all-in |
| Theorems.AssertionsHold | crates/poker-engine/src/game/engine.rs:424-557 | ... at every decision of every hand, however it came about |
| Betting.RegistersMonotone | crates/poker-engine/src/game/engine.rs:538-595 | Within a street the bet to call and the minimum raise never decrease, whatever is submitted |
| Betting.Rule47AKept | crates/poker-engine/src/game/engine.rs:538-595 | The reopening invariant survives every allowed action: a seat that has responded owes only short all-ins that fall short of a full raise together |
| Betting.DeniedOwesLess | crates/poker-engine/src/game/engine.rs:340-344 | A seat that may not re-raise owes strictly less than a full raise and is offered none |
| Betting.ReopenedExactly | crates/poker-engine/src/game/engine.rs:585-594 | The converse fails exactly when an all-in below a full raise meets enough earlier short raises while the seat has matched some of them |
| Betting.ShortSumOutlivesReopening | crates/poker-engine/src/game/engine.rs:589-593 | The sum of short raises is not cleared when it reopens the betting, so afterwards any all-in over the bet, even by one chip, reopens again |
| Theorems.DeniedSeatsOweLess | crates/poker-engine/src/game/engine.rs:308-344 | TDA Rule 47A over whole hands: at every decision reached by allowed play a denied active seat owes strictly less than the minimum raise |
| PotCalc.CollectStreetBets | crates/poker-engine/src/game/pot_calc.rs:8-14 | In place: the pot grows by exactly the street bets, which become zero; nothing else changes |
| PotCalc.BuildShowdownPots | crates/poker-engine/src/game/pot_calc.rs:24-80 | The loop over ascending levels builds the layered pots |
| PotCalc.LevelsAreLevels | crates/poker-engine/src/game/pot_calc.rs:30-36 | The levels ascend strictly, are positive and list every positive commitment |
| PotCalc.LevelsExact | crates/poker-engine/src/game/pot_calc.rs:30-36 | A number is a level exactly when it is positive and some seat's commitment |
| PotCalc.PotsAreLayers | crates/poker-engine/src/game/pot_calc.rs:38-79 | Closed form of the pots: one per level up to the top live commitment, each its slice, the folded excess merged into the last one only |
| PotCalc.PotsNest | crates/poker-engine/src/game/pot_calc.rs:50-66 | Eligible sets form a decreasing chain and no pot lacks a contender |
| PotCalc.PotsHoldEverything | crates/poker-engine/src/game/pot_calc.rs:64-79 | The pots hold every committed chip exactly when some live seat committed, or nothing was committed |
| PotCalc.ContestedIsEntitlement | crates/poker-engine/src/game/pot_calc.rs:30-79 | The pots a live seat contends for hold exactly the sum of min(c_p, c_i) over all seats p, plus the folded chips above the top when c_i is the top |
| Showdown.PayPots | crates/poker-engine/src/game/engine.rs:616-663 | The award loop pays every seat its share of every pot |
| Showdown.PayPot | crates/poker-engine/src/game/engine.rs:622-663 | One pot: an equal share to each best eligible hand, odd chips to the first winner left of the dealer |
| Showdown.SharesSum | crates/poker-engine/src/game/engine.rs:648-663 | A pot with a contender is paid out to the last chip |
| Showdown.TiesSplitEvenly | crates/poker-engine/src/game/engine.rs:641-663 | Equal hands are paid alike but for fewer odd chips than winners; a beaten contender gets nothing |
| Showdown.ShareExactly | crates/poker-engine/src/game/engine.rs:622-663 | The division of a pot from the hands alone: each contender with the best hand gets the pot divided by their number, and the odd chips go to the one of them nearest left of the dealer |
| Showdown.PayoutExact | crates/poker-engine/src/game/engine.rs:616-671 | No seat is paid beyond its entitlement, the strictly best live hand is paid exactly that, folded seats nothing |
| Showdown.PayoutConserves | crates/poker-engine/src/game/engine.rs:616-671 | The showdown pays out every committed chip exactly when a live seat committed some, and otherwise nothing |
| Limits.UncalledBetReturned | crates/poker-engine/src/game/pot_calc.rs:46-79 | A live seat that alone committed the most gets back at least its excess over the second-highest commitment |
| ByCards.ShowdownByCards | crates/poker-engine/src/game/engine.rs:616-671 | Every showdown reached by play, by the cards: five on the board, and the layered pots divided by the evaluator's value of each seat's two cards with the board, from the dealer the hand was called with |
| ByCards.ShowdownExact | crates/poker-engine/src/game/engine.rs:616-671 | At every showdown reached by play a seat gets nothing unless still in, never more than its entitlement, exactly that if its two cards with the board evaluate above every other live hand, and nothing if a live hand with as much committed evaluates above it |
| ByCards.EqualHandsSplit | crates/poker-engine/src/game/engine.rs:641-663 | Live seats whose cards evaluate alike and who committed alike are paid alike, up to the odd chips of the pots |
| ByCards.HandsHaveValues | crates/poker-engine/src/game/engine.rs:626-640 | Every seat still in at a showdown was dealt in, so its hand has a value |
| Invariants.StepGood | crates/poker-engine/src/game/tree.rs:163-317 | Every submitted action, legal or not, keeps the machine invariant: chips balanced, cards from the deck, stream well formed, the seat asked unsettled, ends only by showdown or concession |
| Invariants.NewGood | crates/poker-engine/src/game/engine.rs:47-86 | The invariant holds before the first decision |
| Theorems.Conservation | crates/poker-engine/src/game/engine.rs:29-98 | At every decision each stack plus commitment is the starting stack and pot plus bets is what is committed; with two live hands the final payouts are exactly the commitments |
| Limits.PaysOutExactlyWhen | crates/poker-engine/src/game/engine.rs:82-98 | For a positive big blind, every way of finishing a hand pays out exactly what was committed if and only if two hands are live or no live seat has chips behind its forced bets |
| FreeHands.PaysOutExactly | crates/poker-engine/src/game/engine.rs:82-98 | ... and for every call: if and only if nobody is asked at all, or two hands are live and, with a zero big blind, the small blind is not the only chip posted by a seat that can fold or is dead while two other live hands can check the hand down; or the big blind is zero and nothing is posted |
| Forced.OpenedSeat | crates/poker-engine/src/game/engine.rs:135-187 | The table before the first decision, seat by seat, from the caller's arguments alone: each funded seat has posted the smaller of its stack and its ante plus blinds, and is active exactly when chips are left and its hand is live |
| Forced.OverAtOnce | crates/poker-engine/src/game/engine.rs:82-86 | A hand is over before anybody is asked exactly when no live seat has chips behind its forced bets |
| Forced.WithinIsForced | crates/poker-engine/src/game/engine.rs:135-174 | No active seat starts past the bet to call exactly when no seat left with chips was made to post more than the big blind |
| Theorems.ResultsSumToZero | crates/poker-engine/src/game/engine.rs:753-772 | The reported chip deltas of a finished hand sum to zero |
| Ledger.FinalChips | crates/poker-engine/src/game/engine.rs:665-681 | The final stacks add up to the starting stacks |
| Ledger.AwardPaysOut | crates/poker-engine/src/game/engine.rs:673-682 | An uncontested award pays the winner exactly what was committed |
| Theorems.ShowdownLevel | crates/poker-engine/src/game/engine.rs:201-236 | At every showdown, whatever blinds and antes: the seats that could still bet have all committed the same, at least the big blind, and no other seat more, unless what it was made to post alone exceeded the big blind, and then no more than that |
| Order.CollectLevel | crates/poker-engine/src/game/engine.rs:314-336 | A closed round leaves the seats that can bet level with each other, and every other seat at most level or at what it was made to post |
| Order.BlindsDistinct | crates/poker-engine/src/game/engine.rs:702-713 | With two funded seats the small and the big blind are different seats |
| Order.ActProgress | crates/poker-engine/src/game/engine.rs:338-405 | An allowed action either puts chips in, or settles its seat and unsettles no other |
| Theorems.StepShrinks | crates/poker-engine/src/game/engine.rs:314-405 | Every allowed step shrinks the measure built from chips behind, streets left and unsettled seats |
| Theorems.HandEnds | crates/poker-engine/src/game/engine.rs:300-409 | Under allowed play every hand ends within an explicit number of decisions |
| Theorems.HandCanEnd | crates/poker-engine/src/game/engine.rs:300-409 | Every such hand has legal answers that finish it, so the results about finished hands are not about nothing |
| Limits.EndsExactlyWhenBounded | crates/poker-engine/src/game/engine.rs:321-336 | For a positive big blind, allowed play always ends if and only if at most one hand is live or no seat left with chips behind its forced bets was made to post more than the big blind |
| ZeroBlind.EndsExactlyWhen | crates/poker-engine/src/game/engine.rs:314-336 | For every call whatever its blinds: allowed play always ends if and only if at most one hand is live, or no seat left with chips was made to post more than the big blind and, where that is zero, at most one seat is left with chips |
| Limits.AnteOverbets | crates/poker-engine/src/game/engine.rs:135-172 | With an ante, two live hands and a big blind seat left with chips, allowed play need not end |
| Limits.NeverEnds | crates/poker-engine/src/game/engine.rs:314-336 | The endless run itself: from an overbet seat, checking and calling can go on for any number of decisions |
| Limits.BlindsPayBySeat | crates/poker-engine/src/game/engine.rs:82-86 | When forced bets leave nobody able to act, the lowest live seat takes the whole pot; that stays within its entitlement if and only if no live hand posted more |
| Limits.LoneFoldLosesChips | crates/poker-engine/src/game/pot_calc.rs:68-72 | With a single live hand able to act and something posted, a fold ends the hand, pays nothing although chips were committed, and so breaks the payout |
| Witnesses.AnteRunsOn | crates/poker-engine/src/game/engine.rs:135-172 | Blinds 1 and 2, ante 1, two stacks of 10: allowed play need not end |
| Witnesses.BlindsOverpay | crates/poker-engine/src/game/engine.rs:82-86 | Blinds 1 and 2, stacks 1 and 2: seat 0 is paid more than its entitlement |
| Witnesses.LoneSeatFolds | crates/poker-engine/src/game/pot_calc.rs:68-72 | Blinds 1 and 2, one stack of 10: a fold loses the forced bets |
| Witnesses.OneChipReopens | crates/poker-engine/src/game/engine.rs:585-594 | Blinds 5 and 10, stacks 20, 100, 21, 16: after all-ins to 16 and 20 and a call, an all-in to 21 lets the caller, who owes one chip, raise again |
| Limits.DecisionFits | crates/poker-engine/src/game/engine.rs:453-610 | With big blind and total chips at most 2^31-1, no unsigned sum at a decision wraps |
| Limits.EndFits | crates/poker-engine/src/game/engine.rs:753-772 | ... and at the end of any hand, with whatever live seats, every side-pot slice, stack, payout and reported delta fits its type |
| Story.ActionReportsPot | crates/poker-engine/src/game/engine.rs:603-607 | The pot figure an action reports is exactly the chips committed once it is applied, and never shrinks |
| Theorems.StreamShape | crates/poker-engine/src/game/engine.rs:47-98 | Every stream follows the grammar: one start, forced bets, hole cards, actions with a non-decreasing pot, boards of 3, 1 and 1 cards in street order, one end; at every decision and at the end its last pot figure is exactly the chips committed |
| Theorems.CardsDistinct | crates/poker-engine/src/game/engine.rs:176-239 | From a deck of distinct cards with room for two a seat and a board, no card is dealt twice and the deck never runs out |
| DeckShuffle.ShuffledDeck.constructor | crates/poker-engine/src/core/deck.rs:18-26 | A new deck is the 52 cards shuffled by the generator outputs: all there, none twice |
| DeckShuffle.ShuffledDeck.Shuffle | crates/poker-engine/src/core/deck.rs:45-52 | The in-place swaps from the top down do the specified shuffle |
| DeckShuffle.ShuffledDeck.Deal | crates/poker-engine/src/core/deck.rs:32-39 | The card at the cursor, which moves by one |
| DeckShuffle.LastCardDrawn | crates/poker-engine/src/core/deck.rs:45-52 | Each draw names, among the cards not yet placed, the one that goes last |
| DeckShuffle.ShuffleIsPermutation | crates/poker-engine/src/core/deck.rs:45-52 | For any generator outputs the shuffle is a permutation |
| DeckShuffle.ShuffleIsInjective | crates/poker-engine/src/core/deck.rs:45-52 | Different draws give different orders |
| DeckShuffle.ShuffleReachesAll | crates/poker-engine/src/core/deck.rs:45-52 | Every order of the deck comes out for some draws; with the previous row, for exactly one list of draws |
| DeckShuffle.DealIsSound | crates/poker-engine/src/game/engine.rs:176-239 | A hand of up to 23 seats dealt from a shuffled deck never repeats a card nor runs out, whatever was drawn and played |
| Sinks.BroadcastSink.HandleEvent | crates/poker-server/src/table.rs:751-809 | The sink's own thread handling an event: log, folded set, board count, and at every link the push into the buffer and the sending of the message |
| Sinks.BroadcastSink.Close | crates/poker-server/src/table.rs:779-807 | At the end every seat is sent its own masked result, then every buffer is sealed |
| Sinks.BroadcastSink.BroadcastAll | crates/poker-server/src/table.rs:709-718 | One message into every seat's stream and buffer |
| Sinks.FanOut | crates/poker-server/src/table.rs:709-729 | At each link an event is its separate steps one after the other: begin, push, send, seal |
| Links.BufferIsProjection | crates/poker-server/src/connection.rs:220-234 | At any point of a hand, whatever reconnects, replays and table news come between any two steps of the hand's thread, a seat's buffer is exactly the in-order masked projection of the engine's events and its own prompts |
| Links.SnapshotsOnlyOfThisHand | crates/poker-server/src/connection.rs:243-260 | A replay is read under the running hand's id only, and under none once the buffer is sealed |
| Links.OnlyOwnHoleCards | crates/poker-server/src/table.rs:765-768 | Nothing a seat is ever sent, live or inside a replay, over any reconnects, carries another seat's `HoleCardsDealt` |
| Links.ReplaysAreAskedFor | crates/poker-server/src/session.rs:363-393 | Over every course: a connection is sent a replay only if one was asked for over it; one asked for over the connection before it is lost with that |
| Sinks.SinkAgrees | crates/poker-server/src/table.rs:769-778 | At every point of every server hand the sink's folded seats, board count, contender count and log are the engine's |
| Sinks.SinkKnowsShowdowns | crates/poker-server/src/table.rs:731-736 | The sink's showdown test is true exactly when the engine paid through its showdown |
| Sinks.MaskedResult | crates/poker-server/src/table.rs:731-747 | The masked result shows a seat its own cards, and another seat's exactly when the hand was shown down and that seat had not folded |
| Sinks.EverySeatIsTold | crates/poker-server/src/table.rs:709-778 | At every point of every hand, what each seat has been sent of it and what its buffer holds under the hand's number is the engine's stream without the others' hole cards, in order |
| Sinks.SinkKeepsCourse | crates/poker-server/src/table.rs:751-809 | The steps by which the sink tells a seat a hand are a course of its link with the hand's log, so what is proved of courses holds of every hand |
| Tables.Table.Sit | crates/poker-server/src/table.rs:138-166 | Refuses a small buy-in, a seated player or a full table, in that order; otherwise takes the first free seat under a new link |
| Tables.SittingDown | crates/poker-server/src/table.rs:138-166 | In plain terms: refused below ten big blinds, then if the player has a seat, then if all seats are taken, and for no other reason; otherwise the lowest empty seat, the chips brought, a link of its own, nothing else changed |
| Tables.LeastBuyInExactly | crates/poker-server/src/table.rs:143-147 | Ten big blinds are computed exactly up to a big blind of 429496729 and for no larger one |
| Tables.Table.Leave | crates/poker-server/src/table.rs:262-280 | Immediate between hands, only marked during one; reports whether the player was seated |
| Tables.Table.ForceLeave | crates/poker-server/src/table.rs:289-317 | As leaving, unless another session owns the seat |
| Tables.StandingUp | crates/poker-server/src/table.rs:262-317 | In plain terms: between hands the seat empties, during one it is only marked, and a session that no longer owns its link does nothing; no other seat changes |
| Tables.NotSeatedStays | crates/poker-server/src/table.rs:262-317 | Leaving without a seat, by either way, changes nothing |
| TableRuns.LeavingCarries | crates/poker-server/src/table.rs:262-280 | Leaving between hands takes the chips away at once and books them to the player; during a hand only the mark changes |
| TableRuns.ReconnectTakesOver | crates/poker-server/src/table.rs:179-228 | After a reconnect the seat is owned by the new session: an earlier one can no longer vacate or mark it, the new one can |
| Tables.Table.ClaimHand | crates/poker-server/src/table.rs:465-480 | Claims a hand exactly when none is in progress and enough seats are taken |
| Tables.Table.TakeRunningSnapshot | crates/poker-server/src/table.rs:500-532 | Numbers the hand and snapshots the seats able to post the big blind, in seat order |
| Tables.Table.ApplyHandResult | crates/poker-server/src/table.rs:597-653 | Credits results, clears leavers and busted seats, ends the hand, and moves the button to the first occupied seat clockwise of its old place, over the seats that are left |
| Tables.ResultLands | crates/poker-server/src/table.rs:597-639 | What a result makes of a seat: its chips change by the result for it, stopping at zero, and it empties exactly if its player is leaving or has none left |
| Tables.ButtonMovesOn | crates/poker-server/src/table.rs:622-653 | After a result the button is, of the occupied seats, the one with the fewest seats clockwise counted from one past the old button; it stays where it was only if no other seat is occupied |
| Tables.SeatsTakenCount | crates/poker-server/src/table.rs:465-480 | The quorum counts the seats that are taken, each once |
| TableRuns.FreshOk | crates/poker-server/src/table.rs:95-111 | A new table satisfies both invariants of every run |
| Tables.PlayingComplete | crates/poker-server/src/table.rs:505-520 | No seat able to post the big blind is left out of the snapshot |
| Tables.PlayingExactly | crates/poker-server/src/table.rs:505-520 | A seat is in the snapshot exactly if it is taken by somebody with at least the big blind |
| Tables.DealerFollowsButton | crates/poker-server/src/table.rs:522-529 | The engine's dealer is the playing seat first reached clockwise from the button |
| TableRuns.ServerResults | crates/poker-server/src/table.rs:534-585 | A finished server hand returns one result per seat in seat order, none below minus the stack, summing to zero |
| TableRuns.SeatsKept | crates/poker-server/src/table.rs:366-416 | Every move of players, sessions and the table actor, on a table with any blinds, keeps seats, links, snapshot and button in order |
| TableRuns.BooksKept | crates/poker-server/src/table.rs:366-416 | Every move on a table with a positive big blind keeps results, stored rows and accounts in order |
| TableRuns.RunKeeps | crates/poker-server/src/table.rs:138-639 | After any moves in any order: the seat invariant on every table, and the books' invariant on every table with a positive big blind |
| TableRuns.RunningSeatsFixed | crates/poker-server/src/table.rs:262-317 | On every table, from snapshot to applied result, everyone dealt in keeps seat and stack, whatever the others do |
| TableRuns.DealtIsFinal | crates/poker-server/src/table.rs:500-532 | On every table, who was dealt into a numbered hand never changes afterwards |
| TableRuns.ButtonLeadsToDealer | crates/poker-server/src/table.rs:522-529 | In every run the button is a seat of the table, and the dealer of a hand is the playing seat first reached clockwise from it |
| TableRuns.ButtonBetweenHands | crates/poker-server/src/table.rs:597-653 | From any hand to the next in any run: the first is applied exactly once in between, and the second has the button on the first occupied seat clockwise of the old place, of the seats left then; the dealer of each is the playing seat first reached from its button |
| TableRuns.ResultsReachTheirPlayers | crates/poker-server/src/table.rs:588-607 | Each delta and its persisted row go to the player who played it, and the clamp at zero never acts |
| TableRuns.AccountsBalance | crates/poker-server/src/table.rs:597-625 | For each player, chips at the table plus chips carried away are buy-ins plus results; over all players chips at the table plus carried away are exactly the buy-ins |
| TableRuns.RecordsNameWhoPlayed | crates/poker-server/src/table.rs:425-461 | Every stored hand names, row by row, who was dealt that seat; no hand is stored twice |
| TableRuns.HandIsStored | crates/poker-server/src/table.rs:425-461 | A hand that has been played is applied and stored as one record: its number and, row by row, seat, player dealt in there, and result |
| TableLimits.RecordsTrueExactlyWhen | crates/poker-server/src/table.rs:436-448 | On a table of the server's kind, stored rows always name who was dealt that seat if and only if the big blind is positive |
| TableLimits.ZeroBlindMisnames | crates/poker-server/src/table.rs:508-520 | The run that shows it: with a zero big blind a player who bought in for nothing is dealt in, has no result, and the next player's row carries their name |
| Prompts.Connection.DeliverAction | crates/poker-server/src/connection.rs:96-114 | Succeeds exactly when a prompt of that table and hand is pending, the action is legal for it and the asker still listens; the responder is then spent and gone |
| Prompts.Connection.CancelPending | crates/poker-server/src/connection.rs:116-131 | Marks the connection departed and drops its responder |
| Prompts.NextKeeps | crates/poker-server/src/remote_agent.rs:50-120 | Every lock-sized step of agents, sessions, reconnects and timeouts keeps the prompt invariant |
| Prompts.RespondersAreLinear | crates/poker-server/src/table.rs:203-227 | In every interleaving a prompt's responder is in at most one place, somewhere exactly while unspent, and spent at most once |
| Prompts.AnswersAreLegal | crates/poker-server/src/remote_agent.rs:50-120 | In every interleaving `act` returns an action legal for the very legal set it was asked with: a fold, or exactly the action that prompt's one responder was spent on |
| Answers.DeliveredIsReturned | crates/poker-server/src/remote_agent.rs:98-108 | Once an action has been delivered to a listening agent, whatever else happens short of that agent's own timeout, `act` returns exactly that action |
| Answers.AnswersAreDelivered | crates/poker-server/src/remote_agent.rs:98-119 | Over every run: `act` returns something else than the action its prompt's responder was spent on only if that agent ran out of time while listening for it |
| Answers.AnswersTraceBack | crates/poker-server/src/remote_agent.rs:50-119 | Over every run: each answer but a fold was asked for at one move and delivered at a later one by a connection naming the table and hand of that very question, and is legal for it |
| Answers.DeliveryReaches | crates/poker-server/src/connection.rs:96-114 | A legal action naming the table and hand of the prompt waiting with a connection reaches the agent listening for it |
| Answers.TimedOutFolds | crates/poker-server/src/remote_agent.rs:103-119 | An agent that runs out of time folds and leaves no prompt waiting with the connection its seat is bound to by then |
| Answers.DepartedFolds | crates/poker-server/src/remote_agent.rs:56-64 | A player whose connection has left before the prompt is placed folds at once, unasked |
| Answers.CancelledFolds | crates/poker-server/src/connection.rs:116-131 | A player who leaves while the prompt waits has it dropped, and the agent folds |
| Answers.ReconnectCarries | crates/poker-server/src/table.rs:179-228 | A reconnect that nothing interrupts binds the new connection and takes the waiting prompt along |
| Reach.StrandedExactly | crates/poker-server/src/table.rs:179-228 | A move takes an open prompt out of its player's reach exactly when it places it with a connection the seat is no longer bound to, rebinds the seat while it waits with the bound connection or is being brought there by another reconnect, or lifts it for another seat |
| Reach.InReachExactlyWhen | crates/poker-server/src/table.rs:179-228 | Over every run: a prompt is within its player's reach all along exactly when no move of the run is one of those |
| Reach.CalmRunsReach | crates/poker-server/src/remote_agent.rs:50-76 | Over every run in which no lift-to-rebind window of a seat overlaps a look-up-to-placing window or another reconnect of the seat, every open prompt is with its agent, with the bound connection, or in the hands of the seat's one reconnect |
| Reach.InReachIsAnswerable | crates/poker-server/src/connection.rs:96-114 | A listening agent's open prompt within reach is being brought by a reconnect of the seat, or the bound connection can deliver exactly its legal actions |
| Reach.ReboundBeforePlacing | crates/poker-server/src/remote_agent.rs:50-76 | Overlap of the first kind: the seat rebound between look-up and placing strands the prompt |
| Reach.PlacedWhileLifted | crates/poker-server/src/table.rs:203-216 | Of the second kind: placing between a reconnect's lifting and its rebinding strands the prompt |
| Reach.ReboundOverWaiting | crates/poker-server/src/table.rs:203-220 | Of the third kind: a reconnect that has lifted rebinds the seat over a prompt another one put down |
| Reach.ReboundOverCarried | crates/poker-server/src/table.rs:203-220 | Of the fourth kind: a reconnect rebinds the seat before another has put its prompt down |
| Reach.StrandedByReconnect | crates/poker-server/src/table.rs:203-220 | The schedule of a whole reconnect between look-up and placing |
| Reach.StrandedWithinReconnect | crates/poker-server/src/table.rs:203-220 | The schedule of placing inside a reconnect |
| Reach.StrandedByTwo | crates/poker-server/src/table.rs:203-220 | The schedule of two overlapping reconnects of one seat |
| ServerRuns.AnsweredIsAllowed | crates/poker-server/src/remote_agent.rs:50-120 | A hand driven by answers of remote agents is a hand of allowed play |
| ServerRuns.PromptedHandEnds | crates/poker-server/src/table.rs:534-585 | Hence every prompted hand in which no seat able to act was made to post more than a positive big blind ends after finitely many answers |
| ClientCores.ClientCore.HandleIntent | crates/poker-client-core/src/core.rs:87-163 | Each user intent changes the client and emits effects as specified |
| ClientCores.ClientCore.HandleSubmitAction | crates/poker-client-core/src/core.rs:178-226 | Submits only against an armed prompt and only what is legal for it; disarms, keeps the prompt |
| ClientCores.ClientCore.HandleInbound | crates/poker-client-core/src/core.rs:232-367 | Each server message changes the client as specified; a replay feeds its messages back in order |
| ClientCores.ClientCore.ProjectEngineEvent | crates/poker-client-core/src/core.rs:373-487 | Each engine event changes the current hand as specified, for the current table only |
| ClientCores.ClientCore.ProjectAction | crates/poker-client-core/src/core.rs:422-452 | The pot, folded seats and street bets after an action |
| ClientCores.SetBet | crates/poker-client-core/src/core.rs:518-524 | A seat's entry is replaced, or appended if there is none |
| Clients.BetsShown | crates/poker-client-core/src/core.rs:430-457 | What is shown in front of each seat after an action: a raise shows its total, a check or call the most anybody is shown to have bet, a fold or all-in what was there; nobody else changes and no seat is listed twice |
| StreetBets.ClientShowsBets | crates/poker-client-core/src/core.rs:430-471 | Whenever a client has been told every event of a hand at a decision after the flop, by live events, prompts, reconnects and replays in any mix, the street bets it shows are the engine's exactly if nobody has gone all-in on the street |
| StreetBets.ShownExactly | crates/poker-client-core/src/core.rs:458-471 | The same of the stream itself, at every such decision of allowed play |
| Clients.SeatNews | crates/poker-client-core/src/core.rs:272-303 | Joining seats the client with nothing on the table; news of its own table replaces seats and button, news of another changes nothing |
| Clients.PlayFlat | crates/poker-client-core/src/core.rs:345-364 | A run with replays is the run of the messages they hold |
| ClientRuns.ClientSafe | crates/poker-client-core/src/core.rs:308-344 | Over all runs: awaiting exactly when legal actions are shown, equal to the stored prompt's; the stored prompt is the last received; submissions never exceed prompts plus rejections |
| ClientRuns.SubmissionsAnswerLatestPrompt | crates/poker-client-core/src/core.rs:178-226 | Whatever the next intent, message or replay, a submission it causes is legal for the latest prompt and carries its table and hand |
| ClientRuns.PromptCanBeAnswered | crates/poker-client-core/src/core.rs:178-226 | A prompt that arrives during a hand can be answered from then on, whatever the hand brings in between: a legal action is sent, once; a second attempt sends nothing; a rejection opens the prompt for one more |
| ClientRuns.LoginIsSent | crates/poker-client-core/src/core.rs:165-176 | A login is sent at once over an open connection, and otherwise when it opens, exactly once |
| ClientRuns.ReplayForgetsThePast | crates/poker-client-core/src/core.rs:387-395 | Messages from a hand's start on give the same hand and prompt to two clients in one seat, whatever they saw before |
| ClientRuns.ReplayAgreesWithLive | crates/poker-client-core/src/core.rs:345-364 | A replay rebuilds the state of the client that lived through the hand, except awaiting, legal actions and deadline |
| Views.ReplayRebuildsTheHand | crates/poker-server/src/table.rs:179-228 | End to end, with prompts, table news, reconnects and replays between any two steps: a client told just what one that never lost its connection was told has the same hand and prompt, up to the three prompt fields; one told by a replay also the event on its way has those of one already sent it; from a reconnect until it is replayed it shows no hand |
| Views.SightTells | crates/poker-server/src/table.rs:709-729 | The invariant behind it, step by step of every thread |
| Mirror.ReplayShowsItsReading | crates/poker-server/src/session.rs:363-393 | A replay shows the hand as of the moment the buffer was read, and the hand as it is exactly if the events since are no news: no board cards, no new fold or all-in, no other pot figure, no new hole cards of its own |
| Mirror.DoubledExactly | crates/poker-server/src/table.rs:709-718 | A client that a replay told the event on its way is then sent it: it still shows the hand exactly if the event was not board cards |
| Mirror.FlopShownTwice | crates/poker-server/src/table.rs:709-718 | The schedule: the flop pushed, a replay read and sent, the flop sent; the client's board holds it twice |
| Views.ProjectAgain | crates/poker-client-core/src/core.rs:373-487 | Of the events of a hand in progress only board cards make a difference the second time |
| Mirror.ClientMirrorsEngine | crates/poker-client-core/src/core.rs:373-487 | At every point of every server hand, a client that has been told every event shows the engine's board, folded and all-in seats and (its seat number being the engine's) its own hole cards, and at a decision the street and, once somebody acted, the pot, whatever it did and was sent in between |
| AfterHand.ShownAfterTheEnd | crates/poker-server/src/session.rs:363-393 | From the end of a hand until the next begins, whatever news, reconnects and replays come, a seat's client shows no hand, exactly unless its connection is sent a replay that was read before the end; then it shows the finished hand again |
| AfterHand.SinkCloses | crates/poker-server/src/table.rs:779-807 | The closing event sends each seat its own view of the result and seals its buffer, after which its client shows no hand, and the sink starts afresh |
| Sims.SeedsPartition | crates/poker-engine/src/sim/mod.rs:249-265 | For any total and thread count, each offset below the total is run by exactly one thread, once, and no other offset is run |
| Sims.HandsAddUp | crates/poker-engine/src/sim/mod.rs:249-257 | The threads' hand counts add up to the total |
| Sims.FirstSeed | crates/poker-engine/src/sim/mod.rs:308-320 | A thread's first seed is the base plus the hands of the threads before it |
| Sims.Merge | crates/poker-engine/src/sim/mod.rs:79-93 | Hands and per-seat deltas are summed over workers, stacks are the last worker's |
| Sims.SimRunner.Run | crates/poker-engine/src/sim/mod.rs:163-221 | The runner plays hand after hand through the engine with the specified stacks, seeds, totals and dealer |
| Sims.DealerMovesOn | crates/poker-engine/src/sim/mod.rs:296-305 | The next dealer is the first seat clockwise that has chips after the hand, the same one if none has; hands are numbered one after the other |
| Sims.HandLands | crates/poker-engine/src/sim/mod.rs:181-210 | A simulated hand is dealt with its own seed, deck, number, dealer and stacks, and adds to each seat's total exactly what its stack gained or lost in the engine |
| Sims.SeedOfHand | crates/poker-engine/src/sim/mod.rs:308-320 | Hand i of thread t is dealt with the seed at its place in the whole run |
| Sims.HandFits | crates/poker-engine/src/game/engine.rs:753-772 | A finished hand reports each seat at most once, in order, and no seat loses more than its stack |
| Sims.StacksCarry | crates/poker-engine/src/sim/mod.rs:282-293 | In a persistent run every stack is always the starting stack plus the accumulated delta (the clamp never acts); otherwise stacks never change |
| Sims.RunNets | crates/poker-engine/src/sim/mod.rs:181-210 | As long as each hand starts with two funded seats the accumulated deltas sum to zero |
| Frames.EncodeThenParse | crates/poker-engine/src/net/frame.rs:39-59 | A frame is refused exactly when its payload is over 4 MiB; otherwise its prefix parses to the payload length and the rest is the payload |
| Frames.LittleEndian | crates/poker-engine/src/net/frame.rs:39-48 | Byte k of the prefix is the digit of 256 to the k of the length: least significant first |
| Frames.FileSink.OnEvent | crates/poker-engine/src/game/event.rs:111-119 | Appends exactly one frame for the event |
| Frames.ReadEventLog | crates/poker-engine/src/game/event.rs:134-153 | The framing loop, with its two ways of meeting the end of the file |
| Frames.ReadCutLog | crates/poker-engine/src/game/event.rs:139-152 | Reading a log of values the codec gives back, cut after any number of bytes: the whole events before the cut if it falls within three bytes of a frame boundary, an error otherwise |
| Frames.LogRoundTrip | crates/poker-engine/src/game/event.rs:112-153 | Reading a written log gives back exactly the events written |
| Frames.WriteThenRead | crates/poker-engine/src/game/event.rs:111-153 | Engine events written one by one through the file sink and read back by the reader are the events written |
| Frames.RecordReadsBack | crates/poker-server/src/table.rs:702-707 | The table's stored record of a hand reads back as its events, minus those over 4 MiB |

## Left out

- Hand evaluators, built-in agents, personas, training, statistics and reports: no exact claim, or a finite table.
- `action_on` (written, never read by the engine) and the engine's side-pot list (always empty before a showdown).
- PotLimit and FixedLimit: the caps are in the legal-action function, but the results about what is offered are for No-Limit.
- Agent callbacks other than `act`, and the observation handed to agents.
- Account registry, passwords, session keys, sockets, rate limits, deadlines as times, bounded outgoing queues (a dropped message is not modelled).
- Payload serialization: any pair of functions with the decoder inverting the encoder; disk errors are not modelled.
- Random seeds of the simulator: sequential seeds only; the generator behind a shuffle is any list of draws in range.
- Simulated hands that nobody can play or whose agents never finish: the runner is modelled on the others.
- `TableManager` and its record of who sits where, which the code does not keep in step with the seats.
- The sink's engine seat numbers reach clients that know table seats: where the two must agree, as for hole cards, the lemma says so.
- Tables with `min_seats` below 2 or a zero big blind in the results about accounts and records: the server builds none (crates/poker-server/src/main.rs:74-82), and `TableLimits.RecordsTrueExactlyWhen` shows the second to be needed.
- The bytes of a prompt message on its way out are not part of the state in which responders live; the message itself is, in `Links`.
- Street bets shown before the flop: forced bets are not events, so a client shows them only from the seat's first action on.
- `LeftTable` and `Goodbye` in the results that set a client against its seat: the player stays at the table there.
