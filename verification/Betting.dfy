/** One decision of a betting round: what is legal, how a submitted action is normalized and
    what it does to the game (game/engine.rs, shared by the engine and the tree). */
module Betting {
  import opened Types
  import opened Sums
  import opened Seats
  import opened PotCalc

  function ActiveOf(p: Player): nat { if p.status.Active? then 1 else 0 }
  function StillInOf(p: Player): nat { if p.StillIn() then 1 else 0 }
  function StackOf(p: Player): nat { p.stack }

  function ActiveCount(ps: seq<Player>): nat { Sum(ps, ActiveOf) }
  function StillInCount(ps: seq<Player>): nat { Sum(ps, StillInOf) }
  function Chips(ps: seq<Player>): nat { Sum(ps, StackOf) }

  function ActiveMask(ps: seq<Player>): (m: seq<bool>)
    ensures |m| == |ps| && forall s :: 0 <= s < |ps| ==> m[s] == ps[s].status.Active?
  {
    seq(|ps|, s requires 0 <= s < |ps| => ps[s].status.Active?)
  }

  function StillInMask(ps: seq<Player>): (m: seq<bool>)
    ensures |m| == |ps| && forall s :: 0 <= s < |ps| ==> m[s] == ps[s].StillIn()
  {
    seq(|ps|, s requires 0 <= s < |ps| => ps[s].StillIn())
  }

  /** A seat that must still act in this round. */
  predicate Unsettled(p: Player, currentBet: nat, responded: bool) {
    p.status.Active? && !(p.bet == currentBet && responded)
  }

  function UnsettledMask(g: Game, responded: seq<bool>): (m: seq<bool>)
    requires |responded| == |g.players|
    ensures |m| == |g.players|
    ensures forall s :: 0 <= s < |m| ==> m[s] == Unsettled(g.players[s], g.currentBet, responded[s])
  {
    seq(|g.players|, s requires 0 <= s < |g.players| => Unsettled(g.players[s], g.currentBet, responded[s]))
  }

  function NextActiveAfter(from: nat, ps: seq<Player>): (r: Option<nat>)
    ensures r.Some? ==> r.value < |ps| && ps[r.value].status.Active?
  {
    Scan(ActiveMask(ps), from, 1)
  }

  function Owed(g: Game, seat: nat): nat
    requires seat < |g.players|
  {
    Monus(g.currentBet, g.players[seat].bet)
  }

  function ComputeLegal(rules: Rules, g: Game, seat: nat, canReopen: bool): LegalActions
    requires seat < |g.players|
  {
    var p := g.players[seat];
    var owed := Owed(g, seat);
    var minTotal := g.currentBet + g.minRaise;
    var everything := p.stack + p.bet;
    LegalActions(
      owed == 0,
      owed > 0 && p.stack > owed,
      Min(owed, p.stack),
      canReopen && (if rules.variant.FixedLimit? then everything >= minTotal else everything > minTotal),
      minTotal,
      match rules.variant
        case NoLimit => everything
        case PotLimit => Min(everything, owed + (g.pot + owed) + (g.pot + owed))
        case FixedLimit => minTotal,
      p.stack)
  }

  /** A raise of the whole stack is an all-in; a short raise that is not is downgraded. */
  function Normalize(g: Game, seat: nat, a: Action): Action
    requires seat < |g.players|
  {
    if !a.Raise? then a
    else if Monus(a.amount, g.players[seat].bet) >= g.players[seat].stack then Action.AllIn
    else if a.amount < g.currentBet + g.minRaise then if Owed(g, seat) == 0 then Check else Call
    else a
  }

  /** Chips move from the stack to the street bet. */
  function Spend(p: Player, chips: nat): Player
    requires chips <= p.stack
  {
    p.(stack := p.stack - chips, bet := p.bet + chips, committed := p.committed + chips)
  }

  function SpendOrShove(p: Player, chips: nat): Player
    requires chips <= p.stack
  {
    var q := Spend(p, chips);
    if q.stack == 0 then q.(status := Status.AllIn) else q
  }

  /** The acting seat after its (normalized) action. */
  function Actor(g: Game, seat: nat, a: Action): Player
    requires seat < |g.players|
  {
    var p := g.players[seat];
    match a
    case Fold => p.(status := Folded)
    case Check => p
    case Call => SpendOrShove(p, Min(Owed(g, seat), p.stack))
    case Raise(amount) => Spend(p, Min(Monus(amount, p.bet), p.stack))
    case AllIn => Spend(p, p.stack).(status := Status.AllIn)
  }

  /** Does the action count as a full raise (or complete one with earlier short all-ins)? */
  predicate Aggression(g: Game, seat: nat, a: Action)
    requires seat < |g.players|
  {
    var bet := Actor(g, seat, a).bet;
    match a
    case Raise(_) => true
    case AllIn => bet > g.currentBet && (bet - g.currentBet >= g.minRaise ||
      g.shortSum + (bet - g.currentBet) >= g.minRaise)
    case _ => false
  }

  /** The betting registers after the action; the raise arm is the wrapping-free reading of
      `new_total - current_bet`, which `NormalizedRaiseIsFull` justifies. */
  function Registers(g: Game, seat: nat, a: Action): Game
    requires seat < |g.players|
  {
    var bet := Actor(g, seat, a).bet;
    match a
    case Raise(_) =>
      g.(minRaise := Monus(bet, g.currentBet), shortSum := 0, currentBet := bet, lastAggressor := Some(seat))
    case AllIn =>
      if bet <= g.currentBet then g
      else
        var inc := bet - g.currentBet;
        var h := g.(currentBet := bet, lastAggressor := Some(seat));
        if inc >= g.minRaise then h.(minRaise := inc, shortSum := 0) else h.(shortSum := g.shortSum + inc)
    case _ => g
  }

  function ApplyAction(g: Game, seat: nat, a: Action): Game
    requires seat < |g.players|
  {
    Registers(g, seat, a).(players := g.players[seat := Actor(g, seat, a)])
  }

  function ActionEvents(g: Game, seat: nat, a: Action): seq<Event>
    requires seat < |g.players|
  {
    var q := Actor(g, seat, a);
    (if a.AllIn? || (a.Call? && q.stack == 0) then [PlayerAllIn(seat, q.committed)] else []) +
    [ActionTaken(seat, a, g.pot + SumBets(g.players[seat := q]))]
  }

  /** `has_responded` after the seat acted. */
  function Respond(responded: seq<bool>, seat: nat, aggression: bool): (r: seq<bool>)
    requires seat < |responded|
    ensures |r| == |responded|
    ensures forall i :: 0 <= i < |r| ==> r[i] == (i == seat || (responded[i] && !aggression))
  {
    seq(|responded|, i requires 0 <= i < |responded| => i == seat || (responded[i] && !aggression))
  }

  // ---------------------------------------------------------------------------
  // The debug assertions and Rule 47A
  // ---------------------------------------------------------------------------

  /** What the source asserts about a raise it is about to apply. */
  lemma NormalizedRaiseIsFull(g: Game, seat: nat, a: Action)
    requires seat < |g.players| && Normalize(g, seat, a).Raise?
    ensures var b := Normalize(g, seat, a); var q := Actor(g, seat, b);
            && a == b && q.stack > 0
            && q.bet >= b.amount >= g.currentBet + g.minRaise
  {
  }

  /** Neither assertion of `normalize_action` nor those of `apply_action` fire on an allowed
      action: an allowed raise is never downgraded and strictly raises the bet. */
  lemma NoAssertFires(rules: Rules, g: Game, seat: nat, canReopen: bool, a: Action)
    requires seat < |g.players| && g.minRaise > 0
    requires ComputeLegal(rules, g, seat, canReopen).Allows(a)
    ensures a.Raise? ==>
              && canReopen
              && (Normalize(g, seat, a) == a || Normalize(g, seat, a) == Action.AllIn)
              && Actor(g, seat, Normalize(g, seat, a)).bet > g.currentBet
              && (Normalize(g, seat, a).Raise? ==> Actor(g, seat, Normalize(g, seat, a)).stack > 0)
  {
  }

  /** Exactly what No-Limit offers a seat that may (or may not) raise: folding always; checking
      when nothing is owed; calling when something is owed and chips are left after paying it;
      raising to any total from a full raise over the bet up to everything in front of the seat,
      provided everything is more than the least; all-in with any chips. The quoted prices are what
      those actions cost. */
  lemma OfferExactly(rules: Rules, g: Game, seat: nat, canReopen: bool, a: Action)
    requires seat < |g.players| && rules.variant.NoLimit?
    ensures var p, l := g.players[seat], ComputeLegal(rules, g, seat, canReopen);
            var least, most := g.currentBet + g.minRaise, p.bet + p.stack;
            && (l.IsLegal(a) <==>
                  match a
                  case Fold => true
                  case Check => g.currentBet <= p.bet
                  case Call => p.bet < g.currentBet < most
                  case Raise(x) => canReopen && least < most && least <= x <= most
                  case AllIn => p.stack > 0)
            && p.bet + l.callAmount == Max(p.bet, Min(g.currentBet, most))
            && l.minRaise == least && l.maxRaise == most && l.allInAmount == p.stack
  {
  }

  /** The betting rules as a table would state them. What seat `seat` does to the game by
      submitting `a`, legal or not: naming everything in front of it (or more) is an all-in,
      naming a total of a full raise is a raise, and any other raise is a call, or a check when
      nothing is owed. Calls pay what is owed as far as the stack goes. An all-in over the bet
      counts as a full raise when it is one; a shorter one leaves the raise size and joins the
      sum of short ones. */
  ghost predicate Took(g: Game, seat: nat, a: Action, g': Game)
    requires seat < |g.players|
  {
    |g'.players| == |g.players| &&
    var p, q := g.players[seat], g'.players[seat];
    var paid, over := q.bet - p.bet, q.bet - g.currentBet;
    && g'.players == g.players[seat := q]
    && q.stack + paid == p.stack && q.committed == p.committed + paid && q.hole == p.hole
    && q.status == (if a.Fold? then Folded else if q.stack == 0 then Status.AllIn else p.status)
    && g' == g.(players := g'.players, currentBet := g'.currentBet, minRaise := g'.minRaise,
                shortSum := g'.shortSum, lastAggressor := g'.lastAggressor)
    && if a.AllIn? || (a.Raise? && a.amount >= p.bet + p.stack) then
         && paid == p.stack
         && g'.currentBet == Max(g.currentBet, q.bet)
         && g'.minRaise == Max(g.minRaise, over)
         && g'.shortSum == if over <= 0 then g.shortSum else if over >= g.minRaise then 0 else g.shortSum + over
       else if a.Raise? && a.amount >= g.currentBet + g.minRaise then
         && q.bet == Max(p.bet, a.amount)
         && g'.currentBet == q.bet && g'.minRaise == over && g'.shortSum == 0
       else
         && paid == (if a.Call? || a.Raise? then Min(Monus(g.currentBet, p.bet), p.stack) else 0)
         && g'.currentBet == g.currentBet && g'.minRaise == g.minRaise && g'.shortSum == g.shortSum
  }

  /** Is it a raise that leaves chips behind, or does an all-in lift the bet by a full raise, earlier
      short all-ins counted? */
  predicate Reopened(g: Game, seat: nat, a: Action, g': Game)
    requires seat < |g.players|
  {
    || (a.Raise? && g.currentBet + g.minRaise <= a.amount < g.players[seat].bet + g.players[seat].stack)
    || (g'.currentBet > g.currentBet && g.shortSum + (g'.currentBet - g.currentBet) >= g.minRaise)
  }

  /** A submitted action does what the rules say. */
  lemma SubmittedTakes(g: Game, seat: nat, a: Action)
    requires seat < |g.players| && g.players[seat].status.Active? && g.players[seat].stack > 0
    ensures Took(g, seat, a, ApplyAction(g, seat, Normalize(g, seat, a)))
  {
  }

  /** ... and makes the other seats act again exactly when it is a full raise. */
  lemma SubmittedReopens(g: Game, responded: seq<bool>, seat: nat, a: Action)
    requires seat < |g.players| == |responded| && g.players[seat].stack > 0
    ensures var b := Normalize(g, seat, a);
            forall i :: 0 <= i < |responded| ==>
              Respond(responded, seat, Aggression(g, seat, b))[i] ==
              (i == seat || (responded[i] && !Reopened(g, seat, a, ApplyAction(g, seat, b))))
  {
  }

  /** What is announced of an action that takes the game from `g` to `g'`: who went all-in with
      how much in all, if it took the last chip, then the action as it was understood with the
      chips now in the middle. */
  function Announced(g: Game, seat: nat, a: Action, g': Game): seq<Event>
    requires seat < |g.players| == |g'.players|
  {
    var p, q := g.players[seat], g'.players[seat];
    var understood := if !a.Raise? then a
                      else if a.amount >= p.bet + p.stack then Action.AllIn
                      else if a.amount >= g.currentBet + g.minRaise then a
                      else if p.bet < g.currentBet then Call else Check;
    (if q.status.AllIn? then [PlayerAllIn(seat, q.committed)] else []) +
    [ActionTaken(seat, understood, g.pot + SumBets(g'.players))]
  }

  lemma SubmittedIsAnnounced(g: Game, seat: nat, a: Action)
    requires seat < |g.players| && g.players[seat].status.Active? && g.players[seat].stack > 0
    ensures ActionEvents(g, seat, Normalize(g, seat, a)) ==
            Announced(g, seat, a, ApplyAction(g, seat, Normalize(g, seat, a)))
  {
  }

  /** What the offered actions do when taken in No-Limit: checking is free exactly when nothing
      is owed, a legal call matches the bet with chips to spare and costs the quoted amount, a
      legal raise ends at exactly the amount named, at least a full raise over the bet, and an
      all-in moves the quoted stack. */
  lemma OfferedActionsDo(rules: Rules, g: Game, seat: nat, canReopen: bool, a: Action)
    requires seat < |g.players| && rules.variant.NoLimit? && g.players[seat].bet <= g.currentBet
    requires ComputeLegal(rules, g, seat, canReopen).IsLegal(a)
    ensures var l := ComputeLegal(rules, g, seat, canReopen); var p := g.players[seat];
            var q := Actor(g, seat, Normalize(g, seat, a)); var paid := p.stack - q.stack;
            && q.bet == p.bet + paid && q.committed == p.committed + paid
            && (a.Fold? ==> paid == 0 && q.status.Folded?)
            && (a.Check? ==> paid == 0 && q.bet == g.currentBet)
            && (a.Call? ==> paid == l.callAmount && q.bet == g.currentBet && q.stack > 0)
            && (a.Raise? ==> canReopen && q.bet == a.amount >= g.currentBet + g.minRaise)
            && (a.AllIn? ==> paid == l.allInAmount && q.stack == 0 && q.status.AllIn?)
            && (a.Raise? && q.stack == 0 ==> q.status.AllIn?)
  {
  }

  /** Rule 47A, one direction: a seat that has responded since the last reopening owes only
      short all-ins, which together fall short of a full raise. */
  ghost predicate Rule47A(g: Game, responded: seq<bool>) {
    && |responded| == |g.players|
    && g.minRaise > 0
    && forall i :: 0 <= i < |g.players| && g.players[i].status.Active? && responded[i] ==>
         && g.players[i].bet <= g.currentBet
         && g.currentBet - g.players[i].bet <= g.shortSum
         && (g.players[i].bet < g.currentBet ==> g.shortSum < g.minRaise)
  }

  lemma Rule47AKept(rules: Rules, g: Game, responded: seq<bool>, seat: nat, a: Action)
    requires Rule47A(g, responded) && seat < |g.players|
    requires g.players[seat].bet <= g.currentBet
    requires ComputeLegal(rules, g, seat, !responded[seat]).Allows(a)
    ensures var b := Normalize(g, seat, a);
            Rule47A(ApplyAction(g, seat, b), Respond(responded, seat, Aggression(g, seat, b)))
  {
    NoAssertFires(rules, g, seat, !responded[seat], a);
  }

  /** A seat denied a re-raise owes strictly less than a full raise. */
  lemma DeniedOwesLess(rules: Rules, g: Game, responded: seq<bool>, seat: nat)
    requires Rule47A(g, responded) && seat < |g.players| && g.players[seat].status.Active? && responded[seat]
    ensures Owed(g, seat) < g.minRaise
    ensures !ComputeLegal(rules, g, seat, !responded[seat]).canRaise
  {
  }

  /** Within a street the bet to call and the minimum raise never go down, whatever is submitted. */
  lemma RegistersMonotone(g: Game, seat: nat, a: Action)
    requires seat < |g.players|
    ensures var g' := ApplyAction(g, seat, Normalize(g, seat, a));
            g.currentBet <= g'.currentBet && g.minRaise <= g'.minRaise
  {
  }

  /** How much an all-in would raise the bet. */
  function ShoveRaise(g: Game, seat: nat): nat
    requires seat < |g.players|
  {
    Monus(g.players[seat].bet + g.players[seat].stack, g.currentBet)
  }

  /** The converse of Rule 47A, for one all-in: a seat it gives back the right to raise owes a
      full raise. */
  predicate ReopensForFullRaise(g: Game, responded: seq<bool>, seat: nat, i: nat)
    requires seat < |g.players| == |responded| && i < |g.players|
  {
    var g' := ApplyAction(g, seat, Action.AllIn);
    responded[i] && !Respond(responded, seat, Aggression(g, seat, Action.AllIn))[i] ==> Owed(g', i) >= g'.minRaise
  }

  /** It fails exactly when an all-in below a full raise meets enough earlier short raises while
      the seat has already matched some of them. */
  lemma ReopenedExactly(g: Game, responded: seq<bool>, seat: nat, i: nat)
    requires seat < |g.players| == |responded| && i < |g.players| && i != seat && responded[i]
    requires g.players[i].bet <= g.currentBet
    ensures ReopensForFullRaise(g, responded, seat, i) <==>
            !(&& 0 < ShoveRaise(g, seat) < g.minRaise <= g.shortSum + ShoveRaise(g, seat)
              && Owed(g, i) + ShoveRaise(g, seat) < g.minRaise)
  {
  }

  /** Where such states come from: the all-in that completes a full raise from short ones leaves
      their sum standing, so from then on any all-in over the bet, by one chip even, reopens. */
  lemma ShortSumOutlivesReopening(g: Game, first: nat, second: nat)
    requires first < |g.players| && second < |g.players| && first != second
    requires 0 < ShoveRaise(g, first) < g.minRaise && Aggression(g, first, Action.AllIn)
    requires g.players[second].stack > 0
    ensures var g' := ApplyAction(g, first, Action.AllIn);
            && g'.shortSum >= g'.minRaise
            && (ShoveRaise(g', second) > 0 ==> Aggression(g', second, Action.AllIn))
  {
  }
}
