/** The hand against a rulebook: what each answer does to the table, who is asked next, when a
    street ends and what then, stated seat by seat for every point a hand can reach. */
module Rulebook {
  import opened Types
  import opened Sums
  import opened Seats
  import opened PotCalc
  import opened Showdown
  import opened Betting
  import opened Tree
  import opened EngineRun
  import opened Ledger
  import opened Order
  import opened Story
  import opened Invariants
  import opened Forced
  import opened Theorems

  // ---------------------------------------------------------------------------
  // The rules
  // ---------------------------------------------------------------------------

  /** Two seats can still bet. */
  ghost predicate TwoActive(ps: seq<Player>) {
    exists i, j :: 0 <= i < j < |ps| && ps[i].status.Active? && ps[j].status.Active?
  }

  /** Two seats are still in the hand. */
  ghost predicate TwoIn(ps: seq<Player>) {
    exists i, j :: 0 <= i < j < |ps| && ps[i].StillIn() && ps[j].StillIn()
  }

  ghost predicate OnlyIn(ps: seq<Player>, w: nat) {
    w < |ps| && ps[w].StillIn() && forall i :: 0 <= i < |ps| && i != w ==> !ps[i].StillIn()
  }

  /** Seat `i` still owes the round an answer: it has not matched the bet, or has not spoken
      since the street began or the bet last went up by a full raise. */
  ghost predicate OwesAnswer(g: Game, heard: seq<bool>, i: nat) {
    i < |g.players| == |heard| && g.players[i].status.Active? && (g.players[i].bet != g.currentBet || !heard[i])
  }

  /** Of the seats that owe an answer, the first one clockwise of `from` is asked. */
  ghost predicate AsksNext(g: Game, heard: seq<bool>, from: nat, next: nat) {
    && OwesAnswer(g, heard, next)
    && forall i :: OwesAnswer(g, heard, i) ==> StepsTo(|g.players|, from, next) <= StepsTo(|g.players|, from, i)
  }

  /** Everybody's bets are in the middle and nothing else about the seats has changed. */
  ghost predicate BetsCleared(ps: seq<Player>, qs: seq<Player>) {
    |qs| == |ps| && forall i :: 0 <= i < |ps| ==> qs[i] == ps[i].(bet := 0)
  }

  /** The street after `s`, with so many cards, and the game starting it: no bet to call, the big
      blind as raise size, nobody heard; first asked is the first seat clockwise of the dealer
      that can bet. */
  ghost predicate OpensStreet(rules: Rules, h: Hand, t: Node) {
    var g, n := t.hand.g, |h.g.players|;
    t.phase.Decision? && |g.players| == n && |h.g.board| <= |g.board| &&
    var cards := g.board[|h.g.board|..];
    && (match h.g.street
        case Preflop => g.street == Flop && |cards| == 3
        case Flop => g.street == Turn && |cards| == 1
        case Turn => g.street == River && |cards| == 1
        case _ => false)
    && g.board == h.g.board + cards && t.hand.log == h.log + [BoardDealt(g.street, cards)]
    && g.currentBet == g.shortSum == 0 && g.minRaise == rules.bigBlind
    && BetsCleared(h.g.players, g.players)
    && g.pot == h.g.pot + SumBets(h.g.players)
    && t.phase.responded == Silent(n) && AsksNext(g, Silent(n), g.dealer, t.phase.current)
  }

  // ---------------------------------------------------------------------------
  // Streets
  // ---------------------------------------------------------------------------

  lemma CountTwo(ps: seq<Player>)
    ensures TwoActive(ps) <==> ActiveCount(ps) >= 2
    ensures TwoIn(ps) <==> StillInCount(ps) >= 2
  {
    Two(ps, ActiveOf);
    Two(ps, StillInOf);
  }

  lemma Two<T>(ps: seq<T>, w: T -> nat)
    requires forall i :: 0 <= i < |ps| ==> w(ps[i]) <= 1
    ensures Sum(ps, w) >= 2 <==> exists i, j :: 0 <= i < j < |ps| && w(ps[i]) == 1 && w(ps[j]) == 1
  {
    if i, j :| 0 <= i < j < |ps| && w(ps[i]) == 1 && w(ps[j]) == 1 {
      SumAtLeastTwo(ps, w, i, j);
    }
    if Sum(ps, w) >= 2 { TwoTerms(ps, w); }
  }

  lemma {:induction false} TwoTerms<T>(ps: seq<T>, w: T -> nat)
    requires Sum(ps, w) >= 2 && forall i :: 0 <= i < |ps| ==> w(ps[i]) <= 1
    ensures exists i, j :: 0 <= i < j < |ps| && w(ps[i]) == 1 && w(ps[j]) == 1
  {
    var n := |ps| - 1;
    if w(ps[n]) == 1 {
      var i := SumWitness(ps[..n], w);
      assert w(ps[i]) == 1 && w(ps[n]) == 1;
    } else {
      TwoTerms(ps[..n], w);
      var i, j :| 0 <= i < j < n && w(ps[..n][i]) == 1 && w(ps[..n][j]) == 1;
      assert w(ps[i]) == 1 && w(ps[j]) == 1;
    }
  }

  lemma OnlyInCounts(ps: seq<Player>, w: nat)
    requires OnlyIn(ps, w)
    ensures StillInCount(ps) == 1 && FirstIn(ps) == w && !TwoIn(ps)
  {
    SumUpdate(ps, w, ps[w].(status := Folded), StillInOf);
    SumZero(ps[w := ps[w].(status := Folded)], StillInOf);
  }

  predicate MoreStreets(s: Street) { s.Preflop? || s.Flop? || s.Turn? }

  lemma SameActive(ps: seq<Player>, qs: seq<Player>)
    requires |ps| == |qs| && forall i :: 0 <= i < |ps| ==> ps[i].status == qs[i].status
    ensures ActiveCount(ps) == ActiveCount(qs)
  {
    SumSame(ps, ActiveOf, qs, ActiveOf);
  }

  /** Every seat still holds its cards, its place in the hand and what it committed. */
  ghost predicate SeatsKept(ps: seq<Player>, qs: seq<Player>) {
    |qs| == |ps| && forall i :: 0 <= i < |ps| ==>
      qs[i].status == ps[i].status && qs[i].committed == ps[i].committed && qs[i].hole == ps[i].hole
  }

  /** Nothing more is announced than board cards. */
  ghost predicate OnlyBoards(before: seq<Event>, after: seq<Event>) {
    before <= after && forall k :: |before| <= k < |after| ==> after[k].BoardDealt?
  }

  /** The hands are shown: the board is completed, and nothing about the seats changes but the
      stacks that win. */
  ghost predicate Shows(h: Hand, t: Node) {
    && t.phase.Terminal? && t.hand.g.street == Street.Showdown && h.g.board <= t.hand.g.board
    && SeatsKept(h.g.players, t.hand.g.players) && OnlyBoards(h.log, t.hand.log)
  }

  lemma KeptTwice(h: Hand, c: Hand, r: Hand)
    requires SeatsKept(h.g.players, c.g.players) && SeatsKept(c.g.players, r.g.players)
    requires OnlyBoards(h.log, c.log) && OnlyBoards(c.log, r.log)
    ensures SeatsKept(h.g.players, r.g.players) && OnlyBoards(h.log, r.log)
  {
  }

  lemma OpenedSeats(rules: Rules, h: Hand, street: Street, n: nat)
    ensures var r := Collect(OpenStreet(rules, h, street, n));
            SeatsKept(h.g.players, r.g.players) && h.g.board <= r.g.board && OnlyBoards(h.log, r.log)
  {
  }

  /** With fewer than two seats able to bet the rest of the board is dealt and the hands shown. */
  lemma {:induction false} RunsOut(e: Engine, h: Hand)
    requires ActiveCount(h.g.players) < 2
    ensures Shows(h, NextStreets(e, h))
    decreases StreetsLeft(h.g.street)
  {
    hide ActiveCount, ToShowdown, SeatsKept, OnlyBoards;
    match NextStreet(h.g.street)
    case None => ShownAtShowdown(e, h);
    case Some((street, n)) =>
      var r := OpenStreet(e.rules, h, street, n);
      SameActive(h.g.players, r.g.players);
      SameActive(h.g.players, Collect(r).g.players);
      RunsOut(e, Collect(r));
      OpenedSeats(e.rules, h, street, n);
      KeptTwice(h, Collect(r), NextStreets(e, h).hand);
  }

  lemma ShownAtShowdown(e: Engine, h: Hand)
    ensures Shows(h, ToShowdown(e, h))
  {
    hide ShowdownDeltas, Ranks;
  }

  lemma FirstAsked(g: Game, from: nat)
    requires ActiveCount(g.players) >= 2
    ensures var r := NextActiveAfter(from, g.players); r.Some? && AsksNext(g, Silent(|g.players|), from, r.value)
  {
    hide ActiveCount, Scan, StepsTo;
    CountTwo(g.players);
    forall i | 0 <= i < |g.players| && g.players[i].status.Active?
      ensures var r := Scan(ActiveMask(g.players), from, 1);
              r.Some? && StepsTo(|g.players|, from, r.value) <= StepsTo(|g.players|, from, i)
    {
      assert ActiveMask(g.players)[i];
      ScanIsFirst(ActiveMask(g.players), from, i);
    }
  }

  lemma CollectedSeats(h: Hand, qs: seq<Player>)
    ensures SeatsKept(Collect(h).g.players, qs) ==> SeatsKept(h.g.players, qs)
  {
  }

  /** When a street closes: the next one, if there is one and two seats can bet; else the end. */
  lemma StreetCloses(e: Engine, h: Hand)
    ensures var t := NextStreets(e, Collect(h));
            if TwoActive(h.g.players) && MoreStreets(h.g.street) then OpensStreet(e.rules, h, t)
            else Shows(h, t)
  {
    hide ActiveCount, TwoActive, ToShowdown, AsksNext, SeatsKept, OnlyBoards;
    CountTwo(h.g.players);
    var c := Collect(h);
    CollectedSeats(h, NextStreets(e, c).hand.g.players);
    SameActive(h.g.players, c.g.players);
    if TwoActive(h.g.players) {
      match NextStreet(h.g.street)
      case None => ShownAtShowdown(e, c);
      case Some((street, n)) =>
        var r := OpenStreet(e.rules, c, street, n);
        SameActive(h.g.players, r.g.players);
        FirstAsked(r.g, r.g.dealer);
        assert r.g.board[|h.g.board|..] == Draw(c.deck, n);
    } else {
      RunsOut(e, c);
    }
  }

  // ---------------------------------------------------------------------------
  // Turns
  // ---------------------------------------------------------------------------

  /** The last seat in the hand gets everything in the middle, unseen. */
  ghost predicate TakesAll(h: Hand, w: nat, t: Node) {
    && t.phase.Terminal? && w < |h.g.players| == |t.phase.deltas|
    && t.hand.g.board == h.g.board && t.hand.log == h.log && t.hand.g.pot == 0
    && |t.hand.g.players| == |h.g.players|
    && forall i :: 0 <= i < |h.g.players| ==>
         && t.phase.deltas[i] == (if i == w then h.g.pot + SumBets(h.g.players) else 0)
         && t.hand.g.players[i] == h.g.players[i].(bet := 0, stack := h.g.players[i].stack + t.phase.deltas[i])
  }

  /** What follows once the table is `h` and the seats in `heard` have spoken. */
  ghost predicate Continues(rules: Rules, h: Hand, heard: seq<bool>, seat: nat, t: Node) {
    if exists w :: OnlyIn(h.g.players, w) then exists w :: OnlyIn(h.g.players, w) && TakesAll(h, w, t)
    else if exists i :: OwesAnswer(h.g, heard, i) then
      && t.phase.Decision? && t.hand == h && t.phase.responded == heard
      && AsksNext(h.g, heard, seat, t.phase.current)
    else if TwoActive(h.g.players) && MoreStreets(h.g.street) then OpensStreet(rules, h, t)
    else Shows(h, t)
  }

  lemma Uncontested(h: Hand, w: nat)
    requires OnlyIn(h.g.players, w)
    ensures TakesAll(h, w, AwardUncontested(h, w))
  {
  }

  lemma NextAsked(h: Hand, heard: seq<bool>, seat: nat, i: nat)
    requires |heard| == |h.g.players| && OwesAnswer(h.g, heard, i)
    ensures var r := Scan(UnsettledMask(h.g, heard), seat, 1); r.Some? && AsksNext(h.g, heard, seat, r.value)
  {
    hide Scan, StepsTo;
    var mask := UnsettledMask(h.g, heard);
    assert mask[i];
    ScanIsFirst(mask, seat, i);
    forall j: nat | OwesAnswer(h.g, heard, j)
      ensures StepsTo(|mask|, seat, Scan(mask, seat, 1).value) <= StepsTo(|mask|, seat, j)
    {
      assert mask[j];
      ScanIsFirst(mask, seat, j);
    }
  }

  lemma SettledRound(h: Hand, heard: seq<bool>, seat: nat)
    requires |heard| == |h.g.players| && !exists i :: OwesAnswer(h.g, heard, i)
    ensures Scan(UnsettledMask(h.g, heard), seat, 1).None?
  {
    var r := Scan(UnsettledMask(h.g, heard), seat, 1);
    if r.Some? { assert OwesAnswer(h.g, heard, r.value); }
  }

  lemma AdvanceContinues(e: Engine, h: Hand, seat: nat, heard: seq<bool>)
    requires |heard| == |h.g.players|
    ensures Continues(e.rules, h, heard, seat, Advance(e, h, seat, heard))
  {
    hide Scan, NextStreets, Collect, AwardUncontested, OnlyIn, OwesAnswer, AsksNext, OpensStreet, TakesAll,
      TwoActive, StillInCount, Shows;
    CountTwo(h.g.players);
    if StillInCount(h.g.players) == 1 {
      OnlyFirstIn(h.g.players);
      Uncontested(h, FirstIn(h.g.players));
    } else {
      NotOnly(h.g.players);
      if i :| OwesAnswer(h.g, heard, i) {
        NextAsked(h, heard, seat, i);
      } else {
        SettledRound(h, heard, seat);
        StreetCloses(e, h);
      }
    }
  }

  lemma OnlyFirstIn(ps: seq<Player>)
    requires StillInCount(ps) == 1
    ensures OnlyIn(ps, FirstIn(ps))
  {
    var w := SumWitness(ps, StillInOf);
    var f := FirstIn(ps);
    forall i | 0 <= i < |ps| && i != f ensures !ps[i].StillIn() {
      if ps[i].StillIn() { SumAtLeastTwo(ps, StillInOf, f, i); }
    }
  }

  lemma NotOnly(ps: seq<Player>)
    ensures StillInCount(ps) != 1 ==> forall w :: !OnlyIn(ps, w)
  {
    if w :| OnlyIn(ps, w) { OnlyInCounts(ps, w); }
  }

  /** The table once the asked seat has submitted `a`, and who has been heard by then, against the
      rules: chips, registers and announcement, and what follows. */
  ghost predicate TurnByRules(rules: Rules, t: Node, a: Action, h: Hand, heard: seq<bool>, t': Node)
    requires WellFormed(t) && t.phase.Decision?
  {
    var g, seat := t.hand.g, t.phase.current;
    && Took(g, seat, a, h.g) && h.log == t.hand.log + Announced(g, seat, a, h.g)
    && |heard| == |h.g.players|
    && (forall i :: 0 <= i < |heard| ==>
          heard[i] == (i == seat || (t.phase.responded[i] && !Reopened(g, seat, a, h.g))))
    && Continues(rules, h, heard, seat, t')
  }

  lemma GoodTurn(e: Engine, u: Setup, t: Node, a: Action)
    requires Good(e, u, t) && t.phase.Decision?
    ensures var seat := t.phase.current;
            TurnByRules(e.rules, t, a, ActHand(t.hand, seat, a), ActResponded(t.hand.g, t.phase.responded, seat, a),
                        Step(e, t, a))
  {
    hide Good, Took, Reopened, ApplyAction, ActionEvents, Announced, Normalize, Aggression, Advance, Continues;
    GoodDecision(e, u, t);
    var seat := t.phase.current;
    SubmittedTakes(t.hand.g, seat, a);
    SubmittedReopens(t.hand.g, t.phase.responded, seat, a);
    SubmittedIsAnnounced(t.hand.g, seat, a);
    var h, heard := ActHand(t.hand, seat, a), ActResponded(t.hand.g, t.phase.responded, seat, a);
    ActLengths(t.hand, t.phase.responded, seat, a);
    AdvanceContinues(e, h, seat, heard);
  }

  /** Every turn of every hand. Whatever the asked seat submits: its chips and the betting
      registers move as the rules say, and are announced; the others must speak again exactly after
      a full raise; a last seat takes everything; otherwise the next seat that owes an answer is
      asked, and only when none does the street closes, the next opening if two seats can bet on it. */
  lemma TurnFollowsRules(e: Engine, u: Setup, script: seq<Action>, a: Action)
    requires Playable(u) && Played(e, u, script).phase.Decision?
    ensures var t := Played(e, u, script);
            WellFormed(t) &&
            var seat := t.phase.current;
            TurnByRules(e.rules, t, a, ActHand(t.hand, seat, a), ActResponded(t.hand.g, t.phase.responded, seat, a),
                        Played(e, u, script + [a]))
  {
    hide Played, Good, TurnByRules;
    PlayedGood(e, u, script);
    PlayedOn(e, u, script, a);
    GoodTurn(e, u, Played(e, u, script), a);
  }

  lemma GoodDecision(e: Engine, u: Setup, t: Node)
    requires Good(e, u, t) && t.phase.Decision?
    ensures WellFormed(t)
    ensures var p := t.hand.g.players[t.phase.current]; p.status.Active? && p.stack > 0
    ensures e.rules.bigBlind > 0 ==> t.hand.g.minRaise > 0
  {
    hide Told, Seen, Level, Bounded, Capped, Paying;
    assert SeatBalanced(u.stacks[t.phase.current], t.hand.g.players[t.phase.current]);
  }

  lemma {:induction false} DriveOn(e: Engine, t: Node, script: seq<Action>, a: Action, asked: seq<Asked>)
    requires WellFormed(t) && Drive(e, t, script, asked).node.phase.Decision?
    ensures Drive(e, t, script + [a], asked).node == Step(e, Drive(e, t, script, asked).node, a)
    decreases |script|
  {
    hide Step;
    if script == [] {
      StepWellFormed(e, t, a);
      assert [] + [a] == [a] && [a][1..] == [];
    } else {
      StepWellFormed(e, t, script[0]);
      assert (script + [a])[1..] == script[1..] + [a];
      DriveOn(e, Step(e, t, script[0]), script[1..], a, asked + [Asked(t.phase.current, LegalAt(e, t))]);
    }
  }

  /** One more answer is one more step. */
  lemma PlayedOn(e: Engine, u: Setup, script: seq<Action>, a: Action)
    requires Playable(u) && Played(e, u, script).phase.Decision?
    ensures WellFormed(Played(e, u, script))
    ensures Played(e, u, script + [a]) == Step(e, Played(e, u, script), a)
  {
    hide New, Step;
    DriveOn(e, New(e, u), script, a, []);
  }

  // ---------------------------------------------------------------------------
  // Offers and prices
  // ---------------------------------------------------------------------------

  /** What the asked seat may do in No-Limit, at every decision: it has chips, so it may always
      fold or go all-in; the rest depends on what it owes and on whether it may raise. */
  lemma OfferAtDecision(e: Engine, u: Setup, script: seq<Action>, a: Action)
    requires Playable(u) && e.rules.variant.NoLimit? && Played(e, u, script).phase.Decision?
    ensures var t := Played(e, u, script);
            WellFormed(t) &&
            var g, p := t.hand.g, t.hand.g.players[t.phase.current];
            var least, most := g.currentBet + g.minRaise, p.bet + p.stack;
            && p.status.Active? && p.stack > 0
            && (LegalAt(e, t).IsLegal(a) <==>
                  match a
                  case Fold => true
                  case Check => g.currentBet <= p.bet
                  case Call => p.bet < g.currentBet < most
                  case Raise(x) => !t.phase.responded[t.phase.current] && least < most && least <= x <= most
                  case AllIn => true)
  {
    hide Played, Good, ComputeLegal;
    PlayedGood(e, u, script);
    var t := Played(e, u, script);
    GoodDecision(e, u, t);
    OfferExactly(e.rules, t.hand.g, t.phase.current, !t.phase.responded[t.phase.current], a);
  }

  /** What a raise has to come to at the next decision. After a raise to `x`: `x` and as much
      again as it raised the bet by. After an all-in of a full raise the same with its total; after
      a shorter one its total and the old raise size. After anything else, what it was; on a new
      street, the big blind. Betting goes on after every full raise that leaves anybody to ask. */
  lemma NextRaiseCosts(e: Engine, u: Setup, script: seq<Action>, a: Action)
    requires Playable(u)
    requires Played(e, u, script).phase.Decision? && Played(e, u, script + [a]).phase.Decision?
    ensures var t, t' := Played(e, u, script), Played(e, u, script + [a]);
            WellFormed(t) && WellFormed(t') &&
            var g, p := t.hand.g, t.hand.g.players[t.phase.current];
            var total, size := p.bet + p.stack, g.minRaise;
            var shove := a.AllIn? || (a.Raise? && a.amount >= total);
            var next := LegalAt(e, t').minRaise;
            && (a.Raise? && !shove && p.bet <= g.currentBet && a.amount >= g.currentBet + size ==>
                  t'.hand.g.street == g.street && next == a.amount + (a.amount - g.currentBet))
            && (shove && total > g.currentBet && total >= g.currentBet + size ==>
                  t'.hand.g.street == g.street && next == total + (total - g.currentBet))
            && (t'.hand.g.street != g.street ==> next == e.rules.bigBlind)
            && (t'.hand.g.street == g.street && shove && g.currentBet < total < g.currentBet + size ==>
                  && next == total + size
                  && t'.hand.g.shortSum == g.shortSum + (total - g.currentBet))
            && (t'.hand.g.street == g.street &&
                (a.Fold? || a.Check? || a.Call? || (shove && total <= g.currentBet)) ==>
                  next == LegalAt(e, t).minRaise && t'.hand.g.shortSum == g.shortSum)
  {
    hide Played, Good, ActHand, ActResponded, TurnByRules, OpensStreet;
    TurnFollowsRules(e, u, script, a);
    var t, t' := Played(e, u, script), Played(e, u, script + [a]);
    PlayedGood(e, u, script);
    GoodDecision(e, u, t);
    PlayedGood(e, u, script + [a]);
    GoodDecision(e, u, t');
    var seat := t.phase.current;
    var h, heard := ActHand(t.hand, seat, a), ActResponded(t.hand.g, t.phase.responded, seat, a);
    TurnTook(e.rules, t, a, h, heard, t');
    GoesOnOrOpens(e.rules, t, a, h, heard, t');
  }

  lemma TookSeats(g: Game, seat: nat, a: Action, g': Game)
    requires seat < |g.players| && Took(g, seat, a, g')
    ensures |g'.players| == |g.players|
  {
  }

  lemma TurnTook(rules: Rules, t: Node, a: Action, h: Hand, heard: seq<bool>, t': Node)
    requires WellFormed(t) && t.phase.Decision? && TurnByRules(rules, t, a, h, heard, t')
    ensures Took(t.hand.g, t.phase.current, a, h.g)
  {
  }

  /** After a full raise the street goes on; otherwise the next decision is on it or opens the next. */
  lemma GoesOnOrOpens(rules: Rules, t: Node, a: Action, h: Hand, heard: seq<bool>, t': Node)
    requires WellFormed(t) && t.phase.Decision? && TurnByRules(rules, t, a, h, heard, t')
    requires t'.phase.Decision?
    ensures t'.hand == h || (OpensStreet(rules, h, t') && OpensAnew(rules, h, t'))
    ensures Reopened(t.hand.g, t.phase.current, a, h.g) ==> t'.hand == h
  {
    hide Took, AsksNext, OnlyIn, OpensStreet, Announced, Reopened, OwesAnswer, TwoActive;
    TookSeats(t.hand.g, t.phase.current, a, h.g);
    if Reopened(t.hand.g, t.phase.current, a, h.g) && TwoActive(h.g.players) { ReopenedOwes(t, h, heard); }
    if OpensStreet(rules, h, t') { OpenedAnew(rules, h, t'); }
  }

  lemma ReopenedOwes(t: Node, h: Hand, heard: seq<bool>)
    requires WellFormed(t) && t.phase.Decision? && |heard| == |h.g.players| == |t.hand.g.players|
    requires TwoActive(h.g.players)
    requires forall i :: 0 <= i < |heard| && i != t.phase.current ==> !heard[i]
    ensures exists i :: OwesAnswer(h.g, heard, i)
  {
    var i, j :| 0 <= i < j < |h.g.players| && h.g.players[i].status.Active? && h.g.players[j].status.Active?;
    assert OwesAnswer(h.g, heard, if i == t.phase.current then j else i);
  }

  ghost predicate OpensAnew(rules: Rules, h: Hand, t: Node) {
    t.hand.g.street != h.g.street && t.hand.g.currentBet == 0 && t.hand.g.minRaise == rules.bigBlind
  }

  lemma OpenedAnew(rules: Rules, h: Hand, t: Node)
    requires OpensStreet(rules, h, t)
    ensures OpensAnew(rules, h, t)
  {
  }

  // ---------------------------------------------------------------------------
  // What a hand reports
  // ---------------------------------------------------------------------------

  lemma {:induction false} OpeningGrows(h: Hand, ante: nat, k: nat)
    requires k <= |h.g.players|
    ensures h.log <= PostAntes(h, ante, k).log && h.log <= DealHoles(h, k).log
  {
    if k > 0 { OpeningGrows(h, ante, k - 1); }
  }

  /** The hand before its first decision knows its number, its dealer and who sits out. */
  lemma OpenedIdentity(rules: Rules, u: Setup)
    requires Playable(u)
    ensures Identified(u, Opened(rules, u))
  {
    OpenedRegisters(rules, u);
    SatOutUnchanged(Started(rules, u), rules.ante, |u.stacks|);
    SatOutUnchanged(Blinded(rules, u), rules.ante, |u.stacks|);
    OpeningGrows(Started(rules, u), rules.ante, |u.stacks|);
    OpeningGrows(Blinded(rules, u), rules.ante, |u.stacks|);
    AntedSomeone(rules, u);
    forall i | 0 <= i < |u.stacks|
      ensures DealHoles(Blinded(rules, u), |u.stacks|).g.players[i].status.Out? <==> u.stacks[i] == 0
    {
      BlindedCharged(rules, u, i);
      DealKeepsChips(Blinded(rules, u), |u.stacks|);
    }
  }

  /** The hand is the one that was called for: its number, its dealer, the dead hands marked as
      sat out, and its first event announcing it. */
  ghost predicate Identified(u: Setup, h: Hand) {
    && h.g.handId == u.handId && h.g.dealer == u.dealer
    && |h.g.satOut| == |u.stacks|
    && (forall i :: 0 <= i < |u.stacks| ==> h.g.satOut[i] == (u.stacks[i] > 0 && IsDead(u.kinds, i)))
    && h.log != [] && h.log[0] == HandStarted(u.handId, u.dealer, u.seed)
  }

  lemma NewIdentity(e: Engine, u: Setup)
    requires Playable(u)
    ensures Identified(u, New(e, u).hand)
  {
    hide Opened, BigBlindSeat, Blinded, Scan;
    OpenedIdentity(e.rules, u);
  }

  lemma {:induction false} DriveIdentity(e: Engine, u: Setup, t: Node, script: seq<Action>, asked: seq<Asked>)
    requires WellFormed(t) && Identified(u, t.hand)
    ensures Identified(u, Drive(e, t, script, asked).node.hand)
    decreases |script|
  {
    hide Step;
    if t.phase.Decision? && script != [] {
      StepWellFormed(e, t, script[0]);
      StepKeepsHand(e, t, script[0]);
      DriveIdentity(e, u, Step(e, t, script[0]), script[1..], asked + [Asked(t.phase.current, LegalAt(e, t))]);
    }
  }

  lemma PlayedIdentity(e: Engine, u: Setup, script: seq<Action>)
    requires Playable(u)
    ensures Identified(u, Played(e, u, script).hand)
  {
    hide New, Identified;
    NewIdentity(e, u);
    DriveIdentity(e, u, New(e, u), script, []);
  }

  /** Every all-in notice gives what its seat has committed. */
  ghost predicate NoticesTrue(log: seq<Event>, ps: seq<Player>) {
    forall k :: 0 <= k < |log| && log[k].PlayerAllIn? ==>
      log[k].seat < |ps| && ps[log[k].seat].committed == log[k].total
  }

  /** ... and such a seat has no chips left. */
  ghost predicate NoticesFinal(h: Hand) {
    && NoticesTrue(h.log, h.g.players)
    && forall k :: 0 <= k < |h.log| && h.log[k].PlayerAllIn? ==> h.g.players[h.log[k].seat].stack == 0
  }

  lemma PostNotices(h: Hand, seat: nat, amount: nat)
    requires NoticesFinal(h) && seat < |h.g.players|
    ensures NoticesFinal(Post(h, seat, amount)) && |Post(h, seat, amount).g.players| == |h.g.players|
  {
  }

  lemma {:induction false} AnteNotices(h: Hand, ante: nat, k: nat)
    requires NoticesFinal(h) && k <= |h.g.players|
    ensures NoticesFinal(PostAntes(h, ante, k))
  {
    hide NoticesFinal, Post;
    if k > 0 {
      AnteNotices(h, ante, k - 1);
      PostNotices(PostAntes(h, ante, k - 1), k - 1, ante);
    }
  }

  lemma {:induction false} DealNotices(h: Hand, k: nat)
    requires NoticesFinal(h) && k <= |h.g.players|
    ensures NoticesFinal(DealHoles(h, k))
  {
    if k > 0 { DealNotices(h, k - 1); }
  }

  lemma SameNotices(h: Hand, r: Hand)
    requires NoticesFinal(h) && OnlyBoards(h.log, r.log) && |r.g.players| == |h.g.players|
    requires forall i :: 0 <= i < |h.g.players| ==>
               r.g.players[i].committed == h.g.players[i].committed && r.g.players[i].stack == h.g.players[i].stack
    ensures NoticesFinal(r)
  {
  }

  lemma OpenedNotices(rules: Rules, u: Setup)
    requires Playable(u)
    ensures NoticesFinal(Opened(rules, u))
  {
    hide NoticesFinal, PostAntes, DealHoles, Post;
    var s := Started(rules, u);
    StartedNotices(rules, u);
    AnteNotices(s, rules.ante, |u.stacks|);
    AntedSomeone(rules, u);
    var h := Anted(rules, u);
    var sb, bb := SmallBlindSeat(h.g), BigBlindSeat(h.g);
    NextInListFinds(h.g.dealer, h.g.players);
    NextInListFinds(sb, h.g.players);
    PostNotices(h, sb, rules.smallBlind);
    PostNotices(Post(h, sb, rules.smallBlind), bb, rules.bigBlind);
    SameNotices(Post(Post(h, sb, rules.smallBlind), bb, rules.bigBlind), Blinded(rules, u));
    DealNotices(Blinded(rules, u), |u.stacks|);
    SatOutLength(rules, u);
    SameNotices(DealHoles(Blinded(rules, u), |u.stacks|), Opened(rules, u));
  }

  lemma StartedNotices(rules: Rules, u: Setup)
    ensures NoticesFinal(Started(rules, u))
  {
  }

  lemma TurnNotices(rules: Rules, t: Node, a: Action, h: Hand, heard: seq<bool>, t': Node)
    requires WellFormed(t) && t.phase.Decision? && TurnByRules(rules, t, a, h, heard, t') && NoticesFinal(t.hand)
    requires t.hand.g.players[t.phase.current].stack > 0
    requires t.hand.g.players[t.phase.current].status.Active?
    ensures NoticesTrue(t'.hand.log, t'.hand.g.players) && (t'.phase.Decision? ==> NoticesFinal(t'.hand))
  {
    hide OnlyIn, OwesAnswer, AsksNext, TwoActive, Took, Announced, OpensStreet, NoticesFinal, NoticesTrue, Shows,
      TakesAll;
    TurnTook(rules, t, a, h, heard, t');
    ActNotices(t.hand, t.phase.current, a, h);
    if OpensStreet(rules, h, t') { OpenNotices(rules, h, t'); }
    if Shows(h, t') { ShownNotices(h, t'); }
    if w: nat :| TakesAll(h, w, t') { TakenNotices(h, w, t'); }
    FinalIsTrue(h);
  }

  lemma FinalIsTrue(h: Hand)
    requires NoticesFinal(h)
    ensures NoticesTrue(h.log, h.g.players)
  {
  }

  lemma ActNotices(h: Hand, seat: nat, a: Action, r: Hand)
    requires NoticesFinal(h) && seat < |h.g.players| && h.g.players[seat].stack > 0
    requires h.g.players[seat].status.Active?
    requires Took(h.g, seat, a, r.g) && r.log == h.log + Announced(h.g, seat, a, r.g)
    ensures NoticesFinal(r)
  {
    assert forall i :: 0 <= i < |h.g.players| && i != seat ==> r.g.players[i] == h.g.players[i];
  }

  lemma OpenNotices(rules: Rules, h: Hand, t: Node)
    requires OpensStreet(rules, h, t) && NoticesFinal(h)
    ensures NoticesFinal(t.hand) && NoticesTrue(t.hand.log, t.hand.g.players)
  {
    hide AsksNext;
    SameNotices(h, t.hand);
  }

  lemma ShownNotices(h: Hand, t: Node)
    requires Shows(h, t) && NoticesFinal(h)
    ensures t.phase.Terminal? && NoticesTrue(t.hand.log, t.hand.g.players)
  {
  }

  lemma TakenNotices(h: Hand, w: nat, t: Node)
    requires TakesAll(h, w, t) && NoticesFinal(h)
    ensures t.phase.Terminal? && NoticesTrue(t.hand.log, t.hand.g.players)
  {
  }

  ghost predicate Noticed(t: Node) {
    NoticesTrue(t.hand.log, t.hand.g.players) && (t.phase.Decision? ==> NoticesFinal(t.hand))
  }

  lemma NewNotices(e: Engine, u: Setup)
    requires Playable(u)
    ensures Noticed(New(e, u))
  {
    hide Opened, BigBlindSeat, Blinded, NoticesFinal;
    OpenedNotices(e.rules, u);
    FinalIsTrue(Opened(e.rules, u));
    if New(e, u).phase.Terminal? { AwardNotices(Opened(e.rules, u), FirstIn(Opened(e.rules, u).g.players)); }
  }

  lemma AwardNotices(h: Hand, w: nat)
    requires NoticesTrue(h.log, h.g.players)
    ensures var r := AwardUncontested(h, w).hand; NoticesTrue(r.log, r.g.players)
  {
  }

  lemma {:induction false} DriveNotices(e: Engine, u: Setup, t: Node, script: seq<Action>, asked: seq<Asked>)
    requires Good(e, u, t) && WellFormed(t) && Noticed(t)
    ensures Noticed(Drive(e, t, script, asked).node)
    decreases |script|
  {
    hide Good, Step, NoticesTrue, NoticesFinal, TurnByRules, ActHand, ActResponded;
    if t.phase.Decision? && script != [] {
      var seat, a := t.phase.current, script[0];
      GoodDecision(e, u, t);
      GoodTurn(e, u, t, a);
      TurnNotices(e.rules, t, a, ActHand(t.hand, seat, a), ActResponded(t.hand.g, t.phase.responded, seat, a),
                  Step(e, t, a));
      StepGood(e, u, t, a);
      StepWellFormed(e, t, a);
      DriveNotices(e, u, Step(e, t, a), script[1..], asked + [Asked(seat, LegalAt(e, t))]);
    }
  }

  /** At every point of every hand each all-in notice in the stream, forced bets included, gives exactly
      what its seat has committed in all. */
  lemma AllInNoticesTrue(e: Engine, u: Setup, script: seq<Action>)
    requires Playable(u)
    ensures var h := Played(e, u, script).hand; NoticesTrue(h.log, h.g.players)
  {
    hide New, Good, Drive, NoticesTrue, NoticesFinal;
    NewGood(e, u);
    NewNotices(e, u);
    DriveNotices(e, u, New(e, u), script, []);
  }

  /** Seat `i` is reported once: its cards, what it gained or lost, whether it sat out. */
  ghost predicate ReportedOnce(os: seq<SeatOutcome>, o: SeatOutcome) {
    exists k :: 0 <= k < |os| && os[k] == o && forall j :: 0 <= j < |os| && j != k ==> os[j].seat != o.seat
  }

  /** Lines in seat order, each for a seat that came with chips, saying what it gained or lost. */
  ghost predicate InSeatOrder(os: seq<SeatOutcome>, ps: seq<Player>, deltas: seq<nat>) {
    && |deltas| == |ps|
    && (forall k :: 0 <= k < |os| ==>
          && os[k].seat < |ps| && !ps[os[k].seat].status.Out?
          && os[k].chipDelta == deltas[os[k].seat] - ps[os[k].seat].committed)
    && (forall j, k :: 0 <= j < k < |os| ==> os[j].seat < os[k].seat)
  }

  lemma {:induction false} OutcomesOrdered(ps: seq<Player>, satOut: seq<bool>, deltas: seq<nat>)
    requires |ps| == |satOut| == |deltas|
    ensures InSeatOrder(Outcomes(ps, satOut, deltas), ps, deltas)
  {
    if ps != [] {
      var n := |ps| - 1;
      OutcomesOrdered(ps[..n], satOut[..n], deltas[..n]);
    }
  }

  lemma {:induction false} OutcomesReport(ps: seq<Player>, satOut: seq<bool>, deltas: seq<nat>, i: nat)
    requires |ps| == |satOut| == |deltas| && i < |ps| && !ps[i].status.Out?
    ensures ReportedOnce(Outcomes(ps, satOut, deltas),
                         SeatOutcome(i, ps[i].hole, deltas[i] - ps[i].committed, satOut[i]))
  {
    var n := |ps| - 1;
    var os, rest := Outcomes(ps, satOut, deltas), Outcomes(ps[..n], satOut[..n], deltas[..n]);
    OutcomesOrdered(ps, satOut, deltas);
    var o := SeatOutcome(i, ps[i].hole, deltas[i] - ps[i].committed, satOut[i]);
    var k := |rest|;
    if i < n {
      OutcomesReport(ps[..n], satOut[..n], deltas[..n], i);
      k :| 0 <= k < |rest| && rest[k] == o;
    }
    assert os[k] == o;
    assert forall j :: 0 <= j < |os| && j != k ==> os[j].seat != o.seat;
  }

  /** The result of a finished hand: its number, its board, and in seat order one line for every
      seat that came with chips and no other: the cards it was dealt, its stack now less its stack
      then, and whether it was dealt in as a dead hand. */
  lemma ResultReports(e: Engine, u: Setup, script: seq<Action>, i: nat)
    requires Playable(u) && i < |u.stacks| && Played(e, u, script).phase.Terminal?
    ensures var t := Played(e, u, script);
            |t.hand.g.satOut| == |t.phase.deltas| == |t.hand.g.players| == |u.stacks| &&
            var r := BuildResult(u.handId, OutcomeOf(Drive(e, New(e, u), script, [])));
            && r.handId == u.handId == t.hand.g.handId && r.board == t.hand.g.board
            && (forall j, k :: 0 <= j < k < |r.seats| ==> r.seats[j].seat < r.seats[k].seat)
            && (u.stacks[i] == 0 ==> forall k :: 0 <= k < |r.seats| ==> r.seats[k].seat != i)
            && (u.stacks[i] > 0 ==> ReportedOnce(r.seats,
                  SeatOutcome(i, t.hand.g.players[i].hole, t.hand.g.players[i].stack as int - u.stacks[i],
                              IsDead(u.kinds, i))))
  {
    hide New, Drive, Outcomes, Good, ReportedOnce;
    var t := Played(e, u, script);
    PlayedGood(e, u, script);
    PlayedIdentity(e, u, script);
    GoodWellFormed(e, u, t);
    GoodOut(e, u, t, i);
    GoodPaysWithin(e, u, t);
    var g := t.hand.g;
    OutcomesOrdered(g.players, g.satOut, t.phase.deltas);
    var run := Drive(e, New(e, u), script, []);
    assert BuildResult(u.handId, OutcomeOf(run)) ==
           HandResult(u.handId, g.board, Outcomes(g.players, g.satOut, t.phase.deltas));
    if u.stacks[i] > 0 { OutcomesReport(t.hand.g.players, t.hand.g.satOut, t.phase.deltas, i); }
  }
}
