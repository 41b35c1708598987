/** Bets in order: nobody bets past the bet to call, active seats are level from street to
    street, and each allowed action brings the hand closer to its end. */
module Order {
  import opened Types
  import opened Sums
  import opened Seats
  import opened PotCalc
  import opened Betting
  import opened Tree
  import opened Ledger
  import opened Forced

  /** Between streets: the seats that can bet have put in the same, and any other at most that much
      or what it was made to post. */
  ghost predicate Even(rules: Rules, u: Setup, ps: seq<Player>) {
    |ps| == |u.stacks| && forall i, p :: 0 <= i < |ps| && 0 <= p < |ps| && ps[i].status.Active? ==>
      && (ps[p].status.Active? ==> ps[p].committed == ps[i].committed)
      && ps[p].committed <= Max(ps[i].committed, Posted(rules, u, p))
  }

  /** ... and in the middle of one, counting the bet each of them has still to match. */
  ghost predicate Level(rules: Rules, u: Setup, g: Game) {
    |g.players| == |u.stacks| &&
    forall i, p :: 0 <= i < |g.players| && 0 <= p < |g.players| && g.players[i].status.Active? ==>
      var base := g.players[i].committed - g.players[i].bet;
      && (g.players[p].status.Active? ==> g.players[p].committed - g.players[p].bet == base)
      && g.players[p].committed <= Max(base + g.currentBet, Posted(rules, u, p))
  }

  /** Every active seat has matched the bet to call. */
  ghost predicate Matched(g: Game) {
    forall i :: 0 <= i < |g.players| && g.players[i].status.Active? ==> g.players[i].bet == g.currentBet
  }

  /** No seat that can still act has bet past the bet to call. */
  ghost predicate ActiveWithin(g: Game) {
    forall i :: 0 <= i < |g.players| && g.players[i].status.Active? ==> g.players[i].bet <= g.currentBet
  }

  lemma ActKeepsWithin(h: Hand, seat: nat, a: Action)
    requires ActiveWithin(h.g) && seat < |h.g.players| && h.g.players[seat].status.Active?
    ensures ActiveWithin(ActHand(h, seat, a).g)
  {
    var b := Normalize(h.g, seat, a);
    var q, g' := Actor(h.g, seat, b), ActHand(h, seat, a).g;
    assert h.g.currentBet <= g'.currentBet && q.bet <= g'.currentBet;
  }

  /** Does every seat that can act start within the bet to call? */
  ghost predicate Bounded(rules: Rules, u: Setup) {
    Playable(u) && ActiveWithin(Opened(rules, u).g)
  }

  /** The condition termination needs of the opened table, in the caller's terms. */
  lemma WithinIsForced(rules: Rules, u: Setup)
    requires Playable(u)
    ensures ActiveWithin(Opened(rules, u).g) <==> ForcedWithin(rules, u)
  {
    hide Opened, Due;
    OpenedRegisters(rules, u);
    forall i | 0 <= i < |u.stacks|
      ensures var p := Opened(rules, u).g.players[i];
              (p.status.Active? <==> CanAct(rules, u, i)) && (CanAct(rules, u, i) ==> p.bet == Due(rules, u, i))
    {
      OpenedSeat(rules, u, i);
    }
  }

  /** Staying in the hand costs at least the big blind: it is the bet to call before the flop,
      and after it every active seat has paid it. */
  ghost predicate Paying(bigBlind: nat, g: Game) {
    && (g.street == Preflop ==> g.currentBet >= bigBlind)
    && (g.street != Preflop ==> ActivePaid(bigBlind, g.players))
  }

  ghost predicate ActivePaid(bigBlind: nat, ps: seq<Player>) {
    forall i :: 0 <= i < |ps| && ps[i].status.Active? ==> ps[i].committed >= bigBlind
  }

  lemma ActPaying(bigBlind: nat, h: Hand, seat: nat, a: Action)
    requires Paying(bigBlind, h.g) && seat < |h.g.players| && h.g.players[seat].status.Active?
    ensures Paying(bigBlind, ActHand(h, seat, a).g)
  {
    RegistersMonotone(h.g, seat, a);
  }

  lemma CollectPaying(start: seq<nat>, bigBlind: nat, h: Hand)
    requires Paying(bigBlind, h.g) && Matched(h.g) && Balanced(start, h.g)
    ensures ActivePaid(bigBlind, Collect(h).g.players)
  {
    forall i | 0 <= i < |h.g.players| && h.g.players[i].status.Active? ensures h.g.players[i].committed >= bigBlind {
      assert SeatBalanced(start[i], h.g.players[i]);
    }
  }

  /** The betting registers never pass `cap`. */
  ghost predicate Capped(cap: nat, g: Game) {
    g.currentBet <= cap && g.minRaise <= cap && g.shortSum <= g.currentBet
  }

  lemma ActCapped(start: seq<nat>, cap: nat, h: Hand, seat: nat, a: Action)
    requires Capped(cap, h.g) && Balanced(start, h.g) && seat < |h.g.players| && h.g.players[seat].status.Active?
    requires start[seat] <= cap
    ensures Capped(cap, ActHand(h, seat, a).g)
  {
    ActBalanced(start, h, seat, a);
    assert SeatBalanced(start[seat], ActHand(h, seat, a).g.players[seat]);
  }

  // ---------------------------------------------------------------------------
  // The blinds go to two seats
  // ---------------------------------------------------------------------------

  /** Another marked seat is found before the search comes back round. */
  lemma ScanSkipsSelf(mask: seq<bool>, from: nat, other: nat)
    requires from < |mask| && other < |mask| && other != from && mask[other]
    ensures Scan(mask, from, 1).Some? && Scan(mask, from, 1).value != from
  {
    hide Scan, StepsTo;
    ScanIsFirst(mask, from, other);
    StepsWithin(|mask|, from, other);
    StepsWithin(|mask|, from, from);
  }

  ghost predicate TwoFunded(stacks: seq<nat>) {
    exists i, j :: 0 <= i < j < |stacks| && stacks[i] > 0 && stacks[j] > 0
  }

  lemma BlindsDistinct(u: Setup)
    requires TwoFunded(u.stacks)
    ensures SbSeat(u) != BbSeat(u)
  {
    hide Scan;
    var i, j :| 0 <= i < j < |u.stacks| && u.stacks[i] > 0 && u.stacks[j] > 0;
    NextFundedIsFirst(u.stacks, u.dealer, i);
    var sb := SbSeat(u);
    var other := if sb == i then j else i;
    assert Funded(u.stacks)[other];
    ScanSkipsSelf(Funded(u.stacks), sb, other);
  }

  lemma OpenedLevel(rules: Rules, u: Setup)
    requires Playable(u)
    ensures Level(rules, u, Opened(rules, u).g)
  {
    hide Opened, Posted;
    forall i | 0 <= i < |u.stacks|
      ensures var p := Opened(rules, u).g.players[i]; p.bet == p.committed == Posted(rules, u, i)
    {
      OpenedSeat(rules, u, i);
    }
  }

  // ---------------------------------------------------------------------------
  // Steps
  // ---------------------------------------------------------------------------

  lemma ActLevel(rules: Rules, u: Setup, h: Hand, seat: nat, a: Action)
    requires Level(rules, u, h.g) && seat < |h.g.players| && h.g.players[seat].status.Active?
    ensures Level(rules, u, ActHand(h, seat, a).g)
  {
    hide Posted;
    var b := Normalize(h.g, seat, a);
    var g, g' := h.g, ActHand(h, seat, a).g;
    var p, q := g.players[seat], Actor(g, seat, b);
    assert q.committed - q.bet == p.committed - p.bet;
    assert g.currentBet <= g'.currentBet && (q.bet <= g'.currentBet || q.bet == p.bet);
    assert forall i :: 0 <= i < |g.players| ==> g'.players[i] == if i == seat then q else g.players[i];
  }

  lemma CollectLevel(rules: Rules, u: Setup, h: Hand)
    requires Level(rules, u, h.g) && Matched(h.g)
    ensures Even(rules, u, Collect(h).g.players)
  {
    hide Posted;
    var c := Collect(h).g.players;
    forall i, p | 0 <= i < |c| && 0 <= p < |c| && c[i].status.Active?
      ensures c[p].status.Active? ==> c[p].committed == c[i].committed
      ensures c[p].committed <= Max(c[i].committed, Posted(rules, u, p))
    {
      assert h.g.players[i].bet == h.g.currentBet;
    }
  }

  lemma OpenLevel(rules: Rules, u: Setup, h: Hand, street: Street, n: nat)
    requires Even(rules, u, h.g.players)
    ensures Level(rules, u, OpenStreet(rules, h, street, n).g)
    ensures Even(rules, u, OpenStreet(rules, h, street, n).g.players)
  {
    hide Posted;
    var o := OpenStreet(rules, h, street, n).g;
    assert forall p :: 0 <= p < |o.players| ==>
        o.players[p].bet == 0 && o.players[p].committed == h.g.players[p].committed &&
          o.players[p].status == h.g.players[p].status;
  }

  // ---------------------------------------------------------------------------
  // Progress
  // ---------------------------------------------------------------------------

  function One(b: bool): nat { if b then 1 else 0 }

  function UnsettledCount(g: Game, responded: seq<bool>): nat
    requires |responded| == |g.players|
  {
    Sum(UnsettledMask(g, responded), One)
  }

  lemma UnsettledAtMost(g: Game, responded: seq<bool>)
    requires |responded| == |g.players|
    ensures UnsettledCount(g, responded) <= |g.players|
  {
    SumBound(UnsettledMask(g, responded), One, 1);
  }

  /** A submitted action that is neither a fold nor a check puts chips in. */
  lemma ActSpends(rules: Rules, g: Game, responded: bool, seat: nat, a: Action)
    requires seat < |g.players| && g.minRaise > 0 && g.players[seat].stack > 0 && g.players[seat].bet <= g.currentBet
    requires ComputeLegal(rules, g, seat, !responded).Allows(a)
    ensures var b := Normalize(g, seat, a);
            Actor(g, seat, b).stack <= g.players[seat].stack &&
            (Actor(g, seat, b).stack == g.players[seat].stack ==>
               b.Fold? || (b.Check? && g.players[seat].bet == g.currentBet))
  {
  }

  lemma ActSettles(g: Game, responded: seq<bool>, seat: nat, b: Action)
    requires seat < |g.players| == |responded| && Unsettled(g.players[seat], g.currentBet, responded[seat])
    requires b.Fold? || (b.Check? && g.players[seat].bet == g.currentBet)
    ensures var g', r' := ApplyAction(g, seat, b), Respond(responded, seat, Aggression(g, seat, b));
            UnsettledCount(g', r') < UnsettledCount(g, responded)
  {
    var g', r' := ApplyAction(g, seat, b), Respond(responded, seat, Aggression(g, seat, b));
    var m := UnsettledMask(g, responded);
    assert UnsettledMask(g', r') == m[seat := false];
    SumUpdate(m, seat, false, One);
  }

  /** An allowed action either puts chips in, or settles the seat and leaves the rest alone. */
  lemma ActProgress(rules: Rules, h: Hand, responded: seq<bool>, seat: nat, a: Action)
    requires seat < |h.g.players| == |responded| && h.g.minRaise > 0
    requires h.g.players[seat].stack > 0 && h.g.players[seat].bet <= h.g.currentBet
    requires Unsettled(h.g.players[seat], h.g.currentBet, responded[seat])
    requires ComputeLegal(rules, h.g, seat, !responded[seat]).Allows(a)
    ensures var g', r' := ActHand(h, seat, a).g, ActResponded(h.g, responded, seat, a);
            && |g'.players| == |r'|
            && (Chips(g'.players) < Chips(h.g.players) ||
                (Chips(g'.players) == Chips(h.g.players) && UnsettledCount(g', r') < UnsettledCount(h.g, responded)))
  {
    hide Actor, Registers, Normalize, Aggression, ComputeLegal;
    var b := Normalize(h.g, seat, a);
    ActSpends(rules, h.g, responded[seat], seat, a);
    SumUpdate(h.g.players, seat, Actor(h.g, seat, b), StackOf);
    if Actor(h.g, seat, b).stack == h.g.players[seat].stack { ActSettles(h.g, responded, seat, b); }
  }
}
