/** Chip accounting: every chip a seat started with is in its stack or committed, and the pot
    and street bets hold exactly what is committed. */
module Ledger {
  import opened Types
  import opened Sums
  import opened Seats
  import opened PotCalc
  import opened Showdown
  import opened Betting
  import opened Tree

  ghost predicate SeatBalanced(start: nat, p: Player) {
    && p.stack + p.committed == start && p.bet <= p.committed
    && (p.status.Out? <==> start == 0)
    && (p.status.Active? ==> p.stack > 0)
    && (p.status.AllIn? ==> p.stack == 0)
  }

  ghost predicate Balanced(start: seq<nat>, g: Game) {
    && |g.players| == |start|
    && (forall i :: 0 <= i < |start| ==> SeatBalanced(start[i], g.players[i]))
    && g.pot + SumBets(g.players) == SumCommitted(g.players)
  }

  /** One seat moves chips from its stack into its bet. */
  lemma SeatMoves(start: seq<nat>, g: Game, seat: nat, q: Player)
    requires Balanced(start, g) && seat < |g.players| && SeatBalanced(start[seat], q)
    requires q.committed - q.bet == g.players[seat].committed - g.players[seat].bet
    ensures Balanced(start, g.(players := g.players[seat := q]))
  {
    SumUpdate(g.players, seat, q, BetOf);
    SumUpdate(g.players, seat, q, CommittedOf);
  }

  /** Nothing about chips depends on the registers. */
  lemma BalancedFrame(start: seq<nat>, g: Game, g': Game)
    requires Balanced(start, g) && g'.players == g.players && g'.pot == g.pot
    ensures Balanced(start, g')
  {
  }

  lemma InitBalanced(rules: Rules, u: Setup)
    ensures Balanced(u.stacks, InitGame(rules, u))
  {
    var ps := InitGame(rules, u).players;
    SumZero(ps, BetOf);
    SumZero(ps, CommittedOf);
  }

  lemma PostBalanced(start: seq<nat>, h: Hand, seat: nat, amount: nat)
    requires Balanced(start, h.g) && seat < |h.g.players| && h.g.players[seat].StillIn()
    ensures Balanced(start, Post(h, seat, amount).g)
  {
    var p := h.g.players[seat];
    SeatMoves(start, h.g, seat, SpendOrShove(p, Min(amount, p.stack)));
  }

  lemma {:induction false} AntesBalanced(start: seq<nat>, h: Hand, ante: nat, k: nat)
    requires Balanced(start, h.g) && k <= |h.g.players|
    ensures Balanced(start, PostAntes(h, ante, k).g)
  {
    hide Post, Balanced;
    if k > 0 {
      AntesBalanced(start, h, ante, k - 1);
      var r := PostAntes(h, ante, k - 1);
      if r.g.players[k - 1].status.Active? { PostBalanced(start, r, k - 1, ante); }
    }
  }

  lemma BlindsBalanced(start: seq<nat>, rules: Rules, h: Hand)
    requires Balanced(start, h.g) && SomeoneIn(h.g.players)
    ensures Balanced(start, PostBlinds(rules, h).g)
  {
    var sb, bb := SmallBlindSeat(h.g), BigBlindSeat(h.g);
    NextInListFinds(h.g.dealer, h.g.players);
    NextInListFinds(sb, h.g.players);
    PostBalanced(start, h, sb, rules.smallBlind);
    PostBalanced(start, Post(h, sb, rules.smallBlind), bb, rules.bigBlind);
  }

  /** Chips, status and bet of two seats agree. */
  predicate SameChips(p: Player, q: Player) {
    p.stack == q.stack && p.bet == q.bet && p.committed == q.committed
  }

  lemma SameChipsBalanced(start: seq<nat>, g: Game, g': Game)
    requires Balanced(start, g) && |g'.players| == |g.players| && g'.pot == g.pot
    requires forall i :: 0 <= i < |g.players| ==> SameChips(g.players[i], g'.players[i])
    requires forall i :: 0 <= i < |g.players| ==>
               g'.players[i].status == g.players[i].status || (g'.players[i].status.Folded? &&
                 !g.players[i].status.Out?)
    ensures Balanced(start, g')
  {
    SumSame(g.players, BetOf, g'.players, BetOf);
    SumSame(g.players, CommittedOf, g'.players, CommittedOf);
  }

  lemma {:induction false} DealKeepsChips(h: Hand, k: nat)
    requires k <= |h.g.players|
    ensures var r := DealHoles(h, k);
            && |r.g.players| == |h.g.players| && r.g.pot == h.g.pot
            && forall i :: 0 <= i < |h.g.players| ==>
                 r.g.players[i].(hole := h.g.players[i].hole) == h.g.players[i]
  {
    if k > 0 { DealKeepsChips(h, k - 1); }
  }

  /** The hand before its first decision. */
  lemma OpenedBalanced(rules: Rules, u: Setup)
    requires Playable(u)
    ensures Balanced(u.stacks, Opened(rules, u).g)
  {
    hide PostBlinds, Balanced;
    InitBalanced(rules, u);
    AntesBalanced(u.stacks, Started(rules, u), rules.ante, |u.stacks|);
    AntedSomeone(rules, u);
    BlindsBalanced(u.stacks, rules, Anted(rules, u));
    DealKeepsChips(Blinded(rules, u), |u.stacks|);
    SatOutLength(rules, u);
    SameChipsBalanced(u.stacks, Blinded(rules, u).g, Opened(rules, u).g);
  }

  lemma ActBalanced(start: seq<nat>, h: Hand, seat: nat, a: Action)
    requires Balanced(start, h.g) && seat < |h.g.players| && h.g.players[seat].status.Active?
    ensures Balanced(start, ActHand(h, seat, a).g)
  {
    var b := Normalize(h.g, seat, a);
    SeatMoves(start, h.g, seat, Actor(h.g, seat, b));
  }

  lemma CollectBalanced(start: seq<nat>, h: Hand)
    requires Balanced(start, h.g)
    ensures Balanced(start, Collect(h).g)
    ensures Collect(h).g.pot == SumCommitted(h.g.players) == SumCommitted(Collect(h).g.players)
  {
    var ps := h.g.players;
    SumZero(ZeroBets(ps), BetOf);
    SumSame(ps, CommittedOf, ZeroBets(ps), CommittedOf);
  }

  /** A street opens on players whose bets are already collected. */
  lemma OpenBalanced(start: seq<nat>, rules: Rules, h: Hand, street: Street, n: nat)
    requires Balanced(start, h.g) && ZeroBets(h.g.players) == h.g.players
    ensures Balanced(start, OpenStreet(rules, h, street, n).g)
  {
  }

  // ---------------------------------------------------------------------------
  // Ends
  // ---------------------------------------------------------------------------

  /** Final accounting: stacks are what was not committed plus what was won, and what was won
      is exactly what was committed. */
  ghost predicate PaidOut(start: seq<nat>, g: Game, deltas: seq<nat>) {
    && |g.players| == |start| == |deltas|
    && (forall i :: 0 <= i < |start| ==> g.players[i].stack + g.players[i].committed == start[i] + deltas[i])
    && Sum(deltas, Id) == SumCommitted(g.players)
  }

  /** The stacks of a finished hand add up to the stacks it started with. */
  lemma FinalChips(start: seq<nat>, g: Game, deltas: seq<nat>)
    requires PaidOut(start, g, deltas)
    ensures Chips(g.players) == Sum(start, Id)
  {
    var both := seq(|start|, i requires 0 <= i < |start| => start[i] + deltas[i]);
    SumSplit(both, Id, start, Id, deltas, Id);
    SumSplit(both, Id, g.players, StackOf, g.players, CommittedOf);
  }

  lemma AwardPaysOut(start: seq<nat>, h: Hand, winner: nat)
    requires Balanced(start, h.g) && winner < |h.g.players|
    ensures PaidOut(start, AwardUncontested(h, winner).hand.g, AwardUncontested(h, winner).phase.deltas)
  {
    var c := Collect(h);
    CollectBalanced(start, h);
    EquallySum(|start|, [winner], c.g.pot);
    var deltas := Only(|start|, winner, c.g.pot);
    assert deltas == Equally(|start|, [winner], c.g.pot);
    SumSame(c.g.players, CommittedOf, AddStacks(c.g.players, deltas), CommittedOf);
  }

  lemma ShowdownPaysOut(start: seq<nat>, e: Engine, h: Hand)
    requires Balanced(start, h.g) && Top(h.g.players) > 0
    ensures PaidOut(start, ResolveShowdown(e, h).hand.g, ResolveShowdown(e, h).phase.deltas)
  {
    var ps := h.g.players;
    PayoutConserves(ps, Ranks(e, h.g), h.g.dealer);
    var deltas := ShowdownDeltas(ps, Ranks(e, h.g), h.g.dealer);
    SumSame(ps, CommittedOf, AddStacks(ps, deltas), CommittedOf);
  }

  /** Signed sum of the reported results. */
  function SumDelta(os: seq<SeatOutcome>): int {
    if os == [] then 0 else SumDelta(os[..|os| - 1]) + os[|os| - 1].chipDelta
  }

  lemma {:induction false} OutcomesSum(ps: seq<Player>, satOut: seq<bool>, deltas: seq<nat>)
    requires |ps| == |satOut| == |deltas|
    requires forall i :: 0 <= i < |ps| && ps[i].status.Out? ==> ps[i].committed == 0 && deltas[i] == 0
    ensures SumDelta(Outcomes(ps, satOut, deltas)) == Sum(deltas, Id) as int - SumCommitted(ps)
  {
    if ps != [] {
      var n := |ps| - 1;
      OutcomesSum(ps[..n], satOut[..n], deltas[..n]);
      var os := Outcomes(ps, satOut, deltas);
      if !ps[n].status.Out? { assert os[..|os| - 1] == Outcomes(ps[..n], satOut[..n], deltas[..n]); }
    }
  }
}
