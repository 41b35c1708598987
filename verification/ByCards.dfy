/** Showdowns by the cards: what every seat is paid, from the two cards it holds, the five on
    the board and the evaluator, for every showdown a hand can reach. */
module ByCards {
  import opened Types
  import opened Sums
  import opened PotCalc
  import opened Showdown
  import opened Betting
  import opened Tree
  import opened Ledger
  import opened Order
  import opened Story
  import opened Invariants
  import opened Theorems
  import opened Rulebook

  /** `values` holds, for every seat still in, the evaluation of its two cards and the board. */
  ghost predicate Evaluated(e: Engine, g: Game, values: seq<int>) {
    && |values| == |g.players|
    && forall s :: 0 <= s < |g.players| && g.players[s].StillIn() ==>
         && g.players[s].hole.Some?
         && values[s] == e.rank7([g.players[s].hole.value.0, g.players[s].hole.value.1] + g.board)
  }

  // ---------------------------------------------------------------------------
  // Only the contenders' hands matter
  // ---------------------------------------------------------------------------

  ghost predicate AgreeOn(seats: seq<nat>, xs: seq<int>, ys: seq<int>) {
    |xs| == |ys| && forall k :: 0 <= k < |seats| ==> seats[k] < |xs| && xs[seats[k]] == ys[seats[k]]
  }

  lemma {:induction false} BestAgrees(eligible: seq<nat>, xs: seq<int>, ys: seq<int>)
    requires eligible != [] && AgreeOn(eligible, xs, ys)
    ensures Best(xs, eligible) == Best(ys, eligible)
  {
    if |eligible| > 1 { BestAgrees(eligible[..|eligible| - 1], xs, ys); }
  }

  lemma {:induction false} WinnersAgree(eligible: seq<nat>, xs: seq<int>, ys: seq<int>, best: int)
    requires Ascending(eligible) && AgreeOn(eligible, xs, ys)
    ensures Winners(xs, eligible, best) == Winners(ys, eligible, best)
  {
    if eligible != [] { WinnersAgree(eligible[..|eligible| - 1], xs, ys, best); }
  }

  lemma ShareAgrees(pot: SidePot, xs: seq<int>, ys: seq<int>, dealer: nat, i: nat)
    requires Divisible(pot, |xs|) && AgreeOn(pot.eligible, xs, ys)
    ensures Share(pot, xs, dealer, i) == Share(pot, ys, dealer, i)
  {
    if pot.eligible != [] {
      BestAgrees(pot.eligible, xs, ys);
      WinnersAgree(pot.eligible, xs, ys, Best(xs, pot.eligible));
    }
  }

  lemma {:induction false} PayoutAgrees(pots: seq<SidePot>, xs: seq<int>, ys: seq<int>, dealer: nat, i: nat)
    requires |xs| == |ys| && AllDivisible(pots, |xs|)
    requires forall k :: 0 <= k < |pots| ==> AgreeOn(pots[k].eligible, xs, ys)
    ensures Payout(pots, xs, dealer, i) == Payout(pots, ys, dealer, i)
  {
    hide Share, AgreeOn;
    if pots != [] {
      PayoutAgrees(pots[..|pots| - 1], xs, ys, dealer, i);
      ShareAgrees(pots[|pots| - 1], xs, ys, dealer, i);
    }
  }

  // ---------------------------------------------------------------------------
  // Pots look at commitments and folds only
  // ---------------------------------------------------------------------------

  ghost predicate SameStakes(ps: seq<Player>, qs: seq<Player>) {
    |ps| == |qs| && forall i :: 0 <= i < |ps| ==>
      ps[i].committed == qs[i].committed && ps[i].status == qs[i].status
  }

  lemma {:induction false} LevelsSame(ps: seq<Player>, qs: seq<Player>)
    requires SameStakes(ps, qs)
    ensures Levels(ps) == Levels(qs)
  {
    if ps != [] { LevelsSame(ps[..|ps| - 1], qs[..|qs| - 1]); }
  }

  lemma {:induction false} EligibleSame(ps: seq<Player>, qs: seq<Player>, level: nat)
    requires SameStakes(ps, qs)
    ensures Eligible(ps, level) == Eligible(qs, level)
  {
    if ps != [] { EligibleSame(ps[..|ps| - 1], qs[..|qs| - 1], level); }
  }

  lemma SliceSame(ps: seq<Player>, qs: seq<Player>, prev: nat, level: nat)
    requires SameStakes(ps, qs)
    ensures Slice(ps, prev, level) == Slice(qs, prev, level)
  {
    SumSame(ps, (p: Player) => if p.committed >= level then Monus(level, prev) else 0,
            qs, (p: Player) => if p.committed >= level then Monus(level, prev) else 0);
  }

  lemma AddLevelSame(ps: seq<Player>, qs: seq<Player>, pots: seq<SidePot>, prev: nat, level: nat)
    requires SameStakes(ps, qs)
    ensures AddLevel(ps, pots, prev, level) == AddLevel(qs, pots, prev, level)
  {
    hide Slice, Eligible, SameStakes;
    EligibleSame(ps, qs, level);
    SliceSame(ps, qs, prev, level);
  }

  lemma {:induction false} PotsUpToSame(ps: seq<Player>, qs: seq<Player>, levels: seq<nat>, k: nat)
    requires SameStakes(ps, qs) && k <= |levels|
    ensures PotsUpTo(ps, levels, k) == PotsUpTo(qs, levels, k)
  {
    hide AddLevel, SameStakes;
    if k > 0 {
      PotsUpToSame(ps, qs, levels, k - 1);
      AddLevelSame(ps, qs, PotsUpTo(ps, levels, k - 1), Under(levels, k - 1), levels[k - 1]);
    }
  }

  lemma PotsSame(ps: seq<Player>, qs: seq<Player>)
    requires SameStakes(ps, qs)
    ensures ShowdownPots(ps) == ShowdownPots(qs)
  {
    LevelsSame(ps, qs);
    PotsUpToSame(ps, qs, Levels(ps), |Levels(ps)|);
  }

  // ---------------------------------------------------------------------------
  // Payouts by the cards
  // ---------------------------------------------------------------------------

  lemma ContendersAgree(e: Engine, u: Setup, h: Hand, values: seq<int>, k: nat)
    requires Balanced(u.stacks, h.g) && Evaluated(e, h.g, values) && k < |ShowdownPots(h.g.players)|
    ensures AgreeOn(ShowdownPots(h.g.players)[k].eligible, Ranks(e, h.g), values)
  {
    hide ShowdownPots, Balanced;
    BalancedLength(u.stacks, h.g);
    var eligible := ShowdownPots(h.g.players)[k].eligible;
    forall j | 0 <= j < |eligible|
      ensures eligible[j] < |values| && Ranks(e, h.g)[eligible[j]] == values[eligible[j]]
    {
      assert eligible[j] in eligible;
      ContendersAreLive(h.g.players, k, eligible[j]);
      NotInFoldedOrUnpaid(u, h, eligible[j]);
    }
  }

  lemma DeltasByCards(e: Engine, u: Setup, h: Hand, values: seq<int>)
    requires Balanced(u.stacks, h.g) && Evaluated(e, h.g, values)
    ensures ResolveShowdown(e, h).phase.deltas == ShowdownDeltas(h.g.players, values, h.g.dealer)
  {
    hide Ranks, ShowdownPots, Balanced, Evaluated, AgreeOn, Payout;
    var ps, pots := h.g.players, ShowdownPots(h.g.players);
    ShowdownDivisible(ps);
    assert |values| == |ps| by { EvaluatedLength(e, h.g, values); }
    forall k | 0 <= k < |pots| ensures AgreeOn(pots[k].eligible, Ranks(e, h.g), values) {
      ContendersAgree(e, u, h, values, k);
    }
    forall i | 0 <= i < |ps|
      ensures Payout(pots, Ranks(e, h.g), h.g.dealer, i) == Payout(pots, values, h.g.dealer, i)
    {
      PayoutAgrees(pots, Ranks(e, h.g), values, h.g.dealer, i);
    }
  }

  lemma EvaluatedLength(e: Engine, g: Game, values: seq<int>)
    requires Evaluated(e, g, values)
    ensures |values| == |g.players|
  {
  }

  lemma EvaluatedSame(e: Engine, h: Hand, values: seq<int>)
    requires Evaluated(e, ResolveShowdown(e, h).hand.g, values)
    ensures Evaluated(e, h.g, values)
  {
    hide ShowdownDeltas, Ranks;
    var g := ResolveShowdown(e, h).hand.g;
    forall s | 0 <= s < |h.g.players|
      ensures g.players[s].hole == h.g.players[s].hole && g.players[s].status == h.g.players[s].status
    {
    }
  }

  lemma ResolvedByCards(e: Engine, u: Setup, h: Hand, values: seq<int>)
    requires Balanced(u.stacks, h.g) && Evaluated(e, ResolveShowdown(e, h).hand.g, values)
    ensures var t := ResolveShowdown(e, h);
            |values| == |t.hand.g.players| &&
            t.phase.deltas == ShowdownDeltas(t.hand.g.players, values, t.hand.g.dealer)
  {
    hide Ranks, ShowdownPots, Balanced, Evaluated, Payout;
    var t := ResolveShowdown(e, h);
    EvaluatedLength(e, t.hand.g, values);
    EvaluatedSame(e, h, values);
    DeltasByCards(e, u, h, values);
    ResolvedSame(e, h);
    PotsSame(h.g.players, t.hand.g.players);
    ShowdownDivisible(h.g.players);
    ShowdownDivisible(t.hand.g.players);
  }

  /** Every showdown reached by play, with five cards on the board: the chips are layered into pots
      by what the seats committed and each pot is divided among its contenders by the evaluation of
      their two cards with the board, starting from the dealer the hand was called with. */
  lemma ShowdownByCards(e: Engine, u: Setup, script: seq<Action>, values: seq<int>)
    requires Playable(u)
    requires Played(e, u, script).phase.Terminal? && Played(e, u, script).hand.g.street == Street.Showdown
    requires Evaluated(e, Played(e, u, script).hand.g, values)
    ensures var t := Played(e, u, script);
            && |values| == |t.hand.g.players| == |u.stacks| && |t.hand.g.board| == 5
            && t.phase.deltas == ShowdownDeltas(t.hand.g.players, values, u.dealer)
  {
    hide Played, FromDeck, Read, Seen, Conceded, Balanced, ShowdownDeltas, Evaluated, ResolveShowdown;
    PlayedGood(e, u, script);
    PlayedIdentity(e, u, script);
    var t := Played(e, u, script);
    ConcededUnshown(e, u, t);
    var h :| AtShowdown(e.rules, u, h) && t == ResolveShowdown(e, h);
    AtShowdownBalanced(e.rules, u, h);
    ResolvedSame(e, h);
    ResolvedBoard(e, h);
    ResolvedByCards(e, u, h, values);
  }

  lemma ResolvedBoard(e: Engine, h: Hand)
    ensures ResolveShowdown(e, h).hand.g.board == h.g.board
  {
  }

  // ---------------------------------------------------------------------------
  // What that comes to for a seat
  // ---------------------------------------------------------------------------

  /** A live seat that put in as much contends for every pot that seat `i` contends for. */
  lemma ContendsToo(ps: seq<Player>, k: nat, i: nat, w: nat)
    requires k < |ShowdownPots(ps)| && i in ShowdownPots(ps)[k].eligible
    requires w < |ps| && ps[w].status != Folded && i < |ps| && ps[w].committed >= ps[i].committed
    ensures w in ShowdownPots(ps)[k].eligible
  {
    hide Eligible, ShowdownPots, Layers, Levels, Above;
    if Top(ps) == 0 { NoPots(ps); }
    var t := PotsAreLayers(ps);
    LayeredEligible(ps, Levels(ps), t, Above(ps, Top(ps)), k);
    assert w in Eligible(ps, Levels(ps)[k]);
  }

  lemma {:induction false} PayoutOfBeaten(pots: seq<SidePot>, ranks: seq<int>, dealer: nat, i: nat, w: nat)
    requires AllDivisible(pots, |ranks|) && i < |ranks| && w < |ranks| && ranks[i] < ranks[w]
    requires forall k :: 0 <= k < |pots| && i in pots[k].eligible ==> w in pots[k].eligible
    ensures Payout(pots, ranks, dealer, i) == 0
  {
    hide Share;
    if pots != [] {
      var n := |pots| - 1;
      PayoutOfBeaten(pots[..n], ranks, dealer, i, w);
      ShareAtMost(pots[n], ranks, dealer, i);
      if i in pots[n].eligible { TiesSplitEvenly(pots[n], ranks, dealer, i, w); }
    }
  }

  lemma {:induction false} AscendingFits(ws: seq<nat>, n: nat)
    requires Ascending(ws) && Within(ws, n)
    ensures |ws| <= n
  {
    if ws != [] {
      var k := |ws| - 1;
      AscendingFits(ws[..k], ws[k]);
    }
  }

  lemma WinnersFit(pot: SidePot, ranks: seq<int>)
    requires Divisible(pot, |ranks|) && pot.eligible != []
    ensures |PotWinners(pot, ranks)| <= |ranks|
  {
    var ws := PotWinners(pot, ranks);
    WinnersExist(pot, ranks);
    forall k | 0 <= k < |ws| ensures ws[k] < |ranks| { assert ws[k] in ws; }
    AscendingFits(ws, |ranks|);
  }

  lemma {:induction false} PayoutTies(pots: seq<SidePot>, ranks: seq<int>, dealer: nat, i: nat, j: nat)
    requires AllDivisible(pots, |ranks|) && i < |ranks| && j < |ranks| && ranks[i] == ranks[j]
    requires forall k :: 0 <= k < |pots| ==> (i in pots[k].eligible <==> j in pots[k].eligible)
    ensures Payout(pots, ranks, dealer, i) <= Payout(pots, ranks, dealer, j) + |pots| * |ranks|
  {
    hide Share, PotWinners;
    if pots != [] {
      var n := |pots| - 1;
      PayoutTies(pots[..n], ranks, dealer, i, j);
      ShareAtMost(pots[n], ranks, dealer, i);
      if i in pots[n].eligible {
        TiesSplitEvenly(pots[n], ranks, dealer, i, j);
        WinnersFit(pots[n], ranks);
      }
      assert |pots| * |ranks| == n * |ranks| + |ranks|;
    }
  }

  /** Seat `w` is in the hand with at least as much committed and a better hand. */
  ghost predicate BeatenBy(ps: seq<Player>, values: seq<int>, i: nat, w: nat)
    requires |values| == |ps| && i < |ps|
  {
    w < |ps| && ps[w].StillIn() && ps[w].committed >= ps[i].committed && values[w] > values[i]
  }

  lemma DeltasExact(ps: seq<Player>, values: seq<int>, dealer: nat, i: nat)
    requires |values| == |ps| && i < |ps|
    requires forall s :: 0 <= s < |ps| ==>
               (ps[s].StillIn() <==> ps[s].status != Folded && ps[s].status != Out) &&
               (ps[s].status.Out? ==> ps[s].committed == 0)
    ensures var paid := ShowdownDeltas(ps, values, dealer)[i];
            && (!ps[i].StillIn() ==> paid == 0)
            && (ps[i].StillIn() && ps[i].committed > 0 ==>
                  && paid <= Entitlement(ps, i)
                  && ((forall s :: 0 <= s < |ps| && s != i && ps[s].StillIn() ==> values[s] < values[i]) ==>
                        paid == Entitlement(ps, i)))
            && ((exists w :: BeatenBy(ps, values, i, w)) ==> paid == 0)
  {
    hide ShowdownPots, Entitlement, Payout;
    ShowdownDivisible(ps);
    PayoutExact(ps, values, dealer, i);
    if w :| BeatenBy(ps, values, i, w) {
      var pots := ShowdownPots(ps);
      forall k | 0 <= k < |pots| && i in pots[k].eligible ensures w in pots[k].eligible { ContendsToo(ps, k, i, w); }
      PayoutOfBeaten(pots, values, dealer, i, w);
    }
  }

  lemma StatusesAtEnd(e: Engine, u: Setup, script: seq<Action>)
    requires Playable(u)
    requires Played(e, u, script).phase.Terminal? && Played(e, u, script).hand.g.street == Street.Showdown
    ensures var ps := Played(e, u, script).hand.g.players;
            && |ps| == |u.stacks| && HasHoles(ps)
            && forall s :: 0 <= s < |ps| ==>
                 (ps[s].StillIn() <==> ps[s].status != Folded && ps[s].status != Out) &&
                 (ps[s].status.Out? ==> ps[s].committed == 0)
  {
    hide Played, FromDeck, Read, Seen, Conceded, Balanced, ShowdownDeltas;
    PlayedGood(e, u, script);
    var t := Played(e, u, script);
    ConcededUnshown(e, u, t);
    var h :| AtShowdown(e.rules, u, h) && t == ResolveShowdown(e, h);
    ResolvedSame(e, h);
    BalancedLength(u.stacks, h.g);
    forall s | 0 <= s < |t.hand.g.players|
      ensures var ps := t.hand.g.players;
              (ps[s].StillIn() <==> ps[s].status != Folded && ps[s].status != Out) &&
              (ps[s].status.Out? ==> ps[s].committed == 0)
    {
      NotInFoldedOrUnpaid(u, h, s);
    }
  }

  /** Every seat still in at a showdown was dealt in, so its hand has a value. */
  lemma HandsHaveValues(e: Engine, u: Setup, script: seq<Action>) returns (values: seq<int>)
    requires Playable(u)
    requires Played(e, u, script).phase.Terminal? && Played(e, u, script).hand.g.street == Street.Showdown
    ensures Evaluated(e, Played(e, u, script).hand.g, values)
  {
    hide Played;
    StatusesAtEnd(e, u, script);
    values := Ranks(e, Played(e, u, script).hand.g);
  }

  /** What seat `i` is paid at any showdown reached by play: nothing unless it is still in; never
      more than its entitlement; exactly that if its cards with the board beat every other live
      hand; nothing if a live hand that put in as much beats it. */
  lemma ShowdownExact(e: Engine, u: Setup, script: seq<Action>, values: seq<int>, i: nat)
    requires Playable(u) && i < |u.stacks|
    requires Played(e, u, script).phase.Terminal? && Played(e, u, script).hand.g.street == Street.Showdown
    requires Evaluated(e, Played(e, u, script).hand.g, values)
    ensures var t := Played(e, u, script);
            |values| == |t.hand.g.players| == |t.phase.deltas| == |u.stacks| &&
            var ps, paid := t.hand.g.players, t.phase.deltas[i];
            && (!ps[i].StillIn() ==> paid == 0)
            && (ps[i].StillIn() && ps[i].committed > 0 ==>
                  && paid <= Entitlement(ps, i)
                  && ((forall s :: 0 <= s < |ps| && s != i && ps[s].StillIn() ==> values[s] < values[i]) ==>
                        paid == Entitlement(ps, i)))
            && ((exists w :: BeatenBy(ps, values, i, w)) ==> paid == 0)
  {
    hide Played, Evaluated, Entitlement, ShowdownDeltas, BeatenBy;
    ShowdownByCards(e, u, script, values);
    StatusesAtEnd(e, u, script);
    DeltasExact(Played(e, u, script).hand.g.players, values, u.dealer, i);
  }

  /** Equal hands with equal commitments are paid alike, up to the odd chips of each pot. */
  lemma EqualHandsSplit(e: Engine, u: Setup, script: seq<Action>, values: seq<int>, i: nat, j: nat)
    requires Playable(u) && i < |u.stacks| && j < |u.stacks|
    requires Played(e, u, script).phase.Terminal? && Played(e, u, script).hand.g.street == Street.Showdown
    requires Evaluated(e, Played(e, u, script).hand.g, values)
    ensures var t := Played(e, u, script);
            |values| == |t.hand.g.players| == |t.phase.deltas| == |u.stacks| &&
            var ps := t.hand.g.players;
            ps[i].StillIn() && ps[j].StillIn() && ps[i].committed == ps[j].committed && values[i] == values[j] ==>
              t.phase.deltas[i] <= t.phase.deltas[j] + |ShowdownPots(ps)| * |ps|
  {
    hide Played, Evaluated, ShowdownPots, Payout;
    ShowdownByCards(e, u, script, values);
    var ps := Played(e, u, script).hand.g.players;
    var pots := ShowdownPots(ps);
    ShowdownDivisible(ps);
    if ps[i].StillIn() && ps[j].StillIn() && ps[i].committed == ps[j].committed && values[i] == values[j] {
      forall k | 0 <= k < |pots| ensures i in pots[k].eligible <==> j in pots[k].eligible {
        if i in pots[k].eligible { ContendsToo(ps, k, i, j); }
        if j in pots[k].eligible { ContendsToo(ps, k, j, i); }
      }
      PayoutTies(pots, values, u.dealer, i, j);
    }
  }
}
