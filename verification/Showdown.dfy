/** Dividing the side pots among the best hands (`resolve_showdown`). `ranks` holds one
    evaluated hand per seat. */
module Showdown {
  import opened Types
  import opened Sums
  import opened Seats
  import opened PotCalc

  ghost predicate Within(seats: seq<nat>, n: nat) {
    forall k :: 0 <= k < |seats| ==> seats[k] < n
  }

  /** The best rank among the eligible seats. */
  function Best(ranks: seq<int>, eligible: seq<nat>): int
    requires eligible != [] && Within(eligible, |ranks|)
  {
    var n := |eligible| - 1;
    if n == 0 then ranks[eligible[0]] else Max(Best(ranks, eligible[..n]), ranks[eligible[n]])
  }

  /** The eligible seats that hold rank `best`, in seat order. */
  function Winners(ranks: seq<int>, eligible: seq<nat>, best: int): (ws: seq<nat>)
    requires Within(eligible, |ranks|) && Ascending(eligible)
    ensures Ascending(ws)
    ensures forall s {:trigger s in ws} :: s in ws <==> s in eligible && ranks[s] == best
  {
    if eligible == [] then []
    else
      var n := |eligible| - 1;
      var rest := Winners(ranks, eligible[..n], best);
      assert forall k :: 0 <= k < |rest| ==> rest[k] in rest;
      assert forall k :: 0 <= k < n ==> eligible[..n][k] == eligible[k];
      if ranks[eligible[n]] == best then rest + [eligible[n]] else rest
  }

  lemma {:induction false} BestHeld(ranks: seq<int>, eligible: seq<nat>)
    requires eligible != [] && Within(eligible, |ranks|)
    ensures forall s {:trigger s in eligible} :: s in eligible ==> ranks[s] <= Best(ranks, eligible)
    ensures exists s :: s in eligible && ranks[s] == Best(ranks, eligible)
  {
    var n := |eligible| - 1;
    assert eligible[n] in eligible;
    if n > 0 {
      BestHeld(ranks, eligible[..n]);
      assert forall s {:trigger s in eligible} :: s in eligible ==> s == eligible[n] || s in eligible[..n];
    }
  }

  function Mask(n: nat, seats: seq<nat>): (m: seq<bool>)
    ensures |m| == n
    ensures forall s :: 0 <= s < n ==> (m[s] <==> s in seats)
  {
    seq(n, s requires 0 <= s < n => s in seats)
  }

  ghost predicate Divisible(pot: SidePot, n: nat) {
    Within(pot.eligible, n) && Ascending(pot.eligible)
  }

  function PotWinners(pot: SidePot, ranks: seq<int>): seq<nat>
    requires Divisible(pot, |ranks|) && pot.eligible != []
  {
    Winners(ranks, pot.eligible, Best(ranks, pot.eligible))
  }

  function Quotient(a: nat, k: nat): nat requires k > 0 { a / k }
  function Rest(a: nat, k: nat): nat requires k > 0 { a % k }

  /** What one pot pays seat `i`: an equal share if it holds the best hand, and the odd
      chips if it is the first winner left of the dealer. */
  function Share(pot: SidePot, ranks: seq<int>, dealer: nat, i: nat): nat
    requires Divisible(pot, |ranks|)
  {
    if pot.eligible == [] || pot.amount == 0 then 0
    else if |pot.eligible| == 1 then if pot.eligible[0] == i then pot.amount else 0
    else
      var ws := PotWinners(pot, ranks);
      if ws == [] then 0
      else
        (if i in ws then Quotient(pot.amount, |ws|) else 0) +
        (if Scan(Mask(|ranks|, ws), dealer, 1) == Some(i) then Rest(pot.amount, |ws|) else 0)
  }

  lemma WinnersExist(pot: SidePot, ranks: seq<int>)
    requires Divisible(pot, |ranks|) && pot.eligible != []
    ensures PotWinners(pot, ranks) != []
    ensures forall s {:trigger s in PotWinners(pot, ranks)} :: s in PotWinners(pot, ranks) ==> s in pot.eligible
  {
    BestHeld(ranks, pot.eligible);
    var s :| s in pot.eligible && ranks[s] == Best(ranks, pot.eligible);
    assert s in PotWinners(pot, ranks);
  }

  lemma Division(amount: nat, k: nat)
    requires k > 0
    ensures amount == k * Quotient(amount, k) + Rest(amount, k)
    ensures Quotient(amount, k) + Rest(amount, k) <= amount
  {
    Grow(k, Quotient(amount, k));
  }

  lemma Grow(k: nat, q: nat)
    requires k > 0
    ensures q <= k * q
  {
  }

  /** No seat takes more than the pot, and only a contender takes anything. */
  lemma ShareAtMost(pot: SidePot, ranks: seq<int>, dealer: nat, i: nat)
    requires Divisible(pot, |ranks|)
    ensures Share(pot, ranks, dealer, i) <= if i in pot.eligible then pot.amount else 0
  {
    if pot.eligible != [] && pot.amount > 0 && |pot.eligible| > 1 {
      var ws := PotWinners(pot, ranks);
      WinnersExist(pot, ranks);
      Division(pot.amount, |ws|);
      assert i in ws ==> i in pot.eligible;
    }
  }

  /** A contender that beats every other one takes the whole pot. */
  lemma ShareOfBest(pot: SidePot, ranks: seq<int>, dealer: nat, i: nat)
    requires Divisible(pot, |ranks|) && i in pot.eligible
    requires forall s {:trigger s in pot.eligible} :: s in pot.eligible && s != i ==> ranks[s] < ranks[i]
    ensures Share(pot, ranks, dealer, i) == pot.amount
  {
    if pot.amount > 0 && |pot.eligible| > 1 {
      var ws := PotWinners(pot, ranks);
      WinnersExist(pot, ranks);
      BestHeld(ranks, pot.eligible);
      forall k | 0 <= k < |ws| ensures ws[k] == i { assert ws[k] in ws; }
      assert ws[0] == i && ws[|ws| - 1] == i;
      Division(pot.amount, 1);
      assert pot.amount == Quotient(pot.amount, 1);
    }
  }

  // ---------------------------------------------------------------------------
  // Nothing is lost in the division
  // ---------------------------------------------------------------------------

  function Id(x: nat): nat { x }

  function Shares(pot: SidePot, ranks: seq<int>, dealer: nat): (v: seq<nat>)
    requires Divisible(pot, |ranks|)
    ensures |v| == |ranks|
    ensures forall i :: 0 <= i < |v| ==> v[i] == Share(pot, ranks, dealer, i)
  {
    seq(|ranks|, i requires 0 <= i < |ranks| => Share(pot, ranks, dealer, i))
  }

  function Equally(n: nat, ws: seq<nat>, x: nat): (v: seq<nat>)
    ensures |v| == n
    ensures forall i :: 0 <= i < n ==> v[i] == if i in ws then x else 0
  {
    seq(n, i requires 0 <= i < n => if i in ws then x else 0)
  }

  lemma {:induction false} EquallySum(n: nat, ws: seq<nat>, x: nat)
    requires Ascending(ws) && Within(ws, n)
    ensures Sum(Equally(n, ws, x), Id) == |ws| * x
  {
    hide Sum;
    if ws == [] {
      SumZero(Equally(n, ws, x), Id);
    } else {
      var k := |ws| - 1;
      EquallySum(n, ws[..k], x);
      var v := Equally(n, ws[..k], x);
      SumUpdate(v, ws[k], x, Id);
      assert forall s :: s in ws <==> s == ws[k] || s in ws[..k];
      assert Equally(n, ws, x) == v[ws[k] := x];
      assert |ws| * x == k * x + x;
    }
  }

  /** A pot with a contender is paid out to the last chip. */
  lemma SharesSum(pot: SidePot, ranks: seq<int>, dealer: nat)
    requires Divisible(pot, |ranks|) && pot.eligible != []
    ensures Sum(Shares(pot, ranks, dealer), Id) == pot.amount
  {
    var n, v := |ranks|, Shares(pot, ranks, dealer);
    if pot.amount == 0 {
      SumZero(v, Id);
    } else if |pot.eligible| == 1 {
      EquallySum(n, pot.eligible, pot.amount);
      assert v == Equally(n, pot.eligible, pot.amount);
    } else {
      var ws := PotWinners(pot, ranks);
      WinnersExist(pot, ranks);
      var mask := Mask(n, ws);
      ScanFinds(mask, dealer);
      assert ws[0] in ws && ws[0] in pot.eligible && mask[ws[0]];
      var odd := Scan(mask, dealer, 1).value;
      var share, rest := Quotient(pot.amount, |ws|), Rest(pot.amount, |ws|);
      forall k | 0 <= k < |ws| ensures ws[k] < n { assert ws[k] in ws; }
      EquallySum(n, ws, share);
      EquallySum(n, [odd], rest);
      SumSplit(v, Id, Equally(n, ws, share), Id, Equally(n, [odd], rest), Id);
      Division(pot.amount, |ws|);
    }
  }

  /** Within a pot equal hands are paid alike but for the odd chips, fewer than the winners; a
      hand that another contender beats is paid nothing. */
  lemma TiesSplitEvenly(pot: SidePot, ranks: seq<int>, dealer: nat, i: nat, j: nat)
    requires Divisible(pot, |ranks|) && i in pot.eligible && j in pot.eligible && i < |ranks| && j < |ranks|
    ensures ranks[i] == ranks[j] ==> Share(pot, ranks, dealer, i) < Share(pot, ranks, dealer, j) + |PotWinners(pot,
            ranks)|
    ensures ranks[i] < ranks[j] ==> Share(pot, ranks, dealer, i) == 0
  {
    var ws := PotWinners(pot, ranks);
    WinnersExist(pot, ranks);
    ScanFinds(Mask(|ranks|, ws), dealer);
    BestHeld(ranks, pot.eligible);
    assert ranks[j] <= Best(ranks, pot.eligible);
    assert i in ws <==> ranks[i] == Best(ranks, pot.eligible);
  }

  /** Seat `i` contends for the pot and no other contender has a better hand. */
  ghost predicate HoldsPot(pot: SidePot, ranks: seq<int>, i: nat)
    requires Divisible(pot, |ranks|)
  {
    i in pot.eligible && forall s {:trigger s in pot.eligible} :: s in pot.eligible ==> ranks[s] <= ranks[i]
  }

  ghost function Holders(pot: SidePot, ranks: seq<int>): (best: set<nat>)
    requires Divisible(pot, |ranks|)
  {
    set s | s in pot.eligible && HoldsPot(pot, ranks, s)
  }

  ghost function Elements(ws: seq<nat>): set<nat> { set s | s in ws }

  lemma {:induction false} AscendingCount(ws: seq<nat>)
    requires Ascending(ws)
    ensures |Elements(ws)| == |ws|
  {
    if ws == [] {
      assert Elements(ws) == {};
    } else {
      var n := |ws| - 1;
      AscendingCount(ws[..n]);
      assert ws[n] !in Elements(ws[..n]);
      assert ws == ws[..n] + [ws[n]];
      assert Elements(ws) == Elements(ws[..n]) + {ws[n]};
    }
  }

  lemma WinnersAreHolders(pot: SidePot, ranks: seq<int>)
    requires Divisible(pot, |ranks|) && pot.eligible != []
    ensures forall s {:trigger s in PotWinners(pot, ranks)} ::
              s in PotWinners(pot, ranks) <==> s in Holders(pot, ranks)
    ensures |Holders(pot, ranks)| == |PotWinners(pot, ranks)| > 0
    ensures forall s :: s in Holders(pot, ranks) ==> s < |ranks|
  {
    var ws := PotWinners(pot, ranks);
    BestHeld(ranks, pot.eligible);
    WinnersExist(pot, ranks);
    AscendingCount(ws);
    assert Holders(pot, ranks) == Elements(ws);
  }

  /** Nearest left of the dealer among `best`. */
  ghost predicate Nearest(n: nat, dealer: nat, best: set<nat>, i: nat)
    requires forall s :: s in best ==> s < n
  {
    i in best && forall s :: s in best ==> StepsTo(n, dealer, i) <= StepsTo(n, dealer, s)
  }

  lemma OddHolder(n: nat, dealer: nat, ws: seq<nat>, best: set<nat>, i: nat)
    requires best != {} && forall s :: s in best ==> s < n
    requires forall s {:trigger s in ws} :: s in ws <==> s in best
    ensures Scan(Mask(n, ws), dealer, 1) == Some(i) <==> Nearest(n, dealer, best, i)
  {
    hide StepsTo, Scan;
    var mask := Mask(n, ws);
    var odd := Scan(mask, dealer, 1);
    forall s | s in best ensures odd.Some? && StepsTo(n, dealer, odd.value) <= StepsTo(n, dealer, s) {
      assert mask[s];
      ScanIsFirst(mask, dealer, s);
    }
    var w :| w in best;
    assert odd.value in best;
    if Nearest(n, dealer, best, i) { SameSteps(n, dealer, i, odd.value); }
  }

  /** The division of a pot, from the hands alone: everyone holding the best hand gets the pot
      divided by their number, and what that leaves over goes to the one of them that sits nearest
      left of the dealer. */
  lemma ShareExactly(pot: SidePot, ranks: seq<int>, dealer: nat, i: nat)
    requires Divisible(pot, |ranks|) && pot.eligible != []
    ensures var best := Holders(pot, ranks);
            && |best| > 0 && (forall s :: s in best ==> s < |ranks|)
            && Share(pot, ranks, dealer, i) ==
               (if i in best then pot.amount / |best| else 0) +
               (if Nearest(|ranks|, dealer, best, i) then pot.amount % |best| else 0)
  {
    hide Scan, Best, Winners, HoldsPot, Nearest, Mask, PotWinners, Holders;
    WinnersAreHolders(pot, ranks);
    var best := Holders(pot, ranks);
    OddHolder(|ranks|, dealer, PotWinners(pot, ranks), best, i);
    if |pot.eligible| == 1 { LoneHolder(pot, ranks); }
  }

  lemma SameSteps(n: nat, from: nat, i: nat, j: nat)
    requires i < n && j < n && StepsTo(n, from, i) == StepsTo(n, from, j)
    ensures i == j
  {
  }

  lemma LoneHolder(pot: SidePot, ranks: seq<int>)
    requires Divisible(pot, |ranks|) && |pot.eligible| == 1
    ensures Holders(pot, ranks) == {pot.eligible[0]}
  {
    assert pot.eligible[0] in pot.eligible;
  }

  // ---------------------------------------------------------------------------
  // All pots
  // ---------------------------------------------------------------------------

  ghost predicate AllDivisible(pots: seq<SidePot>, n: nat) {
    forall k :: 0 <= k < |pots| ==> Divisible(pots[k], n)
  }

  function Payout(pots: seq<SidePot>, ranks: seq<int>, dealer: nat, i: nat): nat
    requires AllDivisible(pots, |ranks|)
  {
    if pots == [] then 0
    else
      var n := |pots| - 1;
      Payout(pots[..n], ranks, dealer, i) + Share(pots[n], ranks, dealer, i)
  }

  function Payouts(pots: seq<SidePot>, ranks: seq<int>, dealer: nat): (v: seq<nat>)
    requires AllDivisible(pots, |ranks|)
    ensures |v| == |ranks|
    ensures forall i :: 0 <= i < |v| ==> v[i] == Payout(pots, ranks, dealer, i)
  {
    seq(|ranks|, i requires 0 <= i < |ranks| => Payout(pots, ranks, dealer, i))
  }

  lemma {:induction false} PayoutsSum(pots: seq<SidePot>, ranks: seq<int>, dealer: nat)
    requires AllDivisible(pots, |ranks|)
    requires forall k :: 0 <= k < |pots| ==> pots[k].eligible != []
    ensures Sum(Payouts(pots, ranks, dealer), Id) == Sum(pots, AmountOf)
  {
    if pots == [] {
      SumZero(Payouts(pots, ranks, dealer), Id);
    } else {
      var n := |pots| - 1;
      PayoutsSum(pots[..n], ranks, dealer);
      SharesSum(pots[n], ranks, dealer);
      SumSplit(Payouts(pots, ranks, dealer), Id, Payouts(pots[..n], ranks, dealer), Id, Shares(pots[n], ranks,
        dealer), Id);
    }
  }

  lemma {:induction false} PayoutAtMost(pots: seq<SidePot>, ranks: seq<int>, dealer: nat, i: nat)
    requires AllDivisible(pots, |ranks|)
    ensures Payout(pots, ranks, dealer, i) <= Contested(pots, i)
  {
    if pots != [] {
      PayoutAtMost(pots[..|pots| - 1], ranks, dealer, i);
      ShareAtMost(pots[|pots| - 1], ranks, dealer, i);
    }
  }

  lemma {:induction false} PayoutOfBest(pots: seq<SidePot>, ranks: seq<int>, dealer: nat, i: nat)
    requires AllDivisible(pots, |ranks|)
    requires forall k, s {:trigger s in pots[k].eligible} ::
               0 <= k < |pots| && i in pots[k].eligible && s in pots[k].eligible && s != i ==>
                 s < |ranks| && i < |ranks| && ranks[s] < ranks[i]
    ensures Payout(pots, ranks, dealer, i) == Contested(pots, i)
  {
    if pots != [] {
      var n := |pots| - 1;
      PayoutOfBest(pots[..n], ranks, dealer, i);
      ShareAtMost(pots[n], ranks, dealer, i);
      if i in pots[n].eligible { ShareOfBest(pots[n], ranks, dealer, i); }
    }
  }

  lemma {:induction false} PayoutAtLeast(pots: seq<SidePot>, ranks: seq<int>, dealer: nat, i: nat, k: nat)
    requires AllDivisible(pots, |ranks|) && k < |pots|
    ensures Payout(pots, ranks, dealer, i) >= Share(pots[k], ranks, dealer, i)
  {
    if k < |pots| - 1 { PayoutAtLeast(pots[..|pots| - 1], ranks, dealer, i, k); }
  }

  /** The payout loop of `resolve_showdown`. */
  method PayPots(pots: seq<SidePot>, ranks: seq<int>, dealer: nat) returns (deltas: seq<nat>)
    requires AllDivisible(pots, |ranks|)
    ensures deltas == Payouts(pots, ranks, dealer)
  {
    hide Share;
    deltas := seq(|ranks|, i => 0);
    for k := 0 to |pots|
      invariant deltas == Payouts(pots[..k], ranks, dealer)
    {
      assert pots[..k + 1][..k] == pots[..k];
      deltas := PayPot(deltas, pots[k], ranks, dealer);
    }
    assert pots[..|pots|] == pots;
  }

  method PayPot(before: seq<nat>, pot: SidePot, ranks: seq<int>, dealer: nat) returns (deltas: seq<nat>)
    requires Divisible(pot, |ranks|) && |before| == |ranks|
    ensures |deltas| == |before|
    ensures forall i :: 0 <= i < |before| ==> deltas[i] == before[i] + Share(pot, ranks, dealer, i)
  {
    hide Quotient, Rest, Best;
    deltas := before;
    if pot.eligible == [] || pot.amount == 0 {
      return;
    }
    if |pot.eligible| == 1 {
      var seat := pot.eligible[0];
      return deltas[seat := deltas[seat] + pot.amount];
    }
    var winners := PotWinners(pot, ranks);
    WinnersExist(pot, ranks);
    var share, remainder := Quotient(pot.amount, |winners|), Rest(pot.amount, |winners|);
    deltas := PayEach(before, winners, share);
    if remainder > 0 {
      var left := FindSeat(Mask(|ranks|, winners), dealer);
      assert winners[0] in winners && Mask(|ranks|, winners)[winners[0]];
      deltas := deltas[left.value := deltas[left.value] + remainder];
    }
  }

  method PayEach(before: seq<nat>, winners: seq<nat>, share: nat) returns (deltas: seq<nat>)
    requires Ascending(winners) && forall s {:trigger s in winners} :: s in winners ==> s < |before|
    ensures |deltas| == |before|
    ensures forall i :: 0 <= i < |before| ==> deltas[i] == before[i] + if i in winners then share else 0
  {
    deltas := before;
    for k := 0 to |winners|
      invariant |deltas| == |before|
      invariant forall i :: 0 <= i < |before| ==> deltas[i] == before[i] + if i in winners[..k] then share else 0
    {
      var w := winners[k];
      assert w in winners && w !in winners[..k];
      assert forall s :: s in winners[..k + 1] <==> s == w || s in winners[..k];
      deltas := deltas[w := deltas[w] + share];
    }
    assert winners[..|winners|] == winners;
  }

  // ---------------------------------------------------------------------------
  // The payout theorem
  // ---------------------------------------------------------------------------

  lemma {:induction false} PotsDivisible(ps: seq<Player>, levels: seq<nat>, k: nat)
    requires k <= |levels|
    ensures AllDivisible(PotsUpTo(ps, levels, k), |ps|)
  {
    if k > 0 {
      PotsDivisible(ps, levels, k - 1);
      var eligible := Eligible(ps, levels[k - 1]);
      assert forall j :: 0 <= j < |eligible| ==> eligible[j] in eligible;
    }
  }

  lemma ShowdownDivisible(ps: seq<Player>)
    ensures AllDivisible(ShowdownPots(ps), |ps|)
  {
    PotsDivisible(ps, Levels(ps), |Levels(ps)|);
  }

  /** What every seat is paid at showdown. */
  function ShowdownDeltas(ps: seq<Player>, ranks: seq<int>, dealer: nat): (v: seq<nat>)
    requires |ranks| == |ps|
    ensures |v| == |ps|
  {
    ShowdownDivisible(ps);
    Payouts(ShowdownPots(ps), ranks, dealer)
  }

  lemma ContendersAreLive(ps: seq<Player>, k: nat, s: nat)
    requires k < |ShowdownPots(ps)| && s in ShowdownPots(ps)[k].eligible
    ensures s < |ps| && ps[s].status != Folded && ps[s].committed > 0
  {
    if Top(ps) == 0 { NoPots(ps); }
    var t := PotsAreLayers(ps);
    LayeredEligible(ps, Levels(ps), t, Above(ps, Top(ps)), k);
  }

  /** The exact payout of a showdown. A live seat never takes more than its entitlement, and
      takes exactly that if its hand beats every other live hand; a folded seat takes nothing. */
  lemma PayoutExact(ps: seq<Player>, ranks: seq<int>, dealer: nat, i: nat)
    requires |ranks| == |ps| && i < |ps|
    ensures ps[i].status == Folded || ps[i].committed == 0 ==> ShowdownDeltas(ps, ranks, dealer)[i] == 0
    ensures ps[i].status != Folded && ps[i].committed > 0 ==>
              ShowdownDeltas(ps, ranks, dealer)[i] <= Entitlement(ps, i)
    ensures ps[i].status != Folded && ps[i].committed > 0 &&
            (forall s :: 0 <= s < |ps| && s != i && ps[s].status != Folded && ps[s].committed > 0 ==>
               ranks[s] < ranks[i]) ==>
              ShowdownDeltas(ps, ranks, dealer)[i] == Entitlement(ps, i)
  {
    ShowdownDivisible(ps);
    var pots := ShowdownPots(ps);
    PayoutAtMost(pots, ranks, dealer, i);
    forall k, s {:trigger s in pots[k].eligible} | 0 <= k < |pots| && s in pots[k].eligible
      ensures s < |ps| && ps[s].status != Folded && ps[s].committed > 0
    {
      ContendersAreLive(ps, k, s);
    }
    if ps[i].status == Folded || ps[i].committed == 0 {
      SumZero(pots, (p: SidePot) => if i in p.eligible then p.amount else 0);
    } else {
      ContestedIsEntitlement(ps, i);
      if forall s :: 0 <= s < |ps| && s != i && ps[s].status != Folded && ps[s].committed > 0 ==> ranks[s] < ranks[i] {
        PayoutOfBest(pots, ranks, dealer, i);
      }
    }
  }

  /** The showdown pays out every committed chip exactly when a live seat put some in. */
  lemma PayoutConserves(ps: seq<Player>, ranks: seq<int>, dealer: nat)
    requires |ranks| == |ps|
    ensures Sum(ShowdownDeltas(ps, ranks, dealer), Id) == SumCommitted(ps) <==> Top(ps) > 0 || SumCommitted(ps) == 0
    ensures Top(ps) == 0 ==> Sum(ShowdownDeltas(ps, ranks, dealer), Id) == 0
  {
    ShowdownDivisible(ps);
    var pots := ShowdownPots(ps);
    forall k | 0 <= k < |pots| ensures pots[k].eligible != [] { PotsNest(ps, k, k); }
    PayoutsSum(pots, ranks, dealer);
    PotsHoldEverything(ps);
    if Top(ps) == 0 { NoPots(ps); }
  }
}
