/** Where the engine's promises stop: exact conditions for the results that do not hold for
    every call, and the ranges in which its 32-bit arithmetic is exact. */
module Limits {
  import opened Types
  import opened Sums
  import opened Seats
  import opened PotCalc
  import opened Showdown
  import opened Betting
  import opened Tree
  import opened EngineRun
  import opened Ledger
  import opened Order
  import opened Story
  import opened Invariants
  import opened Forced
  import opened Theorems

  // ---------------------------------------------------------------------------
  // Endless rounds
  // ---------------------------------------------------------------------------

  /** Check when free, call otherwise. */
  function Passive(g: Game, seat: nat): Action
    requires seat < |g.players|
  {
    if Owed(g, seat) == 0 then Check else Call
  }

  /** Seat `i` has bet past the bet to call, so it can only ever check, and is never settled. */
  ghost predicate Stuck(t: Node, i: nat) {
    && WellFormed(t) && t.phase.Decision? && i < |t.hand.g.players|
    && t.hand.g.players[t.phase.current].status.Active?
    && t.hand.g.players[i].status.Active? && t.hand.g.players[i].bet > t.hand.g.currentBet
    && StillInCount(t.hand.g.players) >= 2
  }

  lemma PassiveAct(h: Hand, seat: nat, i: nat)
    requires seat < |h.g.players| && i < |h.g.players| && h.g.players[seat].status.Active?
    requires h.g.players[i].status.Active? && h.g.players[i].bet > h.g.currentBet
    ensures var r := ActHand(h, seat, Passive(h.g, seat));
            && r.g.currentBet == h.g.currentBet && r.g.players[i] == h.g.players[i]
            && |r.g.players| == |h.g.players| && StillInCount(r.g.players) == StillInCount(h.g.players)
  {
    var a := Passive(h.g, seat);
    SumUpdate(h.g.players, seat, Actor(h.g, seat, a), StillInOf);
  }

  lemma PassiveStuck(e: Engine, t: Node, i: nat)
    requires Stuck(t, i)
    ensures var a := Passive(t.hand.g, t.phase.current);
            LegalAt(e, t).Allows(a) && Stuck(Step(e, t, a), i)
  {
    hide ActHand, StillInCount, NextStreets;
    var seat, responded := t.phase.current, t.phase.responded;
    var a := Passive(t.hand.g, seat);
    PassiveAct(t.hand, seat, i);
    var h, r := ActHand(t.hand, seat, a), ActResponded(t.hand.g, responded, seat, a);
    StepWellFormed(e, t, a);
    ScanFinds(UnsettledMask(h.g, r), seat);
    assert UnsettledMask(h.g, r)[i];
  }

  /** An overbet seat lets the table check and call for ever. */
  lemma {:induction false} NeverEnds(e: Engine, t: Node, i: nat, k: nat,
      asked: seq<Asked>) returns (script: seq<Action>)
    requires Stuck(t, i)
    ensures |script| == k && AllowedRun(e, t, script)
    ensures Drive(e, t, script, asked).node.phase.Decision?
    decreases k
  {
    hide Stuck, Step;
    StuckFormed(t, i);
    if k == 0 {
      script := [];
    } else {
      var a := Passive(t.hand.g, t.phase.current);
      PassiveStuck(e, t, i);
      StuckFormed(Step(e, t, a), i);
      var rest := NeverEnds(e, Step(e, t, a), i, k - 1, asked + [Asked(t.phase.current, LegalAt(e, t))]);
      script := [a] + rest;
      assert script[1..] == rest;
    }
  }

  lemma StuckFormed(t: Node, i: nat)
    requires Stuck(t, i)
    ensures WellFormed(t) && t.phase.Decision?
  {
  }

  ghost predicate AlwaysEnds(e: Engine, u: Setup)
    requires Playable(u)
  {
    forall script {:trigger Played(e, u, script)} ::
      AllowedRun(e, New(e, u), script) && |script| >= MostDecisions(u) ==> Played(e, u, script).phase.Terminal?
  }

  /** A lone live hand is over after one answer. */
  lemma LoneStepEnds(e: Engine, u: Setup, a: Action)
    requires Playable(u) && !TwoLive(u) && New(e, u).phase.Decision?
    ensures Step(e, New(e, u), a).phase.Terminal?
  {
    hide Opened, Blinded, TwoLive, NextStreets, AwardUncontested, BigBlindSeat;
    var t := New(e, u);
    var seat := t.phase.current;
    var b := Normalize(t.hand.g, seat, a);
    var h, r := ActHand(t.hand, seat, a), ActResponded(t.hand.g, t.phase.responded, seat, a);
    OpenedPreflop(e.rules, u);
    forall i | 0 <= i < |h.g.players| && i != seat ensures !h.g.players[i].StillIn() { LoneIn(e, u, seat, i); }
    if b.Fold? {
      NobodyLeft(e, h, seat, r);
    } else {
      OnlyOneIn(h.g.players, seat);
    }
  }

  lemma OnlyOneIn(ps: seq<Player>, i: nat)
    requires i < |ps| && ps[i].StillIn() && forall j :: 0 <= j < |ps| && j != i ==> !ps[j].StillIn()
    ensures StillInCount(ps) == 1
  {
    var out := ps[i].(status := Folded);
    SumUpdate(ps, i, out, StillInOf);
    SumZero(ps[i := out], StillInOf);
  }

  lemma LoneEnds(e: Engine, u: Setup, script: seq<Action>)
    requires Playable(u) && !TwoLive(u) && |script| >= MostDecisions(u)
    ensures Played(e, u, script).phase.Terminal?
  {
    hide New, Step, TwoLive;
    SomeDecisions(u);
    var t := New(e, u);
    if t.phase.Decision? {
      LoneStepEnds(e, u, script[0]);
      StepWellFormed(e, t, script[0]);
      var s := Step(e, t, script[0]);
      assert Drive(e, s, script[1..], [] + [Asked(t.phase.current, LegalAt(e, t))]).node == s;
    }
  }

  lemma SomeDecisions(u: Setup)
    ensures MostDecisions(u) > 0
  {
  }

  /** Exactly when allowed play always ends: when at most one hand is live, or no seat left with
      chips behind its forced bets was made to bet past the big blind. */
  lemma EndsExactlyWhenBounded(e: Engine, u: Setup)
    requires Playable(u) && e.rules.bigBlind > 0
    ensures AlwaysEnds(e, u) <==> !TwoLive(u) || ForcedWithin(e.rules, u)
  {
    hide New, AllowedRun, Opened, Played, TwoLive, MostDecisions, ForcedWithin, ActiveWithin;
    WithinIsForced(e.rules, u);
    if !TwoLive(u) || ForcedWithin(e.rules, u) {
      forall script {:trigger Played(e, u, script)} | AllowedRun(e, New(e, u), script) && |script| >= MostDecisions(u)
        ensures Played(e, u, script).phase.Terminal?
      {
        if TwoLive(u) { HandEnds(e, u, script); } else { LoneEnds(e, u, script); }
      }
    } else {
      var script := OverbetScript(e, u);
    }
  }

  lemma OverbetScript(e: Engine, u: Setup) returns (script: seq<Action>)
    requires Playable(u) && TwoLive(u) && !ActiveWithin(Opened(e.rules, u).g)
    ensures AllowedRun(e, New(e, u), script) && |script| >= MostDecisions(u) && Played(e, u, script).phase.Decision?
  {
    hide Sound, AllowedRun, Opened, Blinded;
    var g := Opened(e.rules, u).g;
    var i :| 0 <= i < |g.players| && g.players[i].status.Active? && g.players[i].bet > g.currentBet;
    NewGood(e, u);
    OpenedSound(e.rules, u);
    ScanFinds(ActiveMask(g.players), BigBlindSeat(Blinded(e.rules, u).g));
    assert ActiveMask(g.players)[i];
    assert Stuck(New(e, u), i);
    script := NeverEnds(e, New(e, u), i, MostDecisions(u), []);
  }

  /** With an ante and two live hands, a big blind with chips left keeps the hand from being
      bound to end: it has bet past the bet to call. */
  lemma AnteOverbets(e: Engine, u: Setup)
    requires Playable(u) && TwoLive(u) && e.rules.bigBlind > 0 && e.rules.ante > 0 && CanAct(e.rules, u, BbSeat(u))
    ensures !AlwaysEnds(e, u)
  {
    hide AlwaysEnds, TwoLive;
    EndsExactlyWhenBounded(e, u);
  }

  // ---------------------------------------------------------------------------
  // Hands decided without a showdown
  // ---------------------------------------------------------------------------

  lemma SomeAbove(ps: seq<Player>, level: nat, i: nat)
    requires i < |ps| && ps[i].committed > level
    ensures Above(ps, level) > 0
  {
    SumAtLeast(ps, (p: Player) => Monus(p.committed, level), i);
  }

  /** The first live seat. */
  ghost predicate FirstLive(u: Setup, w: nat) { LiveSeat(u, w) && forall i :: 0 <= i < w ==> !LiveSeat(u, i) }

  /** Every live hand posted at most what seat `w` did. */
  ghost predicate PostedMost(rules: Rules, u: Setup, w: nat)
    requires w < |u.stacks|
  {
    forall i :: 0 <= i < |u.stacks| && LiveSeat(u, i) ==> Posted(rules, u, i) <= Posted(rules, u, w)
  }

  lemma PostedMostIsTop(rules: Rules, u: Setup, w: nat)
    requires Playable(u) && FirstLive(u, w)
    ensures var ps := Opened(rules, u).g.players;
            FirstIn(ps) == w && ps[w].committed == Posted(rules, u, w) &&
            (ps[w].committed == Top(ps) <==> PostedMost(rules, u, w))
  {
    hide Opened, Posted, Top;
    var ps := Opened(rules, u).g.players;
    forall i | 0 <= i < |u.stacks|
      ensures ps[i].committed == Posted(rules, u, i) && (ps[i].StillIn() <==> LiveSeat(u, i))
      ensures LiveSeat(u, i) || ps[i].status.Folded? || ps[i].committed == 0
    {
      OpenedSeat(rules, u, i);
      OpenedIn(rules, u, i);
      if u.stacks[i] == 0 { BrokePostsNothing(rules, u, i); }
    }
    TopCovers(ps, w);
    if PostedMost(rules, u, w) { TopAtMost(ps, w); }
    forall i | 0 <= i < |u.stacks| && LiveSeat(u, i) ensures ps[i].committed <= Top(ps) { TopCovers(ps, i); }
  }

  lemma TopAtMost(ps: seq<Player>, w: nat)
    requires w < |ps| && forall i :: 0 <= i < |ps| && ps[i].status != Folded ==> ps[i].committed <= ps[w].committed
    ensures Top(ps) <= ps[w].committed
  {
  }

  /** All the chips are within a live seat's entitlement exactly when no live seat has more in. */
  lemma AllWithinEntitlement(ps: seq<Player>, w: nat)
    requires w < |ps| && ps[w].status != Folded
    ensures SumCommitted(ps) <= Entitlement(ps, w) <==> ps[w].committed == Top(ps)
  {
    UpToAbove(ps, ps[w].committed);
    TopCovers(ps, w);
    if ps[w].committed < Top(ps) {
      var j :| 0 <= j < |ps| && ps[j].status != Folded && ps[j].committed == Top(ps);
      SomeAbove(ps, ps[w].committed, j);
    }
  }

  lemma BrokePostsNothing(rules: Rules, u: Setup, i: nat)
    requires i < |u.stacks| && u.stacks[i] == 0
    ensures Posted(rules, u, i) == 0
  {
  }

  /** When nobody can act after the forced bets, the first live seat takes the whole pot,
      whatever the cards. That is within its entitlement exactly when no live hand posted more. */
  lemma BlindsPayBySeat(e: Engine, u: Setup, w: nat)
    requires Playable(u) && NobodyCanAct(e.rules, u) && FirstLive(u, w)
    ensures var t := New(e, u); var ps := Opened(e.rules, u).g.players;
            && t.phase.Terminal? && w < |ps| == |t.phase.deltas| && t.phase.deltas[w] == SumCommitted(ps)
            && (t.phase.deltas[w] <= Entitlement(ps, w) <==> PostedMost(e.rules, u, w))
  {
    hide Opened, Blinded, Balanced, Posted, PostedMost, NobodyCanAct, BigBlindSeat, Entitlement, Top;
    var h := Opened(e.rules, u);
    var ps := h.g.players;
    OverAtOnce(e, u);
    PostedMostIsTop(e.rules, u, w);
    OpenedIn(e.rules, u, w);
    OpenedBalanced(e.rules, u);
    CollectBalanced(u.stacks, h);
    AllWithinEntitlement(ps, w);
  }

  lemma {:induction false} StreetsKeepStatus(e: Engine, h: Hand)
    ensures var g := NextStreets(e, h).hand.g;
            && |g.players| == |h.g.players|
            && forall i :: 0 <= i < |g.players| ==>
                 g.players[i].status == h.g.players[i].status && g.players[i].committed == h.g.players[i].committed
    decreases StreetsLeft(h.g.street)
  {
    hide ActiveCount, ShowdownDeltas;
    match NextStreet(h.g.street)
    case None =>
    case Some((street, n)) =>
      var r := OpenStreet(e.rules, h, street, n);
      if !(ActiveCount(r.g.players) >= 2 && NextActiveAfter(r.g.dealer, r.g.players).Some?) { StreetsKeepStatus(e,
        Collect(r)); }
  }

  lemma NobodyPaid(e: Engine, h: Hand)
    requires forall i :: 0 <= i < |h.g.players| && h.g.players[i].status != Folded ==> h.g.players[i].committed == 0
    ensures Sum(ResolveShowdown(e, h).phase.deltas, Id) == 0
  {
    hide ShowdownDeltas;
    PayoutConserves(h.g.players, Ranks(e, h.g), h.g.dealer);
  }

  lemma ConcededHasWinner(e: Engine, u: Setup, t: Node)
    ensures Conceded(e, u, t) ==> SomeoneIn(t.hand.g.players)
  {
    hide Sound, AwardUncontested;
    if Conceded(e, u, t) {
      var h, w: nat :| LastStanding(e.rules, u, h, w) && t == AwardUncontested(h, w);
      AwardKeepsRecord(h, w);
      assert t.hand.g.players[w].StillIn();
    }
  }

  /** A showdown with no hand left in pays nothing. */
  lemma EmptyShowdown(e: Engine, u: Setup, t: Node)
    requires Good(e, u, t) && t.phase.Terminal? && !SomeoneIn(t.hand.g.players)
    ensures Sum(t.phase.deltas, Id) == 0
  {
    hide Sound, AtShowdown, Balanced, Conceded, ResolveShowdown;
    ConcededHasWinner(e, u, t);
    var h :| AtShowdown(e.rules, u, h) && t == ResolveShowdown(e, h);
    AtShowdownBalanced(e.rules, u, h);
    BalancedLength(u.stacks, h.g);
    ResolvedSame(e, h);
    forall i | 0 <= i < |h.g.players| && h.g.players[i].status != Folded ensures h.g.players[i].committed == 0 {
      NotInFoldedOrUnpaid(u, h, i);
      assert !t.hand.g.players[i].StillIn();
    }
    NobodyPaid(e, h);
  }

  lemma LoneIn(e: Engine, u: Setup, first: nat, i: nat)
    requires Playable(u) && !TwoLive(u) && first < |u.stacks| && i < |u.stacks| && i != first
    requires Opened(e.rules, u).g.players[first].StillIn()
    ensures !Opened(e.rules, u).g.players[i].StillIn()
  {
    hide Opened;
    OpenedIn(e.rules, u, i);
    OpenedIn(e.rules, u, first);
    assert i < first ==> !(LiveSeat(u, i) && LiveSeat(u, first));
    assert first < i ==> !(LiveSeat(u, first) && LiveSeat(u, i));
  }

  lemma NobodyActive(ps: seq<Player>)
    requires forall i :: 0 <= i < |ps| ==> !ps[i].StillIn()
    ensures ActiveCount(ps) == StillInCount(ps) == 0
  {
    SumZero(ps, ActiveOf);
    SumZero(ps, StillInOf);
  }

  lemma NobodyLeft(e: Engine, h: Hand, seat: nat, responded: seq<bool>)
    requires |responded| == |h.g.players| && |h.g.board| == BoardSize(h.g.street)
    requires forall i :: 0 <= i < |h.g.players| ==> !h.g.players[i].StillIn()
    ensures var t := Advance(e, h, seat, responded);
            && t.phase.Terminal? && |t.hand.g.players| == |h.g.players|
            && forall i :: 0 <= i < |h.g.players| ==>
                 !t.hand.g.players[i].StillIn() && t.hand.g.players[i].committed == h.g.players[i].committed
  {
    hide NextStreets, Collect, ActiveCount, StillInCount, DealRemaining;
    NobodyActive(h.g.players);
    ScanFinds(UnsettledMask(h.g, responded), seat);
    CollectBetween(h);
    CollectStatus(h);
    NobodyActive(Collect(h).g.players);
    RunOut(e, Collect(h), [], []);
    StreetsKeepStatus(e, Collect(h));
  }

  lemma CollectStatus(h: Hand)
    ensures |Collect(h).g.players| == |h.g.players|
    ensures forall i :: 0 <= i < |h.g.players| ==>
              Collect(h).g.players[i].status == h.g.players[i].status &&
                Collect(h).g.players[i].committed == h.g.players[i].committed
  {
  }

  /** A single live hand that can act can be folded, and then its forced bets are paid to
      nobody. */
  lemma LoneFoldLosesChips(e: Engine, u: Setup)
    requires Playable(u) && !TwoLive(u) && !NobodyCanAct(e.rules, u) && !NothingPosted(e.rules, u)
    ensures var t := Played(e, u, [Fold]);
            && t.phase.Terminal? && Sum(t.phase.deltas, Id) == 0 < SumCommitted(t.hand.g.players)
            && !PaidOut(u.stacks, t.hand.g, t.phase.deltas)
  {
    hide Opened, Blinded, Good, Advance, New, TwoLive, NobodyCanAct, Posted;
    OverAtOnce(e, u);
    NewGood(e, u);
    var t := New(e, u);
    var h, r := FoldAtOnce(e, u);
    NobodyLeft(e, h, t.phase.current, r);
    StepGood(e, u, t, Fold);
    StepWellFormed(e, t, Fold);
    var s := Step(e, t, Fold);
    assert Played(e, u, [Fold]) == s by { OneStep(e, t, Fold); }
    EmptyShowdown(e, u, s);
    var i :| 0 <= i < |u.stacks| && Posted(e.rules, u, i) > 0;
    OpenedSeat(e.rules, u, i);
    SumAtLeast(s.hand.g.players, CommittedOf, i);
  }

  /** Every way of playing the hand to its end pays out exactly what was committed. */
  ghost predicate AlwaysPaysOut(e: Engine, u: Setup)
    requires Playable(u)
  {
    forall script {:trigger Played(e, u, script)} ::
      var t := Played(e, u, script); t.phase.Terminal? ==> PaidOut(u.stacks, t.hand.g, t.phase.deltas)
  }

  /** Exactly when no chip can be lost: with two live hands, or when nobody is asked at all. */
  lemma PaysOutExactlyWhen(e: Engine, u: Setup)
    requires Playable(u) && e.rules.bigBlind > 0
    ensures AlwaysPaysOut(e, u) <==> TwoLive(u) || NobodyCanAct(e.rules, u)
  {
    hide Played, TwoLive, NobodyCanAct, PaidOut;
    if TwoLive(u) || NobodyCanAct(e.rules, u) {
      forall script {:trigger Played(e, u, script)} | Played(e, u, script).phase.Terminal?
        ensures var t := Played(e, u, script); PaidOut(u.stacks, t.hand.g, t.phase.deltas)
      {
        if TwoLive(u) { Conservation(e, u, script); } else { AtOncePaysOut(e, u, script); }
      }
    } else {
      SomebodyPaid(e.rules, u);
      LoneFoldLosesChips(e, u);
    }
  }

  lemma AtOncePaysOut(e: Engine, u: Setup, script: seq<Action>)
    requires Playable(u) && NobodyCanAct(e.rules, u)
    ensures var t := Played(e, u, script); t.phase.Terminal? && PaidOut(u.stacks, t.hand.g, t.phase.deltas)
  {
    hide Opened, Blinded, Balanced, NobodyCanAct, AwardUncontested;
    OverAtOnce(e, u);
    OpenedBalanced(e.rules, u);
    var ps := Opened(e.rules, u).g.players;
    var i :| 0 <= i < |u.stacks| && u.stacks[i] > 0 && !IsDead(u.kinds, i);
    OpenedIn(e.rules, u, i);
    AwardPaysOut(u.stacks, Opened(e.rules, u), FirstIn(ps));
  }

  lemma OneStep(e: Engine, t: Node, a: Action)
    requires WellFormed(t) && t.phase.Decision?
    ensures Drive(e, t, [a], []).node == Step(e, t, a)
  {
    hide Step;
    StepWellFormed(e, t, a);
    assert [a][1..] == [];
  }

  lemma FoldAtOnce(e: Engine, u: Setup) returns (h: Hand, r: seq<bool>)
    requires Playable(u) && !TwoLive(u) && New(e, u).phase.Decision?
    ensures var t := New(e, u);
            && h == ActHand(t.hand, t.phase.current, Fold)
            && r == ActResponded(t.hand.g, t.phase.responded, t.phase.current, Fold)
            && |r| == |h.g.players| == |u.stacks| && |h.g.board| == BoardSize(h.g.street)
            && forall i :: 0 <= i < |h.g.players| ==>
                 !h.g.players[i].StillIn() && h.g.players[i].committed == Opened(e.rules, u).g.players[i].committed
  {
    hide Opened, Blinded, TwoLive;
    var t := New(e, u);
    OpenedPreflop(e.rules, u);
    h := ActHand(t.hand, t.phase.current, Fold);
    r := ActResponded(t.hand.g, t.phase.responded, t.phase.current, Fold);
    forall i | 0 <= i < |h.g.players| ensures !h.g.players[i].StillIn() {
      if i != t.phase.current { LoneIn(e, u, t.phase.current, i); }
    }
  }

  // ---------------------------------------------------------------------------
  // An uncalled bet comes back
  // ---------------------------------------------------------------------------

  /** A live seat that alone put in the most is paid at least what nobody matched. */
  lemma UncalledBetReturned(ps: seq<Player>, ranks: seq<int>, dealer: nat, i: nat, second: nat)
    requires |ranks| == |ps| && i < |ps| && ps[i].status != Folded && ps[i].committed > second
    requires forall p :: 0 <= p < |ps| && p != i ==> ps[p].committed <= second
    ensures ShowdownDeltas(ps, ranks, dealer)[i] >= ps[i].committed - second
  {
    hide Share, Top, Levels, ShowdownPots, Slice;
    var c := ps[i].committed;
    assert Top(ps) == c;
    var levels, pots := Levels(ps), ShowdownPots(ps);
    var t := PotsAreLayers(ps);
    TopPot(ps, t);
    assert pots[t].eligible == [i] by { OnlyContender(ps, c, i); }
    if t > 0 {
      assert levels[t - 1] in levels;
      var p := LevelPaid(ps, levels[t - 1]);
      assert levels[t - 1] < levels[t];
    }
    SliceAtLeast(ps, Under(levels, t), c, i);
    ShowdownDivisible(ps);
    SoleShare(pots[t], ranks, dealer, i);
    PayoutAtLeast(pots, ranks, dealer, i, t);
  }

  lemma SliceAtLeast(ps: seq<Player>, prev: nat, level: nat, i: nat)
    requires i < |ps| && ps[i].committed >= level
    ensures Slice(ps, prev, level) >= Monus(level, prev)
  {
    SumAtLeast(ps, (p: Player) => if p.committed >= level then Monus(level, prev) else 0, i);
  }

  lemma SoleShare(pot: SidePot, ranks: seq<int>, dealer: nat, i: nat)
    requires Divisible(pot, |ranks|) && pot.eligible == [i]
    ensures Share(pot, ranks, dealer, i) == pot.amount
  {
  }

  lemma OnlyContender(ps: seq<Player>, level: nat, i: nat)
    requires i < |ps| && Contends(ps[i], level) && forall p :: 0 <= p < |ps| && p != i ==> ps[p].committed < level
    ensures Eligible(ps, level) == [i]
  {
    var el := Eligible(ps, level);
    assert i in el;
    forall k | 0 <= k < |el| ensures el[k] == i { assert el[k] in el; }
    assert el[0] == i && el[|el| - 1] == i;
  }

  lemma TopPot(ps: seq<Player>, t: nat)
    requires t < |Levels(ps)| && Levels(ps)[t] == Top(ps)
    requires ShowdownPots(ps) == AddToLast(Layers(ps, Levels(ps), t + 1), Above(ps, Top(ps)))
    ensures var pots := ShowdownPots(ps);
            && |pots| == t + 1 && pots[t].eligible == Eligible(ps, Top(ps))
            && pots[t].amount >= Slice(ps, Under(Levels(ps), t), Top(ps))
  {
    hide ShowdownPots, Levels, Top, Slice;
    LayerAt(ps, Levels(ps), t + 1, t);
  }

  // ---------------------------------------------------------------------------
  // 32-bit ranges
  // ---------------------------------------------------------------------------

  const I32_MAX := 0x7FFF_FFFF
  const U32_MAX := 0xFFFF_FFFF

  lemma SeatWithinTotal(start: seq<nat>, g: Game, i: nat)
    requires Balanced(start, g) && i < |start|
    ensures g.players[i].stack + g.players[i].committed <= Total(start)
    ensures g.pot + SumBets(g.players) <= Total(start)
  {
    SumAtLeast(start, Id, i);
    assert SeatBalanced(start[i], g.players[i]);
    BalancedChips(start, g);
  }

  /** With blinds and total chips in the signed range, no unsigned expression of a No-Limit
      decision wraps: the minimum raise, a seat's whole stack, the short-raise sum and the
      pot total all fit. */
  lemma DecisionFits(e: Engine, u: Setup, script: seq<Action>, i: nat)
    requires Playable(u) && Total(u.stacks) <= I32_MAX && e.rules.bigBlind <= I32_MAX && i < |u.stacks|
    requires Played(e, u, script).phase.Decision?
    ensures var g := Played(e, u, script).hand.g;
            && i < |g.players|
            && g.currentBet + g.minRaise <= U32_MAX
            && g.players[i].stack + g.players[i].bet <= I32_MAX
            && g.shortSum + g.players[i].stack + g.players[i].bet <= U32_MAX
            && g.pot + SumBets(g.players) <= I32_MAX
  {
    hide Played, Balanced, Table, Told, Level, Paying, Bounded, SumBets;
    PlayedGood(e, u, script);
    var t := Played(e, u, script);
    SoundBalanced(e.rules, u, t.hand);
    SeatWithinTotal(u.stacks, t.hand.g, i);
    BetWithin(u.stacks, t.hand.g, i);
  }

  lemma BetWithin(start: seq<nat>, g: Game, i: nat)
    requires Balanced(start, g) && i < |start|
    ensures g.players[i].bet <= g.players[i].committed
  {
    assert SeatBalanced(start[i], g.players[i]);
  }

  /** No slice of the side pots is worth more than all the chips committed. */
  lemma SliceFits(ps: seq<Player>, k: nat)
    requires k < |Levels(ps)|
    ensures Levels(ps)[k] >= Under(Levels(ps), k)
    ensures (Levels(ps)[k] - Under(Levels(ps), k)) * Contributors(ps, Levels(ps)[k]) <= SumCommitted(ps)
  {
    hide Levels, Contributors, Slice, UpTo;
    LevelsAreLevels(ps);
    var level, prev := Levels(ps)[k], Under(Levels(ps), k);
    SliceIsProduct(ps, prev, level);
    SliceIsDifference(ps, Levels(ps), k);
    UpToAbove(ps, level);
  }

  /** Nor does an end: every slice and every final stack is unsigned, every reported result signed. */
  lemma EndFits(e: Engine, u: Setup, script: seq<Action>, i: nat)
    requires Playable(u) && Total(u.stacks) <= I32_MAX && i < |u.stacks|
    requires Played(e, u, script).phase.Terminal?
    ensures var t := Played(e, u, script);
            && i < |t.hand.g.players| == |t.phase.deltas|
            && t.hand.g.players[i].stack <= I32_MAX && t.hand.g.players[i].committed <= I32_MAX
            && t.phase.deltas[i] <= I32_MAX
            && -I32_MAX <= t.phase.deltas[i] - t.hand.g.players[i].committed <= I32_MAX
            && forall k {:trigger Levels(t.hand.g.players)[k]} :: 0 <= k < |Levels(t.hand.g.players)| ==>
                 (Levels(t.hand.g.players)[k] - Under(Levels(t.hand.g.players), k)) * Contributors(t.hand.g.players,
                   Levels(t.hand.g.players)[k]) <= I32_MAX
  {
    hide Played, Good, Levels, Contributors, Under;
    var t := Played(e, u, script);
    PlayedGood(e, u, script);
    GoodCommitted(e, u, t, i);
    GoodPaysWithin(e, u, t);
    WithinChips(u.stacks, t.hand.g, t.phase.deltas);
    SumAtLeast(t.hand.g.players, StackOf, i);
    SumAtLeast(t.phase.deltas, Id, i);
    SumAtLeast(u.stacks, Id, i);
    forall k {:trigger Levels(t.hand.g.players)[k]} | 0 <= k < |Levels(t.hand.g.players)|
      ensures (Levels(t.hand.g.players)[k] - Under(Levels(t.hand.g.players), k)) * Contributors(t.hand.g.players,
              Levels(t.hand.g.players)[k]) <= I32_MAX
    {
      SliceFits(t.hand.g.players, k);
    }
  }
}
