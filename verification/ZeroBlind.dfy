/** A big blind of zero: the minimum raise is zero too, and two seats can raise by nothing for
    as long as they like. With it, the exact condition under which allowed play always ends. */
module ZeroBlind {
  import opened Types
  import opened Sums
  import opened Seats
  import opened PotCalc
  import opened Showdown
  import opened Betting
  import opened Tree
  import opened EngineRun
  import opened Order
  import opened Story
  import opened Invariants
  import opened Forced
  import opened Theorems
  import opened Limits

  ghost predicate TwoCanAct(rules: Rules, u: Setup) {
    exists i, j :: 0 <= i < j < |u.stacks| && CanAct(rules, u, i) && CanAct(rules, u, j)
  }

  // ---------------------------------------------------------------------------
  // Raising by nothing
  // ---------------------------------------------------------------------------

  ghost predicate AllUnbet(g: Game) {
    forall i :: 0 <= i < |g.players| && g.players[i].status.Active? ==> g.players[i].bet == 0 < g.players[i].stack
  }

  /** Nothing to call, nothing to raise by, and two seats that can act, the one asked not having
      answered. */
  ghost predicate Idling(t: Node) {
    && WellFormed(t) && t.phase.Decision?
    && var g, seat := t.hand.g, t.phase.current;
       && g.currentBet == g.minRaise == 0 && AllUnbet(g)
       && g.players[seat].status.Active? && !t.phase.responded[seat]
       && exists j :: 0 <= j < |g.players| && j != seat && g.players[j].status.Active?
  }

  lemma IdleLegal(e: Engine, t: Node)
    requires Idling(t)
    ensures LegalAt(e, t).IsLegal(Raise(0))
  {
  }

  lemma IdleAct(h: Hand, responded: seq<bool>, seat: nat)
    requires seat < |h.g.players| == |responded| && h.g.currentBet == h.g.minRaise == 0 && AllUnbet(h.g)
    requires h.g.players[seat].status.Active?
    ensures var r := ActHand(h, seat, Raise(0));
            && r.g.players == h.g.players && r.g.currentBet == r.g.minRaise == 0
            && forall k :: 0 <= k < |responded| ==> ActResponded(h.g, responded, seat, Raise(0))[k] == (k == seat)
  {
    hide ActionEvents;
    assert Normalize(h.g, seat, Raise(0)) == Raise(0);
    assert Actor(h.g, seat, Raise(0)) == h.g.players[seat];
  }

  lemma IdleStep(e: Engine, t: Node)
    requires Idling(t)
    ensures Idling(Step(e, t, Raise(0)))
  {
    hide ActHand, ActResponded, NextStreets, AwardUncontested, StillInCount;
    var g, seat := t.hand.g, t.phase.current;
    IdleAct(t.hand, t.phase.responded, seat);
    ActLengths(t.hand, t.phase.responded, seat, Raise(0));
    var h, r := ActHand(t.hand, seat, Raise(0)), ActResponded(g, t.phase.responded, seat, Raise(0));
    var j :| 0 <= j < |g.players| && j != seat && g.players[j].status.Active?;
    TwoIn(h.g.players, seat, j);
    ScanFinds(UnsettledMask(h.g, r), seat);
    assert UnsettledMask(h.g, r)[j];
    var next := Scan(UnsettledMask(h.g, r), seat, 1).value;
    assert UnsettledMask(h.g, r)[next] && next != seat;
    assert h.g.players[seat].status.Active?;
  }

  lemma TwoIn(ps: seq<Player>, i: nat, j: nat)
    requires i < |ps| && j < |ps| && i != j && ps[i].StillIn() && ps[j].StillIn()
    ensures StillInCount(ps) >= 2
  {
    if i < j { SumAtLeastTwo(ps, StillInOf, i, j); } else { SumAtLeastTwo(ps, StillInOf, j, i); }
  }

  lemma {:induction false} IdlesOn(e: Engine, t: Node, k: nat, asked: seq<Asked>) returns (script: seq<Action>)
    requires Idling(t)
    ensures |script| == k && AllowedRun(e, t, script) && Drive(e, t, script, asked).node.phase.Decision?
    decreases k
  {
    hide Step, Idling;
    IdleFormed(t);
    if k == 0 {
      script := [];
    } else {
      IdleLegal(e, t);
      IdleStep(e, t);
      IdleFormed(Step(e, t, Raise(0)));
      var rest := IdlesOn(e, Step(e, t, Raise(0)), k - 1, asked + [Asked(t.phase.current, LegalAt(e, t))]);
      script := [Raise(0)] + rest;
      assert script[1..] == rest;
    }
  }

  lemma IdleFormed(t: Node)
    requires Idling(t)
    ensures WellFormed(t) && t.phase.Decision?
  {
  }

  lemma IdlingAtFirst(e: Engine, u: Setup)
    requires Playable(u) && e.rules.bigBlind == 0 && ForcedWithin(e.rules, u) && TwoCanAct(e.rules, u)
    ensures Idling(New(e, u))
  {
    hide Opened, Blinded, Due, BigBlindSeat;
    OpenedRegisters(e.rules, u);
    FirstToAct(e, u);
    var ps := Opened(e.rules, u).g.players;
    forall i | 0 <= i < |u.stacks|
      ensures ps[i].status.Active? <==> CanAct(e.rules, u, i)
      ensures CanAct(e.rules, u, i) ==> ps[i].bet == 0 < ps[i].stack
    {
      OpenedSeat(e.rules, u, i);
    }
    var i, j :| 0 <= i < j < |u.stacks| && CanAct(e.rules, u, i) && CanAct(e.rules, u, j);
    var t := New(e, u);
    assert !NobodyCanAct(e.rules, u);
    assert t.hand.g.players == ps && t.phase.Decision?;
    var other := if t.phase.current == i then j else i;
    assert ps[other].status.Active? && other != t.phase.current;
  }

  // ---------------------------------------------------------------------------
  // A single seat that can act
  // ---------------------------------------------------------------------------

  /** The only active seat, with nothing to call, settles itself whatever it does. */
  lemma LoneActorSettles(e: Engine, t: Node, a: Action)
    requires WellFormed(t) && t.phase.Decision? && LegalAt(e, t).Allows(a)
    requires var g, seat := t.hand.g, t.phase.current;
             && g.players[seat].status.Active? && g.players[seat].bet == g.currentBet
             && forall j :: 0 <= j < |g.players| && j != seat ==> !g.players[j].status.Active?
    ensures var seat := t.phase.current;
            var h, r := ActHand(t.hand, seat, a), ActResponded(t.hand.g, t.phase.responded, seat, a);
            && |h.g.players| == |r| == |t.hand.g.players| && h.g.board == t.hand.g.board &&
               h.g.street == t.hand.g.street
            && (forall k :: 0 <= k < |r| ==> !UnsettledMask(h.g, r)[k])
            && (forall k :: 0 <= k < |r| && k != seat ==> !h.g.players[k].status.Active?)
  {
    hide ActionEvents;
  }

  lemma FewActiveLeft(ps: seq<Player>, seat: nat)
    requires seat < |ps| && forall k :: 0 <= k < |ps| && k != seat ==> !ps[k].status.Active?
    ensures ActiveCount(ps) < 2
  {
    var out := ps[seat].(status := Folded);
    SumUpdate(ps, seat, out, ActiveOf);
    SumZero(ps[seat := out], ActiveOf);
  }

  lemma LoneActorEnds(e: Engine, t: Node, a: Action)
    requires WellFormed(t) && t.phase.Decision? && LegalAt(e, t).Allows(a) &&
             |t.hand.g.board| == BoardSize(t.hand.g.street)
    requires var g, seat := t.hand.g, t.phase.current;
             && g.players[seat].status.Active? && g.players[seat].bet == g.currentBet
             && forall j :: 0 <= j < |g.players| && j != seat ==> !g.players[j].status.Active?
    ensures Step(e, t, a).phase.Terminal?
  {
    hide ActHand, ActResponded, NextStreets, AwardUncontested, StillInCount, LegalAt, DealRemaining, ActiveCount;
    var seat := t.phase.current;
    LoneActorSettles(e, t, a);
    var h, r := ActHand(t.hand, seat, a), ActResponded(t.hand.g, t.phase.responded, seat, a);
    ScanFinds(UnsettledMask(h.g, r), seat);
    CollectBetween(h);
    CollectStatus(h);
    FewActiveLeft(Collect(h).g.players, seat);
    RunOut(e, Collect(h), [], []);
  }

  lemma OnlyOneCanAct(rules: Rules, u: Setup, i: nat, j: nat)
    requires !TwoCanAct(rules, u) && CanAct(rules, u, i) && i != j
    ensures !CanAct(rules, u, j)
  {
  }

  lemma OneActsOnce(e: Engine, u: Setup, script: seq<Action>)
    requires Playable(u) && e.rules.bigBlind == 0 && ForcedWithin(e.rules, u) && !TwoCanAct(e.rules, u)
    requires AllowedRun(e, New(e, u), script) && |script| >= MostDecisions(u)
    ensures Played(e, u, script).phase.Terminal?
  {
    hide Opened, Blinded, Due, BigBlindSeat, Step;
    SomeDecisions(u);
    var t := New(e, u);
    if t.phase.Decision? {
      FirstToAct(e, u);
      OpenedRegisters(e.rules, u);
      OpenedPreflop(e.rules, u);
      var ps := t.hand.g.players;
      forall i | 0 <= i < |u.stacks|
        ensures ps[i].status.Active? <==> CanAct(e.rules, u, i)
        ensures CanAct(e.rules, u, i) ==> ps[i].bet == 0
      {
        OpenedSeat(e.rules, u, i);
      }
      var seat := t.phase.current;
      forall j | 0 <= j < |ps| && j != seat ensures !ps[j].status.Active? { OnlyOneCanAct(e.rules, u, seat, j); }
      LoneActorEnds(e, t, script[0]);
      StepWellFormed(e, t, script[0]);
      var s := Step(e, t, script[0]);
      assert Drive(e, s, script[1..], [] + [Asked(t.phase.current, LegalAt(e, t))]).node == s;
    }
  }

  /** For every call: allowed play always ends if and only if at most one hand is live, or no seat
      left with chips was made to post more than the big blind and, where that is zero, at most
      one seat is left with chips. */
  lemma EndsExactlyWhen(e: Engine, u: Setup)
    requires Playable(u)
    ensures AlwaysEnds(e, u) <==>
            !TwoLive(u) || (ForcedWithin(e.rules, u) && (e.rules.bigBlind > 0 || !TwoCanAct(e.rules, u)))
  {
    hide New, AllowedRun, Opened, Played, TwoLive, MostDecisions, ForcedWithin, ActiveWithin, TwoCanAct;
    WithinIsForced(e.rules, u);
    if e.rules.bigBlind > 0 {
      EndsExactlyWhenBounded(e, u);
    } else if !TwoLive(u) || (ForcedWithin(e.rules, u) && !TwoCanAct(e.rules, u)) {
      forall script {:trigger Played(e, u, script)} | AllowedRun(e, New(e, u), script) && |script| >= MostDecisions(u)
        ensures Played(e, u, script).phase.Terminal?
      {
        if TwoLive(u) { OneActsOnce(e, u, script); } else { LoneEnds(e, u, script); }
      }
    } else if ForcedWithin(e.rules, u) {
      IdlingAtFirst(e, u);
      var script := IdlesOn(e, New(e, u), MostDecisions(u), []);
      IsPlayed(e, u, script);
    } else {
      var script := OverbetScript(e, u);
    }
  }

  lemma IsPlayed(e: Engine, u: Setup, script: seq<Action>)
    requires Playable(u)
    ensures Played(e, u, script) == Drive(e, New(e, u), script, []).node
  {
  }
}
