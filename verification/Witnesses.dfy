/** The shortfalls of the engine at concrete calls. */
module Witnesses {
  import opened Types
  import opened Sums
  import opened Seats
  import opened PotCalc
  import opened Betting
  import opened Tree
  import opened Ledger
  import opened Invariants
  import opened Forced
  import opened Theorems
  import opened Limits

  function TableOf(stacks: seq<nat>, dealer: nat, cards: seq<Card>): Setup { Setup(1, 0, cards, stacks, dealer, None) }

  /** Blinds 1 and 2, ante 1, two stacks of ten: checking and calling need never end. */
  lemma AnteRunsOn(rank7: seq<Card> -> int, cards: seq<Card>)
    ensures var u := TableOf([10, 10], 0, cards);
            Playable(u) && !AlwaysEnds(Engine(Rules(NoLimit, 1, 2, 1), rank7), u)
  {
    hide AlwaysEnds;
    var u := TableOf([10, 10], 0, cards);
    assert LiveSeat(u, 0) && LiveSeat(u, 1);
    assert BbSeat(u) == 0;
    AnteOverbets(Engine(Rules(NoLimit, 1, 2, 1), rank7), u);
  }

  /** Blinds 1 and 2, stacks 1 and 2: the small blind takes the pot, more than it can win. */
  lemma BlindsOverpay(rank7: seq<Card> -> int, cards: seq<Card>)
    ensures var e := Engine(Rules(NoLimit, 1, 2, 0), rank7); var u := TableOf([1, 2], 1, cards);
            && Playable(u) && New(e, u).phase.Terminal? &&
               |Opened(e.rules, u).g.players| == |New(e, u).phase.deltas| == 2
            && New(e, u).phase.deltas[0] > Entitlement(Opened(e.rules, u).g.players, 0)
  {
    hide New, Opened, Entitlement, SumCommitted;
    var e, u := Engine(Rules(NoLimit, 1, 2, 0), rank7), TableOf([1, 2], 1, cards);
    assert LiveSeat(u, 0) && LiveSeat(u, 1);
    assert SbSeat(u) == 0 && BbSeat(u) == 1;
    BlindsPayBySeat(e, u, 0);
    assert Posted(e.rules, u, 1) == 2 > Posted(e.rules, u, 0);
  }

  /** Blinds 1 and 2, one stack of ten: folding loses the blinds. */
  lemma LoneSeatFolds(rank7: seq<Card> -> int, cards: seq<Card>)
    ensures var e := Engine(Rules(NoLimit, 1, 2, 0), rank7); var u := TableOf([10], 0, cards);
            && Playable(u) && Played(e, u, [Fold]).phase.Terminal?
            && !PaidOut(u.stacks, Played(e, u, [Fold]).hand.g, Played(e, u, [Fold]).phase.deltas)
  {
    hide Played, PaidOut;
    var e, u := Engine(Rules(NoLimit, 1, 2, 0), rank7), TableOf([10], 0, cards);
    assert LiveSeat(u, 0);
    assert SbSeat(u) == 0 && BbSeat(u) == 0;
    assert CanAct(e.rules, u, 0);
    assert Posted(e.rules, u, 0) > 0;
    LoneFoldLosesChips(e, u);
  }

  // ---------------------------------------------------------------------------
  // A one-chip raise that reopens
  // ---------------------------------------------------------------------------

  /** Four seats as the betting sees them, at a decision. */
  ghost predicate Looks(t: Node, current: nat, stacks: seq<nat>, bets: seq<nat>, bet: nat, short: nat,
      responded: seq<bool>) {
    && t.phase == Decision(current, responded) && current < 4 &&
       |responded| == |stacks| == |bets| == |t.hand.g.players| == 4
    && t.hand.g.currentBet == bet && t.hand.g.minRaise == 10 && t.hand.g.shortSum == short
    && forall i :: 0 <= i < 4 ==>
         && t.hand.g.players[i].stack == stacks[i] && t.hand.g.players[i].bet == bets[i]
         && t.hand.g.players[i].status == if stacks[i] > 0 then Active else Status.AllIn
  }

  /** A step that neither ends the hand nor the round. */
  lemma StepOn(e: Engine, t: Node, a: Action, next: nat)
    requires WellFormed(t) && t.phase.Decision? && |t.hand.g.players| >= 2
    requires var h := ActHand(t.hand, t.phase.current, a);
             && h.g.players[0].StillIn() && h.g.players[1].StillIn()
             && Scan(UnsettledMask(h.g, ActResponded(t.hand.g, t.phase.responded, t.phase.current, a)),
                t.phase.current, 1) == Some(next)
    ensures Step(e, t, a) == Node(ActHand(t.hand, t.phase.current, a),
                                  Decision(next, ActResponded(t.hand.g, t.phase.responded, t.phase.current, a)))
  {
    hide ActHand, ActResponded, NextStreets, AwardUncontested;
    ActLengths(t.hand, t.phase.responded, t.phase.current, a);
    SumAtLeastTwo(ActHand(t.hand, t.phase.current, a).g.players, StillInOf, 0, 1);
  }

  function Uncalled(cards: seq<Card>): Setup { TableOf([20, 100, 21, 16], 0, cards) }

  lemma Opening4(e: Engine, cards: seq<Card>)
    requires e.rules == Rules(NoLimit, 5, 10, 0)
    ensures Playable(Uncalled(cards))
    ensures Looks(New(e, Uncalled(cards)), 3, [20, 95, 11, 16], [0, 5, 10, 0], 10, 0, [false, false, false, false])
  {
    hide Opened, Blinded, BigBlindSeat;
    var u := Uncalled(cards);
    assert u.stacks[0] > 0;
    assert SbSeat(u) == 1 && BbSeat(u) == 2;
    forall i | 0 <= i < 4
      ensures var p := Opened(e.rules, u).g.players[i];
              && p.stack == [20, 95, 11, 16][i] && p.bet == [0, 5, 10, 0][i] && p.status.Active?
    {
      OpenedSeat(e.rules, u, i);
    }
    OpenedRegisters(e.rules, u);
    BlindedBb(e.rules, u);
    var ps := Opened(e.rules, u).g.players;
    assert Scan(ActiveMask(ps), 2, 1) == Some(3);
    assert Silent(4) == [false, false, false, false];
  }

  lemma BlindedBb(rules: Rules, u: Setup)
    requires Playable(u)
    ensures BigBlindSeat(Blinded(rules, u).g) == BbSeat(u)
  {
    var g := Blinded(rules, u).g;
    forall i | 0 <= i < |u.stacks| ensures StillInMask(g.players)[i] == Funded(u.stacks)[i] {
      BlindedCharged(rules, u, i);
      StillInFunded(g.players[i], u.stacks[i], Due(rules, u, i));
    }
    assert StillInMask(g.players) == Funded(u.stacks);
    AntesRegisters(Started(rules, u), rules.ante, |u.stacks|);
    AntedSomeone(rules, u);
  }

  lemma FirstShove(e: Engine, t: Node)
    requires Looks(t, 3, [20, 95, 11, 16], [0, 5, 10, 0], 10, 0, [false, false, false, false])
    ensures WellFormed(t)
    ensures Looks(Step(e, t, Action.AllIn), 0, [20, 95, 11, 0], [0, 5, 10, 16], 16, 6, [false, false, false, true])
  {
    hide Step, ActionEvents;
    var r := ActResponded(t.hand.g, t.phase.responded, 3, Action.AllIn);
    assert r == [false, false, false, true];
    StepOn(e, t, Action.AllIn, 0);
  }

  lemma SecondShove(e: Engine, t: Node)
    requires Looks(t, 0, [20, 95, 11, 0], [0, 5, 10, 16], 16, 6, [false, false, false, true])
    ensures WellFormed(t)
    ensures Looks(Step(e, t, Action.AllIn), 1, [0, 95, 11, 0], [20, 5, 10, 16], 20, 10, [true, false, false, false])
  {
    hide Step, ActionEvents;
    var r := ActResponded(t.hand.g, t.phase.responded, 0, Action.AllIn);
    assert r == [true, false, false, false];
    StepOn(e, t, Action.AllIn, 1);
  }

  lemma TheCall(e: Engine, t: Node)
    requires Looks(t, 1, [0, 95, 11, 0], [20, 5, 10, 16], 20, 10, [true, false, false, false])
    ensures WellFormed(t)
    ensures Looks(Step(e, t, Call), 2, [0, 80, 11, 0], [20, 20, 10, 16], 20, 10, [true, true, false, false])
  {
    hide Step, ActionEvents;
    var r := ActResponded(t.hand.g, t.phase.responded, 1, Call);
    assert r == [true, true, false, false];
    StepOn(e, t, Call, 2);
  }

  lemma WrapsTo1(mask: seq<bool>)
    requires |mask| == 4 && !mask[3] && !mask[0] && mask[1]
    ensures Scan(mask, 2, 1) == Some(1)
  {
    assert Scan(mask, 2, 3) == Some(1);
  }

  lemma ThirdShove(e: Engine, t: Node)
    requires Looks(t, 2, [0, 80, 11, 0], [20, 20, 10, 16], 20, 10, [true, true, false, false])
    ensures WellFormed(t)
    ensures Looks(Step(e, t, Action.AllIn), 1, [0, 80, 0, 0], [20, 20, 21, 16], 21, 11, [false, false, true, false])
  {
    hide Step, ActionEvents;
    var r := ActResponded(t.hand.g, t.phase.responded, 2, Action.AllIn);
    assert r == [false, false, true, false];
    hide Scan;
    WrapsTo1(UnsettledMask(ActHand(t.hand, 2, Action.AllIn).g, r));
    StepOn(e, t, Action.AllIn, 1);
  }

  /** Blinds 5 and 10, stacks 20, 100, 21 and 16: all-ins to 16 and 20 together make a full
      raise; the small blind calls; an all-in to 21 then lets it raise again over one chip. */
  lemma OneChipReopens(rank7: seq<Card> -> int, cards: seq<Card>)
    ensures var e := Engine(Rules(NoLimit, 5, 10, 0), rank7); var u := Uncalled(cards);
            && Playable(u)
            && var t := Played(e, u, [Action.AllIn, Action.AllIn, Call, Action.AllIn]);
               && WellFormed(t) && t.phase.Decision? && t.phase.current == 1
               && Owed(t.hand.g, 1) == 1 < t.hand.g.minRaise && LegalAt(e, t).canRaise
  {
    hide New, Step, AllowedRun;
    var e, u := Engine(Rules(NoLimit, 5, 10, 0), rank7), Uncalled(cards);
    Opening4(e, cards);
    var t0 := New(e, u);
    FirstShove(e, t0);
    var t1 := Step(e, t0, Action.AllIn);
    SecondShove(e, t1);
    var t2 := Step(e, t1, Action.AllIn);
    TheCall(e, t2);
    var t3 := Step(e, t2, Call);
    ThirdShove(e, t3);
    var t4 := Step(e, t3, Action.AllIn);
    DriveFour(e, t0, Action.AllIn, Action.AllIn, Call, Action.AllIn);
  }

  /** Four actions are four steps. */
  lemma DriveFour(e: Engine, t: Node, a: Action, b: Action, c: Action, d: Action)
    requires WellFormed(t) && t.phase.Decision?
    requires WellFormed(Step(e, t, a)) && Step(e, t, a).phase.Decision?
    requires WellFormed(Step(e, Step(e, t, a), b)) && Step(e, Step(e, t, a), b).phase.Decision?
    requires WellFormed(Step(e, Step(e, Step(e, t, a), b), c)) && Step(e, Step(e, Step(e, t, a), b), c).phase.Decision?
    ensures Drive(e, t, [a, b, c, d], []).node == Step(e, Step(e, Step(e, Step(e, t, a), b), c), d)
  {
    hide Step, LegalAt;
    var asked := [];
    DriveOne(e, t, [a, b, c, d], asked);
    var asked1 := asked + [Asked(t.phase.current, LegalAt(e, t))];
    var t1 := Step(e, t, a);
    DriveOne(e, t1, [a, b, c, d][1..], asked1);
    var asked2 := asked1 + [Asked(t1.phase.current, LegalAt(e, t1))];
    var t2 := Step(e, t1, b);
    DriveOne(e, t2, [a, b, c, d][1..][1..], asked2);
    var asked3 := asked2 + [Asked(t2.phase.current, LegalAt(e, t2))];
    var t3 := Step(e, t2, c);
    DriveOne(e, t3, [a, b, c, d][1..][1..][1..], asked3);
    StepWellFormed(e, t3, d);
  }

  lemma DriveOne(e: Engine, t: Node, script: seq<Action>, asked: seq<Asked>)
    requires WellFormed(t) && t.phase.Decision? && script != []
    ensures WellFormed(Step(e, t, script[0]))
    ensures Drive(e, t, script, asked) == Drive(e, Step(e, t, script[0]), script[1..],
            asked + [Asked(t.phase.current, LegalAt(e, t))])
  {
    hide Step;
    StepWellFormed(e, t, script[0]);
  }
}
