/** The pausable stepper as an object (game/tree.rs): its fields change in place and every
    method is tied to the step function of module Tree. */
module GameTrees {
  import opened Types
  import opened Seats
  import opened PotCalc
  import opened Betting
  import opened Tree
  import opened EngineRun
  import opened Forced

  class GameTree {
    const engine: Engine
    var hand: Hand
    var phase: Phase

    ghost function At(): Node
      reads this
    {
      Node(hand, phase)
    }

    /** Posts, deals and folds dead hands with the engine's own loops, then looks for the first
        seat to act. */
    constructor (e: Engine, u: Setup)
      requires Playable(u)
      ensures engine == e && At() == New(e, u) && WellFormed(At())
      ensures phase.Terminal? <==> NobodyCanAct(e.rules, u)
      ensures phase.Decision? ==> CanAct(e.rules, u, phase.current)
    {
      FirstToAct(e, u);
      hide NobodyCanAct, CanAct, Post, PostBlinds, PostAntes, DealHoles, MarkDead, AwardUncontested, BigBlindSeat,
        NextActiveAfter,
           FirstIn, InitGame, SomeoneIn;
      var h := Started(e.rules, u);
      if e.rules.ante > 0 {
        h := PostAllAntes(h, e.rules.ante);
      }
      AntedSomeone(e.rules, u);
      h := PostBlinds(e.rules, h);
      var bb := BigBlindSeat(h.g);
      h := DealHoleCards(h);
      SatOutLength(e.rules, u);
      h := h.(g := MarkDead(h.g, u.kinds));
      var first := NextActiveAfter(bb, h.g.players);
      engine := e;
      if first.None? {
        var t := AwardUncontested(h, FirstIn(h.g.players));
        hand, phase := t.hand, t.phase;
      } else {
        hand, phase := h, Decision(first.value, Silent(|h.g.players|));
      }
    }

    /** The legal set at a decision, nothing at the end. */
    method LegalActions() returns (r: Option<Types.LegalActions>)
      requires WellFormed(At())
      ensures r == if phase.Decision? then Some(LegalAt(engine, At())) else None
    {
      if phase.Terminal? {
        return None;
      }
      return Some(ComputeLegal(engine.rules, hand.g, phase.current, !phase.responded[phase.current]));
    }

    method ApplyAction(a: Action)
      requires WellFormed(At()) && phase.Decision?
      modifies this
      ensures At() == Step(engine, old(At()), a) && WellFormed(At())
    {
      hide ActHand, ActResponded, Advance;
      StepWellFormed(engine, At(), a);
      var seat, responded := phase.current, phase.responded;
      ghost var g := hand.g;
      responded := ActResponded(hand.g, responded, seat, a);
      hand := ActHand(hand, seat, a);
      ActLengths(old(hand), old(phase.responded), seat, a);
      Move(seat, responded);
    }

    /** From just after an action to the next decision or the end. */
    method Move(seat: nat, responded: seq<bool>)
      requires |responded| == |hand.g.players|
      modifies this
      ensures At() == Advance(engine, old(hand), seat, responded)
    {
      hide AwardUncontested, NextStreets, Collect, StillInCount;
      if StillInCount(hand.g.players) == 1 {
        var t := AwardUncontested(hand, FirstIn(hand.g.players));
        hand, phase := t.hand, t.phase;
        return;
      }
      var next := FindSeat(UnsettledMask(hand.g, responded), seat);
      if next.Some? {
        phase := Decision(next.value, responded);
        return;
      }
      hand := Collect(hand);
      AdvanceStreets();
    }

    method AdvanceStreets()
      modifies this
      ensures At() == NextStreets(engine, old(hand))
    {
      hide ToShowdown, OpenStreet, Collect, ActiveCount, NextActiveAfter;
      while true
        invariant NextStreets(engine, old(hand)) == NextStreets(engine, hand)
        decreases StreetsLeft(hand.g.street)
      {
        var next := NextStreet(hand.g.street);
        if next.None? {
          var t := ToShowdown(engine, hand);
          hand, phase := t.hand, t.phase;
          return;
        }
        OpenStreetKeeps(engine.rules, hand, next.value.0, next.value.1);
        hand := OpenStreet(engine.rules, hand, next.value.0, next.value.1);
        var first := NextActiveAfter(hand.g.dealer, hand.g.players);
        if ActiveCount(hand.g.players) >= 2 && first.Some? {
          phase := Decision(first.value, Silent(|hand.g.players|));
          return;
        }
        hand := Collect(hand);
      }
    }
  }
}
