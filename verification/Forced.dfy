/** Forced bets as a caller can work them out: who posts what, from the arguments of a hand
    alone, and what the table looks like once they are up. */
module Forced {
  import opened Types
  import opened Seats
  import opened Betting
  import opened Tree
  import opened Ledger

  function Funded(stacks: seq<nat>): (mask: seq<bool>)
    ensures |mask| == |stacks| && forall i :: 0 <= i < |stacks| ==> mask[i] == (stacks[i] > 0)
  {
    seq(|stacks|, i requires 0 <= i < |stacks| => stacks[i] > 0)
  }

  /** The first funded seat after `from`, or `from` itself. */
  function NextFunded(stacks: seq<nat>, from: nat): nat {
    match Scan(Funded(stacks), from, 1)
    case Some(seat) => seat
    case None => from
  }

  function SbSeat(u: Setup): nat { NextFunded(u.stacks, u.dealer) }
  function BbSeat(u: Setup): nat { NextFunded(u.stacks, SbSeat(u)) }

  /** What a funded seat owes before the first decision. */
  function Due(rules: Rules, u: Setup, i: nat): nat {
    rules.ante + (if i == SbSeat(u) then rules.smallBlind else 0) + (if i == BbSeat(u) then rules.bigBlind else 0)
  }

  function Posted(rules: Rules, u: Setup, i: nat): nat
    requires i < |u.stacks|
  {
    Min(u.stacks[i], Due(rules, u, i))
  }

  /** A live hand with chips left behind its forced bets. */
  predicate CanAct(rules: Rules, u: Setup, i: nat) {
    i < |u.stacks| && u.stacks[i] > 0 && !IsDead(u.kinds, i) && u.stacks[i] > Due(rules, u, i)
  }

  /** No seat that can act has been made to bet past the big blind. */
  ghost predicate ForcedWithin(rules: Rules, u: Setup) {
    forall i :: 0 <= i < |u.stacks| && CanAct(rules, u, i) ==> Due(rules, u, i) <= rules.bigBlind
  }

  ghost predicate NobodyCanAct(rules: Rules, u: Setup) {
    forall i :: 0 <= i < |u.stacks| ==> !CanAct(rules, u, i)
  }

  /** A seat that started with `start` and was charged `due`. */
  ghost predicate Charged(p: Player, start: nat, due: nat) {
    && p.bet == p.committed == Min(start, due) && p.stack == start - p.bet
    && p.status == if start == 0 then Out else if start > due then Active else Status.AllIn
  }

  lemma PostCharged(p: Player, start: nat, due: nat, amount: nat)
    requires Charged(p, start, due) && start > 0
    ensures Charged(SpendOrShove(p, Min(amount, p.stack)), start, due + amount)
  {
  }

  lemma {:induction false} AntesCharged(h: Hand, ante: nat, k: nat, i: nat, start: nat)
    requires k <= |h.g.players| && i < |h.g.players| && Charged(h.g.players[i], start, 0)
    ensures var p := PostAntes(h, ante, k).g.players[i];
            if i < k then Charged(p, start, ante) else p == h.g.players[i]
  {
    if k > 0 {
      AntesCharged(h, ante, k - 1, i, start);
      if i == k - 1 && start > 0 { PostCharged(h.g.players[i], start, 0, ante); }
    }
  }

  lemma AntedCharged(rules: Rules, u: Setup, i: nat)
    requires i < |u.stacks|
    ensures Charged(Anted(rules, u).g.players[i], u.stacks[i], rules.ante)
  {
    AntesCharged(Started(rules, u), rules.ante, |u.stacks|, i, u.stacks[i]);
  }

  /** Who posts the blinds depends on funded seats only. */
  lemma BlindSeats(rules: Rules, u: Setup)
    ensures var g := Anted(rules, u).g; SmallBlindSeat(g) == SbSeat(u) && BigBlindSeat(g) == BbSeat(u)
  {
    var g := Anted(rules, u).g;
    forall i | 0 <= i < |u.stacks| ensures StillInMask(g.players)[i] == Funded(u.stacks)[i] { AntedIn(rules, u, i); }
    assert StillInMask(g.players) == Funded(u.stacks);
    AntesRegisters(Started(rules, u), rules.ante, |u.stacks|);
  }

  /** The blinds on a charged table. */
  lemma BlindsCharged(rules: Rules, h: Hand, i: nat, start: nat, due: nat)
    requires SomeoneIn(h.g.players) && i < |h.g.players| && Charged(h.g.players[i], start, due)
    ensures var sb, bb := SmallBlindSeat(h.g), BigBlindSeat(h.g);
            Charged(PostBlinds(rules, h).g.players[i], start,
                    due + (if i == sb then rules.smallBlind else 0) + (if i == bb then rules.bigBlind else 0))
  {
    hide Charged, SpendOrShove;
    var sb, bb := SmallBlindSeat(h.g), BigBlindSeat(h.g);
    NextInListFinds(h.g.dealer, h.g.players);
    NextInListFinds(sb, h.g.players);
    StillInFunded(h.g.players[i], start, due);
    var p := h.g.players[i];
    if i == sb { PostCharged(p, start, due, rules.smallBlind); }
    if i == bb {
      var q := if i == sb then SpendOrShove(p, Min(rules.smallBlind, p.stack)) else p;
      PostCharged(q, start, due + (if i == sb then rules.smallBlind else 0), rules.bigBlind);
    }
  }

  lemma StillInFunded(p: Player, start: nat, due: nat)
    requires Charged(p, start, due)
    ensures p.StillIn() <==> start > 0
  {
  }

  lemma BlindedCharged(rules: Rules, u: Setup, i: nat)
    requires Playable(u) && i < |u.stacks|
    ensures Charged(Blinded(rules, u).g.players[i], u.stacks[i], Due(rules, u, i))
  {
    hide Charged, Anted, PostBlinds;
    AntedCharged(rules, u, i);
    AntedSomeone(rules, u);
    BlindSeats(rules, u);
    BlindsCharged(rules, Anted(rules, u), i, u.stacks[i], rules.ante);
  }

  /** The table before the first decision, seat by seat. */
  lemma OpenedSeat(rules: Rules, u: Setup, i: nat)
    requires Playable(u) && i < |u.stacks|
    ensures var p := Opened(rules, u).g.players[i];
            && p.bet == p.committed == Posted(rules, u, i) && p.stack == u.stacks[i] - p.bet
            && p.status == if u.stacks[i] == 0 then Out
                           else if IsDead(u.kinds, i) then Folded
                           else if CanAct(rules, u, i) then Active else Status.AllIn
  {
    hide Blinded;
    BlindedCharged(rules, u, i);
    DealKeepsChips(Blinded(rules, u), |u.stacks|);
    SatOutLength(rules, u);
  }

  lemma {:induction false} DealKeepsRegisters(h: Hand, k: nat)
    requires k <= |h.g.players|
    ensures DealHoles(h, k).g.(players := h.g.players) == h.g
  {
    if k > 0 { DealKeepsRegisters(h, k - 1); }
  }

  lemma OpenedRegisters(rules: Rules, u: Setup)
    requires Playable(u)
    ensures var g := Opened(rules, u).g;
            && g.currentBet == g.minRaise == rules.bigBlind && g.shortSum == 0
            && g.dealer == u.dealer && g.handId == u.handId
  {
    DealKeepsRegisters(Blinded(rules, u), |u.stacks|);
    SatOutLength(rules, u);
    AntesRegisters(Started(rules, u), rules.ante, |u.stacks|);
    AntedSomeone(rules, u);
  }

  lemma {:induction false} AntesRegisters(h: Hand, ante: nat, k: nat)
    requires k <= |h.g.players|
    ensures var g := PostAntes(h, ante, k).g;
            g.shortSum == h.g.shortSum && g.dealer == h.g.dealer && g.handId == h.g.handId
  {
    if k > 0 { AntesRegisters(h, ante, k - 1); }
  }

  /** The hand is over before anybody is asked exactly when nobody can act. */
  lemma OverAtOnce(e: Engine, u: Setup)
    requires Playable(u)
    ensures New(e, u).phase.Terminal? <==> NobodyCanAct(e.rules, u)
  {
    hide Opened, Due;
    var ps := Opened(e.rules, u).g.players;
    forall i | 0 <= i < |u.stacks| ensures ActiveMask(ps)[i] <==> CanAct(e.rules, u, i) { OpenedSeat(e.rules, u, i); }
    ScanFinds(ActiveMask(ps), BigBlindSeat(Blinded(e.rules, u).g));
  }

  lemma NextFundedIsFirst(stacks: seq<nat>, from: nat, i: nat)
    requires i < |stacks| && stacks[i] > 0
    ensures var r, n := NextFunded(stacks, from), |stacks|;
            r < n && stacks[r] > 0 && StepsTo(n, from, r) <= StepsTo(n, from, i)
  {
    hide Scan, StepsTo;
    assert Funded(stacks)[i];
    ScanIsFirst(Funded(stacks), from, i);
  }

  /** The blinds go clockwise: the small one to the first funded seat after the dealer, the big
      one to the first funded seat after that. A seat is last after itself. */
  lemma BlindsGoClockwise(u: Setup, i: nat)
    requires i < |u.stacks| && u.stacks[i] > 0
    ensures var n, sb, bb := |u.stacks|, SbSeat(u), BbSeat(u);
            && sb < n && u.stacks[sb] > 0 && StepsTo(n, u.dealer, sb) <= StepsTo(n, u.dealer, i)
            && bb < n && u.stacks[bb] > 0 && StepsTo(n, sb, bb) <= StepsTo(n, sb, i)
  {
    hide NextFunded, StepsTo;
    NextFundedIsFirst(u.stacks, u.dealer, i);
    NextFundedIsFirst(u.stacks, SbSeat(u), i);
  }

  lemma BlindedBbSeat(rules: Rules, u: Setup)
    requires Playable(u)
    ensures BigBlindSeat(Blinded(rules, u).g) == BbSeat(u)
  {
    hide Blinded, Anted;
    var g := Blinded(rules, u).g;
    forall i | 0 <= i < |u.stacks| ensures StillInMask(g.players)[i] == Funded(u.stacks)[i] {
      BlindedCharged(rules, u, i);
    }
    assert StillInMask(g.players) == Funded(u.stacks);
    BlindedDealer(rules, u);
  }

  lemma BlindedDealer(rules: Rules, u: Setup)
    requires Playable(u)
    ensures Blinded(rules, u).g.dealer == u.dealer
  {
    AntesRegisters(Started(rules, u), rules.ante, |u.stacks|);
    AntedSomeone(rules, u);
  }

  /** ... and otherwise the first seat asked is the first one clockwise of the big blind that can
      act, with the big blind to call and nobody heard. */
  lemma FirstToAct(e: Engine, u: Setup)
    requires Playable(u)
    ensures New(e, u).phase.Terminal? <==> NobodyCanAct(e.rules, u)
    ensures New(e, u).phase.Decision? ==>
              && New(e, u).hand.g.currentBet == New(e, u).hand.g.minRaise == e.rules.bigBlind
              && New(e, u).phase.responded == Silent(|u.stacks|)
              && CanAct(e.rules, u, New(e, u).phase.current)
              && forall i :: 0 <= i < |u.stacks| && CanAct(e.rules, u, i) ==>
                   StepsTo(|u.stacks|, BbSeat(u), New(e, u).phase.current) <= StepsTo(|u.stacks|, BbSeat(u), i)
  {
    hide Opened, Due, NobodyCanAct, Scan, StepsTo, Blinded, BbSeat, BigBlindSeat;
    OverAtOnce(e, u);
    OpenedRegisters(e.rules, u);
    BlindedBbSeat(e.rules, u);
    if New(e, u).phase.Decision? {
      var ps := Opened(e.rules, u).g.players;
      OpenedSeat(e.rules, u, New(e, u).phase.current);
      forall i | 0 <= i < |u.stacks| && CanAct(e.rules, u, i)
        ensures StepsTo(|u.stacks|, BbSeat(u), New(e, u).phase.current) <= StepsTo(|u.stacks|, BbSeat(u), i)
      {
        OpenedSeat(e.rules, u, i);
        assert ActiveMask(ps)[i];
        ScanIsFirst(ActiveMask(ps), BbSeat(u), i);
      }
    }
  }

  ghost predicate NothingPosted(rules: Rules, u: Setup) {
    forall i :: 0 <= i < |u.stacks| ==> Posted(rules, u, i) == 0
  }

  /** With a positive big blind somebody has paid. */
  lemma SomebodyPaid(rules: Rules, u: Setup)
    requires Playable(u) && rules.bigBlind > 0
    ensures BbSeat(u) < |u.stacks| && Posted(rules, u, BbSeat(u)) > 0 && !NothingPosted(rules, u)
  {
    var i :| 0 <= i < |u.stacks| && u.stacks[i] > 0;
    assert Funded(u.stacks)[i];
    ScanFinds(Funded(u.stacks), SbSeat(u));
  }
}
