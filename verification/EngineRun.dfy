/** `Engine::run_hand` as nested loops (game/engine.rs), proved to do what the small-step
    machine of module Tree does on every list of submitted actions. The agents are that list:
    the hand waits where it runs out. */
module EngineRun {
  import opened Types
  import opened Sums
  import opened Seats
  import opened PotCalc
  import opened Showdown
  import opened Betting
  import opened Tree

  /** What a caller sees of a hand: the point it waits at, or how it ended. The engine's own
      `GameState` is a local of `run_hand`, so betting registers and street are not part of it. */
  datatype Outcome =
    | Waiting(node: Node, asked: seq<Asked>)
    | Done(players: seq<Player>, board: seq<Card>, pot: nat, satOut: seq<bool>, log: seq<Event>,
           deltas: seq<nat>, asked: seq<Asked>, rest: seq<Action>)

  function Ended(t: Node, asked: seq<Asked>, rest: seq<Action>): Outcome
    requires t.phase.Terminal?
  {
    var g := t.hand.g;
    Done(g.players, g.board, g.pot, g.satOut, t.hand.log, t.phase.deltas, asked, rest)
  }

  function OutcomeOf(r: Run): Outcome {
    if r.node.phase.Terminal? then Ended(r.node, r.asked, r.rest) else Waiting(r.node, r.asked)
  }

  // ---------------------------------------------------------------------------
  // Opening loops
  // ---------------------------------------------------------------------------

  method PostAllAntes(h: Hand, ante: nat) returns (r: Hand)
    ensures r == PostAntes(h, ante, |h.g.players|)
  {
    r := h;
    for seat := 0 to |h.g.players|
      invariant r == PostAntes(h, ante, seat)
    {
      if r.g.players[seat].status.Active? { r := Post(r, seat, ante); }
    }
  }

  method DealHoleCards(h: Hand) returns (r: Hand)
    ensures r == DealHoles(h, |h.g.players|)
  {
    r := h;
    for seat := 0 to |h.g.players|
      invariant r == DealHoles(h, seat)
    {
      var p := r.g.players[seat];
      if p.StillIn() {
        var cards := (r.deck.At(r.deck.cursor), r.deck.At(r.deck.cursor + 1));
        r := Hand(r.g.(players := r.g.players[seat := p.(hole := Some(cards))]),
                  r.deck.(cursor := r.deck.cursor + 2), r.log + [HoleCardsDealt(seat, cards)]);
      }
    }
  }

  // ---------------------------------------------------------------------------
  // Betting round
  // ---------------------------------------------------------------------------

  datatype RoundEnd = Winner(seat: nat) | Closed | Paused(current: nat, responded: seq<bool>)

  method AllSettled(g: Game, responded: seq<bool>) returns (done: bool)
    requires |responded| == |g.players|
    ensures done <==> forall s :: 0 <= s < |g.players| ==> !UnsettledMask(g, responded)[s]
  {
    for i := 0 to |g.players|
      invariant forall s :: 0 <= s < i ==> !UnsettledMask(g, responded)[s]
    {
      if Unsettled(g.players[i], g.currentBet, responded[i]) {
        assert UnsettledMask(g, responded)[i];
        return false;
      }
    }
    return true;
  }

  /** The node the tree would be at, had the round come to this end. */
  function AfterRound(e: Engine, h: Hand, end: RoundEnd): Node {
    match end
    case Winner(seat) => AwardUncontested(h, seat)
    case Closed => NextStreets(e, Collect(h))
    case Paused(current, responded) => Node(h, Decision(current, responded))
  }

  ghost predicate SameTable(g: Game, g': Game) {
    && |g'.players| == |g.players| && g'.street == g.street && g'.board == g.board
    && g'.dealer == g.dealer && g'.satOut == g.satOut
  }

  /** The loop is at `current`, `j` seats past `start`, and every seat between is settled. */
  ghost predicate Looking(h: Hand, responded: seq<bool>, start: nat, j: nat, current: nat) {
    && |responded| == |h.g.players| > 0 && 1 <= j <= |h.g.players| + 1 && current == (start + j) % |h.g.players|
    && Scan(UnsettledMask(h.g, responded), start, 1) == Scan(UnsettledMask(h.g, responded), start, j)
  }

  lemma LookFirst(e: Engine, h: Hand, first: nat)
    requires first < |h.g.players| && h.g.players[first].status.Active?
    ensures var n := |h.g.players|;
            Looking(h, Silent(n), first + n - 1, 1, first)
    ensures var n := |h.g.players|;
            Settle(e, h, first + n - 1, Silent(n)) == Node(h, Decision(first, Silent(n)))
  {
    var n := |h.g.players|;
    Remainder(first + n, n, 1, first);
    assert UnsettledMask(h.g, Silent(n))[first];
  }

  lemma LookOn(h: Hand, responded: seq<bool>, start: nat, j: nat, current: nat)
    requires Looking(h, responded, start, j, current) && j <= |h.g.players|
    requires !Unsettled(h.g.players[current], h.g.currentBet, responded[current])
    ensures Looking(h, responded, start, j + 1, (current + 1) % |h.g.players|)
  {
    NextSeat(start, j, |h.g.players|);
  }

  lemma LookFound(e: Engine, h: Hand, responded: seq<bool>, start: nat, j: nat, current: nat)
    requires Looking(h, responded, start, j, current) && j <= |h.g.players|
    requires Unsettled(h.g.players[current], h.g.currentBet, responded[current])
    ensures Settle(e, h, start, responded) == Node(h, Decision(current, responded))
  {
    assert UnsettledMask(h.g, responded)[current];
  }

  lemma LookDone(e: Engine, h: Hand, responded: seq<bool>, start: nat, j: nat, current: nat)
    requires Looking(h, responded, start, j, current)
    ensures Scan(UnsettledMask(h.g, responded), start, 1).None? <==>
            forall s :: 0 <= s < |h.g.players| ==> !UnsettledMask(h.g, responded)[s]
    ensures Scan(UnsettledMask(h.g, responded), start, 1).None? ==>
            Settle(e, h, start, responded) == NextStreets(e, Collect(h))
    ensures Scan(UnsettledMask(h.g, responded), start, 1).Some? ==> j <= |h.g.players|
  {
    ScanFinds(UnsettledMask(h.g, responded), start);
  }

  /** An answered decision is one step of the tree. */
  lemma AnswerIsStep(e: Engine, h: Hand, current: nat, responded: seq<bool>, rest: seq<Action>, asked: seq<Asked>)
    requires current < |h.g.players| == |responded| && rest != []
    ensures var h' := ActHand(h, current, rest[0]);
            var r' := ActResponded(h.g, responded, current, rest[0]);
            && |r'| == |h'.g.players| && SameTable(h.g, h'.g)
            && WellFormed(Advance(e, h', current, r'))
            && Drive(e, Node(h, Decision(current, responded)), rest, asked) ==
               Drive(e, Advance(e, h', current, r'), rest[1..],
                     asked + [Asked(current, ComputeLegal(e.rules, h.g, current, !responded[current]))])
  {
    StepWellFormed(e, Node(h, Decision(current, responded)), rest[0]);
  }

  /** One street's betting: skip settled seats, ask the others, stop when all are settled or
      one seat is left. */
  method RunBettingRound(e: Engine, h0: Hand, first: nat, script: seq<Action>, asked0: seq<Asked>)
    returns (h: Hand, end: RoundEnd, rest: seq<Action>, asked: seq<Asked>)
    requires first < |h0.g.players| && h0.g.players[first].status.Active?
    ensures SameTable(h0.g, h.g)
    ensures end.Paused? ==> rest == []
    ensures end.Closed? ==>
              forall i :: 0 <= i < |h.g.players| && h.g.players[i].status.Active? ==>
                h.g.players[i].bet == h.g.currentBet
    ensures end.Winner? ==> StillInCount(h.g.players) == 1 && end.seat == FirstIn(h.g.players)
    ensures WellFormed(AfterRound(e, h, end))
    ensures Drive(e, Node(h0, Decision(first, Silent(|h0.g.players|))), script, asked0) ==
            Drive(e, AfterRound(e, h, end), rest, asked)
  {
    hide ActHand, ActResponded, ComputeLegal, Drive, NextStreets, AwardUncontested, Settle;
    var n := |h0.g.players|;
    var responded := Silent(n);
    var current: nat := first;
    h, rest, asked := h0, script, asked0;
    ghost var start: nat, j: nat := first + n - 1, 1;
    ghost var run := Drive(e, Node(h0, Decision(first, Silent(n))), script, asked0);
    LookFirst(e, h0, first);
    while true
      invariant SameTable(h0.g, h.g) && Looking(h, responded, start, j, current)
      invariant WellFormed(Settle(e, h, start, responded))
      invariant run == Drive(e, Settle(e, h, start, responded), rest, asked)
      decreases |rest|, n + 1 - j
    {
      LookDone(e, h, responded, start, j, current);
      var done := AllSettled(h.g, responded);
      if done {
        return h, Closed, rest, asked;
      }
      if !Unsettled(h.g.players[current], h.g.currentBet, responded[current]) {
        LookOn(h, responded, start, j, current);
        current, j := (current + 1) % n, j + 1;
        continue;
      }
      LookFound(e, h, responded, start, j, current);
      if rest == [] {
        return h, Paused(current, responded), rest, asked;
      }
      AnswerIsStep(e, h, current, responded, rest, asked);
      asked := asked + [Asked(current, ComputeLegal(e.rules, h.g, current, !responded[current]))];
      h, responded := ActHand(h, current, rest[0]), ActResponded(h.g, responded, current, rest[0]);
      rest := rest[1..];
      if StillInCount(h.g.players) == 1 {
        return h, Winner(FirstIn(h.g.players)), rest, asked;
      }
      start, j, current := current, 1, (current + 1) % n;
    }
  }

  /** Moving on one seat is moving on one step. */
  lemma NextSeat(start: nat, j: nat, n: nat)
    requires n > 0
    ensures ((start + j) % n + 1) % n == (start + (j + 1)) % n
  {
    var x := start + j;
    var q, r := x / n, x % n;
    assert x == n * q + r;
    if r + 1 < n {
      Remainder(x + 1, n, q, r + 1);
      Remainder(r + 1, n, 0, r + 1);
    } else {
      assert n * (q + 1) == n * q + n;
      Remainder(x + 1, n, q + 1, 0);
      Remainder(n, n, 1, 0);
    }
  }

  // ---------------------------------------------------------------------------
  // Streets
  // ---------------------------------------------------------------------------

  function BoardSize(s: Street): nat {
    match s case Preflop => 0 case Flop => 3 case Turn => 4 case _ => 5
  }

  /** Between streets: nothing bet, and as many board cards as the street has. */
  ghost predicate Between(h: Hand) {
    |h.g.board| == BoardSize(h.g.street) && ZeroBets(h.g.players) == h.g.players
  }

  lemma CollectBetween(h: Hand)
    requires |h.g.board| == BoardSize(h.g.street)
    ensures Between(Collect(h)) && Collect(h).g.street == h.g.street
  {
  }

  lemma CollectNothing(h: Hand)
    requires ZeroBets(h.g.players) == h.g.players
    ensures Collect(h) == h
  {
    forall i | 0 <= i < |h.g.players| ensures BetOf(h.g.players[i]) == 0 { assert ZeroBets(h.g.players)[i].bet == 0; }
    SumZero(h.g.players, BetOf);
  }

  /** The same hand but for street and betting registers, which no payout reads. */
  ghost predicate SameFelt(h: Hand, r: Hand) {
    && h.g.players == r.g.players && h.g.board == r.g.board && h.g.pot == r.g.pot
    && h.g.dealer == r.g.dealer && h.g.satOut == r.g.satOut && h.deck == r.deck && h.log == r.log
  }

  lemma SameFeltEnds(e: Engine, h: Hand, r: Hand, asked: seq<Asked>, rest: seq<Action>)
    requires SameFelt(h, r)
    ensures Ended(ResolveShowdown(e, DealRemaining(h)), asked, rest) ==
            Ended(ResolveShowdown(e, DealRemaining(r)), asked, rest)
  {
    hide ShowdownDeltas, Draw;
    var x, y := DealRemaining(h), DealRemaining(r);
    assert SameFelt(x, y);
    assert Ranks(e, x.g) == Ranks(e, y.g);
  }

  /** With fewer than two seats able to act, dealing street by street is the run-out. */
  lemma {:induction false} RunOut(e: Engine, h: Hand, asked: seq<Asked>, rest: seq<Action>)
    requires Between(h) && (StreetsLeft(h.g.street) > 0 ==> ActiveCount(h.g.players) < 2)
    ensures WellFormed(NextStreets(e, h)) && NextStreets(e, h).phase.Terminal?
    ensures Ended(NextStreets(e, h), asked, rest) == Ended(ResolveShowdown(e, DealRemaining(h)), asked, rest)
    decreases StreetsLeft(h.g.street)
  {
    NextStreetsWellFormed(e, h);
    var r := DealRemaining(h);
    match NextStreet(h.g.street)
    case None =>
      assert Ranks(e, r.g.(street := Street.Showdown)) == Ranks(e, r.g);
    case Some((street, n)) =>
      var o := OpenStreet(e.rules, h, street, n);
      assert o.g.players == h.g.players;
      CollectNothing(o);
      RunOut(e, o, asked, rest);
      SameFeltEnds(e, o, DealBoard(h, street, n), asked, rest);
      assert DealRemaining(DealBoard(h, street, n)) == DealRemaining(h);
  }

  lemma RunOutOutcome(e: Engine, h: Hand, asked: seq<Asked>, rest: seq<Action>)
    requires Between(h) && (StreetsLeft(h.g.street) > 0 ==> ActiveCount(h.g.players) < 2)
    requires WellFormed(NextStreets(e, h))
    ensures OutcomeOf(Drive(e, NextStreets(e, h), rest, asked)) ==
            Ended(ResolveShowdown(e, DealRemaining(h)), asked, rest)
  {
    RunOut(e, h, asked, rest);
  }

  lemma FewActive(ps: seq<Player>)
    ensures ActiveCount(ps) <= StillInCount(ps)
  {
    SumMono(ps, ActiveOf, StillInOf);
  }

  /** How a hand stands when a round did not close. */
  function Finish(e: Engine, h: Hand, end: RoundEnd, rest: seq<Action>, asked: seq<Asked>): Outcome
    requires !end.Closed?
  {
    if end.Winner? then Ended(AwardUncontested(h, end.seat), asked, rest)
    else Waiting(Node(h, Decision(end.current, end.responded)), asked)
  }

  lemma FinishIsOutcome(e: Engine, h: Hand, end: RoundEnd, rest: seq<Action>, asked: seq<Asked>)
    requires !end.Closed? && (end.Paused? ==> rest == []) && WellFormed(AfterRound(e, h, end))
    ensures Finish(e, h, end, rest, asked) == OutcomeOf(Drive(e, AfterRound(e, h, end), rest, asked))
  {
  }

  /** Opening the next street, and what follows if nobody can bet on it. */
  lemma OpenKeeps(e: Engine, h: Hand, street: Street, n: nat)
    requires Between(h) && NextStreet(h.g.street) == Some((street, n))
    ensures var o := OpenStreet(e.rules, h, street, n);
            var next := NextActiveAfter(o.g.dealer, o.g.players);
            && o.g.street == street && |o.g.board| == BoardSize(street)
            && NextStreets(e, h) == if ActiveCount(o.g.players) >= 2 && next.Some?
                                    then Node(o, Decision(next.value, Silent(|o.g.players|)))
                                    else NextStreets(e, Collect(o))
  {
  }

  /** Preflop betting, then flop, turn and river, then the run-out and the showdown. */
  method RunStreets(e: Engine, h0: Hand, first: nat, script: seq<Action>) returns (out: Outcome)
    requires first < |h0.g.players| && h0.g.players[first].status.Active?
    requires h0.g.street == Preflop && h0.g.board == []
    ensures out == OutcomeOf(Drive(e, Node(h0, Decision(first, Silent(|h0.g.players|))), script, []))
  {
    hide Drive, NextStreets, OpenStreet, Collect, OutcomeOf, Ended, Finish, NextActiveAfter, ActiveCount,
         StillInCount, DealRemaining, Between, AwardUncontested;
    ghost var run := Drive(e, Node(h0, Decision(first, Silent(|h0.g.players|))), script, []);
    var h, end, rest, asked := RunBettingRound(e, h0, first, script, []);
    if !end.Closed? {
      FinishIsOutcome(e, h, end, rest, asked);
      return Finish(e, h, end, rest, asked);
    }
    CollectBetween(h);
    h := Collect(h);
    var postflop := [(Flop, 3), (Turn, 1), (River, 1)];
    for k := 0 to 3
      invariant Between(h) && StreetsLeft(h.g.street) == 3 - k && h.g.street != Street.Showdown
      invariant WellFormed(NextStreets(e, h))
      invariant run == Drive(e, NextStreets(e, h), rest, asked)
    {
      if StillInCount(h.g.players) <= 1 {
        FewActive(h.g.players);
        break;
      }
      var (street, n) := postflop[k];
      OpenKeeps(e, h, street, n);
      var o := OpenStreet(e.rules, h, street, n);
      var next := NextActiveAfter(o.g.dealer, o.g.players);
      h := o;
      if ActiveCount(o.g.players) >= 2 && next.Some? {
        h, end, rest, asked := RunBettingRound(e, o, next.value, rest, asked);
        if !end.Closed? {
          FinishIsOutcome(e, h, end, rest, asked);
          return Finish(e, h, end, rest, asked);
        }
      }
      CollectBetween(h);
      h := Collect(h);
      NextStreetsWellFormed(e, h);
    }
    RunOutOutcome(e, h, asked, rest);
    return Ended(ResolveShowdown(e, DealRemaining(h)), asked, rest);
  }

  // ---------------------------------------------------------------------------
  // The hand
  // ---------------------------------------------------------------------------

  function BuildResult(handId: nat, out: Outcome): HandResult
    requires out.Done? && |out.players| == |out.satOut| == |out.deltas|
  {
    HandResult(handId, out.board, Outcomes(out.players, out.satOut, out.deltas))
  }

  lemma {:induction false} BoardStartsEmpty(h: Hand, ante: nat, k: nat)
    requires k <= |h.g.players|
    ensures var r := PostAntes(h, ante, k); r.g.board == h.g.board && r.g.street == h.g.street
    ensures var r := DealHoles(h, k); r.g.board == h.g.board && r.g.street == h.g.street
  {
    if k > 0 { BoardStartsEmpty(h, ante, k - 1); }
  }

  lemma OpenedPreflop(rules: Rules, u: Setup)
    requires Playable(u)
    ensures Opened(rules, u).g.board == [] && Opened(rules, u).g.street == Preflop
  {
    hide Post;
    BoardStartsEmpty(Started(rules, u), rules.ante, |u.stacks|);
    AntedSomeone(rules, u);
    PostKeepsBoard(rules, Anted(rules, u));
    BoardStartsEmpty(Blinded(rules, u), rules.ante, |u.stacks|);
  }

  lemma PostKeepsBoard(rules: Rules, h: Hand)
    requires SomeoneIn(h.g.players)
    ensures PostBlinds(rules, h).g.board == h.g.board && PostBlinds(rules, h).g.street == h.g.street
  {
  }

  /** The seat counts of a hand never change. */
  lemma {:induction false} DriveLength(e: Engine, t: Node, script: seq<Action>, asked: seq<Asked>)
    requires WellFormed(t) && |t.hand.g.satOut| == |t.hand.g.players|
    ensures var g := Drive(e, t, script, asked).node.hand.g; |g.satOut| == |g.players| == |t.hand.g.players|
    decreases |script|
  {
    if t.phase.Decision? && script != [] {
      StepWellFormed(e, t, script[0]);
      StepKeepsHand(e, t, script[0]);
      DriveLength(e, Step(e, t, script[0]), script[1..], asked + [Asked(t.phase.current, LegalAt(e, t))]);
    }
  }

  lemma {:induction false} StreetsKeepHand(e: Engine, h: Hand)
    ensures var g := NextStreets(e, h).hand.g;
            g.satOut == h.g.satOut && g.dealer == h.g.dealer && g.handId == h.g.handId
    ensures h.log <= NextStreets(e, h).hand.log
    decreases StreetsLeft(h.g.street)
  {
    hide ActiveCount, ShowdownDeltas, Ranks, Scan, ZeroBets;
    match NextStreet(h.g.street)
    case None =>
    case Some((street, n)) =>
      var r := OpenStreet(e.rules, h, street, n);
      if !(ActiveCount(r.g.players) >= 2 && NextActiveAfter(r.g.dealer, r.g.players).Some?) {
        StreetsKeepHand(e, Collect(r));
      }
  }

  lemma StepKeepsHand(e: Engine, t: Node, a: Action)
    requires WellFormed(t) && t.phase.Decision?
    ensures var g := Step(e, t, a).hand.g;
            g.satOut == t.hand.g.satOut && g.dealer == t.hand.g.dealer && g.handId == t.hand.g.handId
    ensures t.hand.log <= Step(e, t, a).hand.log
  {
    hide Actor, Aggression, Normalize, NextStreets, Scan, UnsettledMask, ActionEvents, FirstIn;
    StreetsKeepHand(e, Collect(ActHand(t.hand, t.phase.current, a)));
  }

  /** One complete hand. Whatever is submitted, the engine asks the same seats with the same
      legal sets, emits the same events and ends with the same board, stacks and payouts as
      the tree; the engine adds the closing event and the result built from that end. */
  method RunHand(e: Engine, u: Setup, script: seq<Action>)
    returns (out: Outcome, result: Option<HandResult>, log: seq<Event>)
    requires Playable(u)
    ensures out == OutcomeOf(Drive(e, New(e, u), script, []))
    ensures out.Done? ==> |out.players| == |out.satOut| == |out.deltas| == |u.stacks|
    ensures out.Done? ==> result == Some(BuildResult(u.handId, out))
    ensures out.Done? ==> log == out.log + [HandEnded(u.handId, BuildResult(u.handId, out))]
    ensures out.Waiting? ==> result == None && log == out.node.hand.log
  {
    hide Post, PostBlinds, PostAntes, DealHoles, MarkDead, AwardUncontested, Drive, OutcomeOf, Ended, BigBlindSeat,
         NextActiveAfter, FirstIn, InitGame, SomeoneIn, BuildResult;
    var h := Started(e.rules, u);
    if e.rules.ante > 0 {
      h := PostAllAntes(h, e.rules.ante);
    }
    AntedSomeone(e.rules, u);
    h := PostBlinds(e.rules, h);
    var canonicalBb := BigBlindSeat(h.g);
    h := DealHoleCards(h);
    SatOutLength(e.rules, u);
    h := h.(g := MarkDead(h.g, u.kinds));
    OutcomeLengths(e, u, script);
    match NextActiveAfter(canonicalBb, h.g.players) {
      case None =>
        out := Ended(AwardUncontested(h, FirstIn(h.g.players)), [], script);
        EndedAtOnce(e, New(e, u), script);
      case Some(first) =>
        OpenedPreflop(e.rules, u);
        out := RunStreets(e, h, first, script);
    }
    if out.Waiting? {
      return out, None, out.node.hand.log;
    }
    var r := BuildResult(u.handId, out);
    return out, Some(r), out.log + [HandEnded(u.handId, r)];
  }

  lemma OpenedSatOut(rules: Rules, u: Setup)
    requires Playable(u)
    ensures |Opened(rules, u).g.satOut| == |u.stacks|
  {
    SatOutLength(rules, u);
  }

  lemma NewSatOut(e: Engine, u: Setup)
    requires Playable(u)
    ensures |New(e, u).hand.g.satOut| == |u.stacks|
  {
    OpenedSatOut(e.rules, u);
  }

  lemma OutcomeLengths(e: Engine, u: Setup, script: seq<Action>)
    requires Playable(u)
    ensures var out := OutcomeOf(Drive(e, New(e, u), script, []));
            out.Done? ==> |out.players| == |out.satOut| == |out.deltas| == |u.stacks|
  {
    hide New;
    NewSatOut(e, u);
    DriveLength(e, New(e, u), script, []);
  }

  lemma EndedAtOnce(e: Engine, t: Node, script: seq<Action>)
    requires WellFormed(t) && t.phase.Terminal?
    ensures OutcomeOf(Drive(e, t, script, [])) == Ended(t, [], script)
  {
  }
}
