/** The main results about whole hands. `Played` is where a hand stands after a list of
    submitted actions; by `EngineRun.RunHand` it is also where the engine stands. */
module Theorems {
  import opened Types
  import opened Sums
  import opened Seats
  import opened PotCalc
  import opened Showdown
  import opened Betting
  import opened Tree
  import opened EngineRun
  import opened Ledger
  import opened Forced
  import opened Order
  import opened Story
  import opened Invariants

  function Played(e: Engine, u: Setup, script: seq<Action>): Node
    requires Playable(u)
  {
    Drive(e, New(e, u), script, []).node
  }

  lemma PlayedGood(e: Engine, u: Setup, script: seq<Action>)
    requires Playable(u)
    ensures Good(e, u, Played(e, u, script))
  {
    hide Good;
    ReachableGood(e, u, script);
  }

  // ---------------------------------------------------------------------------
  // Conservation
  // ---------------------------------------------------------------------------

  lemma SomeoneLeft(ps: seq<Player>) returns (i: nat)
    requires StillInCount(ps) >= 1
    ensures i < |ps| && ps[i].StillIn()
  {
    i := SumWitness(ps, StillInOf);
  }

  /** A showdown between two live hands has something to win. */
  lemma ShowdownHasTop(rules: Rules, u: Setup, h: Hand)
    requires AtShowdown(rules, u, h) && TwoLive(u) && rules.bigBlind > 0
    ensures Top(h.g.players) > 0
  {
    hide FromDeck, Read, Seen, Even, Top;
    var i := SomeoneLeft(h.g.players);
    assert SeatBalanced(u.stacks[i], h.g.players[i]);
    assert h.g.players[i].committed > 0;
    TopCovers(h.g.players, i);
  }

  lemma TopCovers(ps: seq<Player>, i: nat)
    requires i < |ps| && ps[i].status != Folded
    ensures ps[i].committed <= Top(ps)
  {
  }

  lemma AtShowdownBalanced(rules: Rules, u: Setup, h: Hand)
    requires AtShowdown(rules, u, h)
    ensures Balanced(u.stacks, h.g) && Table(u, h)
  {
  }

  /** No chip appears or vanishes: at every decision each seat's stack and commitment make up
      its starting stack and the pot holds the rest; at the end the winnings are exactly the
      commitments, so the reported results sum to zero. */
  lemma Conservation(e: Engine, u: Setup, script: seq<Action>)
    requires Playable(u)
    ensures var t := Played(e, u, script);
            t.phase.Decision? ==> Balanced(u.stacks, t.hand.g)
    ensures var t := Played(e, u, script);
            t.phase.Terminal? && TwoLive(u) && e.rules.bigBlind > 0 ==> PaidOut(u.stacks, t.hand.g, t.phase.deltas)
  {
    hide Balanced, AtShowdown, Sound, ResolveShowdown, AwardUncontested, Played, TwoLive;
    PlayedGood(e, u, script);
    var t := Played(e, u, script);
    if t.phase.Decision? { SoundBalanced(e.rules, u, t.hand); }
    if t.phase.Terminal? && TwoLive(u) && e.rules.bigBlind > 0 {
      if ShownDown(e, u, t) {
        var h :| AtShowdown(e.rules, u, h) && t == ResolveShowdown(e, h);
        AtShowdownBalanced(e.rules, u, h);
        ShowdownHasTop(e.rules, u, h);
        ShowdownPaysOut(u.stacks, e, h);
      } else {
        var h, w :| LastStanding(e.rules, u, h, w) && t == AwardUncontested(h, w);
        SoundBalanced(e.rules, u, h);
        AwardPaysOut(u.stacks, h, w);
      }
    }
  }

  /** Absent seats neither pay nor win. */
  ghost predicate OutUnpaid(t: Node) {
    t.phase.Terminal? && |t.phase.deltas| == |t.hand.g.players| &&
    forall i :: 0 <= i < |t.hand.g.players| && t.hand.g.players[i].status.Out? ==>
      t.hand.g.players[i].committed == 0 && t.phase.deltas[i] == 0
  }

  lemma ResolvedOut(e: Engine, u: Setup, h: Hand)
    requires Balanced(u.stacks, h.g)
    ensures OutUnpaid(ResolveShowdown(e, h))
  {
    hide ShowdownDeltas, Ranks;
    var t := ResolveShowdown(e, h);
    forall i | 0 <= i < |h.g.players| && h.g.players[i].status.Out?
      ensures h.g.players[i].committed == 0 && t.phase.deltas[i] == 0
    {
      assert SeatBalanced(u.stacks[i], h.g.players[i]);
      PayoutExact(h.g.players, Ranks(e, h.g), h.g.dealer, i);
    }
  }

  lemma AwardOut(u: Setup, h: Hand, w: nat)
    requires Balanced(u.stacks, h.g) && w < |h.g.players| && h.g.players[w].StillIn()
    ensures OutUnpaid(AwardUncontested(h, w))
  {
    forall i | 0 <= i < |h.g.players| && h.g.players[i].status.Out? ensures h.g.players[i].committed == 0 {
      assert SeatBalanced(u.stacks[i], h.g.players[i]);
    }
  }

  lemma OutSeats(e: Engine, u: Setup, t: Node)
    requires Good(e, u, t) && t.phase.Terminal?
    ensures OutUnpaid(t)
  {
    hide AtShowdown, Sound, Balanced, ResolveShowdown, AwardUncontested, OutUnpaid;
    if ShownDown(e, u, t) {
      var h :| AtShowdown(e.rules, u, h) && t == ResolveShowdown(e, h);
      AtShowdownBalanced(e.rules, u, h);
      ResolvedOut(e, u, h);
    } else {
      var h, w :| LastStanding(e.rules, u, h, w) && t == AwardUncontested(h, w);
      SoundBalanced(e.rules, u, h);
      AwardOut(u, h, w);
    }
  }

  /** A seat is out of the hand exactly when it came without chips. */
  lemma GoodOut(e: Engine, u: Setup, t: Node, i: nat)
    requires Good(e, u, t) && i < |u.stacks|
    ensures i < |t.hand.g.players| && (t.hand.g.players[i].status.Out? <==> u.stacks[i] == 0)
  {
    hide FromDeck, Read, Seen, Told, Level, Paying, Bounded, ShowdownDeltas;
    if t.phase.Terminal? {
      if ShownDown(e, u, t) {
        var h :| AtShowdown(e.rules, u, h) && t == ResolveShowdown(e, h);
        ResolvedSame(e, h);
        assert SeatBalanced(u.stacks[i], h.g.players[i]);
      } else {
        var h, w: nat :| LastStanding(e.rules, u, h, w) && t == AwardUncontested(h, w);
        assert SeatBalanced(u.stacks[i], h.g.players[i]);
      }
    } else {
      assert SeatBalanced(u.stacks[i], t.hand.g.players[i]);
    }
  }

  /** The results of a finished hand sum to zero. */
  lemma ResultsSumToZero(e: Engine, u: Setup, script: seq<Action>)
    requires Playable(u) && TwoLive(u) && e.rules.bigBlind > 0
    requires Played(e, u, script).phase.Terminal?
    ensures var t := Played(e, u, script);
            |t.hand.g.satOut| == |t.hand.g.players| == |t.phase.deltas| &&
            SumDelta(Outcomes(t.hand.g.players, t.hand.g.satOut, t.phase.deltas)) == 0
  {
    hide Good, New, Drive, Outcomes, SumDelta, TwoLive;
    var t := Played(e, u, script);
    Conservation(e, u, script);
    PlayedGood(e, u, script);
    OutSeats(e, u, t);
    NewSatOut(e, u);
    DriveLength(e, New(e, u), script, []);
    OutcomesSum(t.hand.g.players, t.hand.g.satOut, t.phase.deltas);
  }

  // ---------------------------------------------------------------------------
  // Showdown
  // ---------------------------------------------------------------------------

  lemma ResolvedSame(e: Engine, h: Hand)
    ensures var g := ResolveShowdown(e, h).hand.g;
            && |g.players| == |h.g.players| && Ranks(e, g) == Ranks(e, h.g)
            && forall i :: 0 <= i < |g.players| ==>
                 g.players[i].committed == h.g.players[i].committed && g.players[i].status == h.g.players[i].status
  {
    hide ShowdownDeltas;
    var g := ResolveShowdown(e, h).hand.g;
    assert forall i :: 0 <= i < |g.players| ==> Ranks(e, g)[i] == Ranks(e, h.g)[i];
  }

  lemma ConcededUnshown(e: Engine, u: Setup, t: Node)
    ensures Conceded(e, u, t) ==> t.hand.g.street != Street.Showdown
  {
    hide Table, Told, Level, Paying;
  }

  lemma NotInFoldedOrUnpaid(u: Setup, h: Hand, s: nat)
    requires Balanced(u.stacks, h.g) && s < |u.stacks|
    ensures h.g.players[s].StillIn() <==> h.g.players[s].status != Folded && h.g.players[s].status != Out
    ensures h.g.players[s].status.Out? ==> h.g.players[s].committed == 0
  {
    assert SeatBalanced(u.stacks[s], h.g.players[s]);
  }

  /** At every showdown reached by play, whatever the blinds and antes: the seats that could still bet
      have committed the same, and no other seat more, unless what it was made to post alone was
      more than the big blind; then no more than that. */
  lemma ShowdownLevel(e: Engine, u: Setup, script: seq<Action>, i: nat, p: nat)
    requires Playable(u) && i < |u.stacks| && p < |u.stacks|
    requires Played(e, u, script).phase.Terminal? && Played(e, u, script).hand.g.street == Street.Showdown
    ensures var ps := Played(e, u, script).hand.g.players;
            |ps| == |u.stacks| &&
            (ps[i].status.Active? ==>
               && ps[i].committed >= e.rules.bigBlind
               && (ps[p].status.Active? ==> ps[p].committed == ps[i].committed)
               && (ps[p].committed <= ps[i].committed ||
                   e.rules.bigBlind < ps[p].committed <= Posted(e.rules, u, p)))
  {
    hide Played, AtShowdown, ResolveShowdown, Conceded, Posted, Even, Ranks;
    PlayedGood(e, u, script);
    var t := Played(e, u, script);
    ConcededUnshown(e, u, t);
    var h :| AtShowdown(e.rules, u, h) && t == ResolveShowdown(e, h);
    ResolvedSame(e, h);
    AtShowdownEven(e.rules, u, h, i, p);
  }

  lemma AtShowdownEven(rules: Rules, u: Setup, h: Hand, i: nat, p: nat)
    requires AtShowdown(rules, u, h) && i < |u.stacks| && p < |u.stacks|
    ensures var ps := h.g.players;
            |ps| == |u.stacks| &&
            (ps[i].status.Active? ==>
               && ps[i].committed >= rules.bigBlind
               && (ps[p].status.Active? ==> ps[p].committed == ps[i].committed)
               && (ps[p].committed <= ps[i].committed ||
                   rules.bigBlind < ps[p].committed <= Posted(rules, u, p)))
  {
    hide Table, Posted, Read;
  }

  // ---------------------------------------------------------------------------
  // Termination
  // ---------------------------------------------------------------------------

  /** Chips behind, streets to come, seats to settle. */
  function Measure(t: Node): nat
    requires WellFormed(t)
  {
    match t.phase
    case Terminal(_) => 0
    case Decision(_, responded) =>
      1 + UnsettledCount(t.hand.g, responded) + Weight(t.hand.g)
  }

  function Weight(g: Game): nat { Rounds(g) * (|g.players| + 1) }

  function Rounds(g: Game): nat { Chips(g.players) + StreetsLeft(g.street) }

  lemma OpenRounds(rules: Rules, h: Hand, street: Street, n: nat)
    requires NextStreet(h.g.street) == Some((street, n))
    ensures var r := OpenStreet(rules, h, street, n);
            && Weight(r.g) + |r.g.players| + 1 <= Weight(h.g) && Weight(Collect(r).g) == Weight(r.g)
            && |Collect(r).g.players| == |r.g.players| == |h.g.players| && Collect(r).g.street == street
  {
    var r := OpenStreet(rules, h, street, n);
    SumSame(h.g.players, StackOf, r.g.players, StackOf);
    CollectWeight(r);
    Fewer(Rounds(r.g), Rounds(h.g), |h.g.players| + 1);
  }

  lemma {:induction false} StreetsMeasure(e: Engine, h: Hand)
    ensures WellFormed(NextStreets(e, h))
    ensures Measure(NextStreets(e, h)) <= Weight(h.g)
    decreases StreetsLeft(h.g.street)
  {
    hide UnsettledCount, Weight, OpenStreet, Collect, ActiveCount, ToShowdown;
    NextStreetsWellFormed(e, h);
    match NextStreet(h.g.street)
    case None =>
    case Some((street, n)) =>
      var r := OpenStreet(e.rules, h, street, n);
      OpenRounds(e.rules, h, street, n);
      if ActiveCount(r.g.players) >= 2 && NextActiveAfter(r.g.dealer, r.g.players).Some? {
        UnsettledAtMost(r.g, Silent(|r.g.players|));
      } else {
        StreetsMeasure(e, Collect(r));
      }
  }

  lemma Fewer(a: nat, b: nat, k: nat)
    requires a < b
    ensures a * k + k <= b * k
  {
    var d := b - a - 1;
    assert b * k == (a + 1 + d) * k == a * k + k + d * k;
  }

  /** Every allowed action brings the end nearer. */
  lemma StepShrinks(e: Engine, u: Setup, t: Node, a: Action)
    requires Good(e, u, t) && t.phase.Decision? && Bounded(e.rules, u) && e.rules.bigBlind > 0 &&
             LegalAt(e, t).Allows(a)
    ensures WellFormed(Step(e, t, a)) && Measure(Step(e, t, a)) < Measure(t)
  {
    hide ActHand, ActResponded, UnsettledCount, Chips, NextStreets, Collect, Table, Told, Level, Bounded,
      ComputeLegal;
    StepWellFormed(e, t, a);
    var seat, responded := t.phase.current, t.phase.responded;
    var h, r := ActHand(t.hand, seat, a), ActResponded(t.hand.g, responded, seat, a);
    ActiveHasChips(e.rules, u, t.hand, seat);
    ActProgress(e.rules, t.hand, responded, seat, a);
    ActKeepsMinRaise(t.hand, seat, a);
    ActLengths(t.hand, responded, seat, a);
    UnsettledAtMost(h.g, r);
    var k := |h.g.players| + 1;
    if Chips(h.g.players) < Chips(t.hand.g.players) { Fewer(Rounds(h.g), Rounds(t.hand.g), k); }
    StreetsMeasure(e, Collect(h));
    CollectWeight(h);
  }

  lemma ActiveHasChips(rules: Rules, u: Setup, h: Hand, seat: nat)
    requires Sound(rules, u, h) && seat < |h.g.players| && h.g.players[seat].status.Active?
    ensures h.g.players[seat].stack > 0
  {
    assert SeatBalanced(u.stacks[seat], h.g.players[seat]);
  }

  lemma CollectWeight(h: Hand)
    ensures Weight(Collect(h).g) == Weight(h.g) && |Collect(h).g.players| == |h.g.players|
  {
    SumSame(h.g.players, StackOf, Collect(h).g.players, StackOf);
  }

  /** Every action in the list is one the asked seat was allowed. */
  ghost predicate AllowedRun(e: Engine, t: Node, script: seq<Action>)
    requires WellFormed(t)
    decreases |script|
  {
    t.phase.Terminal? || script == [] ||
    (LegalAt(e, t).Allows(script[0]) && (StepWellFormed(e, t, script[0]); AllowedRun(e, Step(e, t, script[0]),
      script[1..])))
  }

  lemma {:induction false} RunEnds(e: Engine, u: Setup, t: Node, script: seq<Action>, asked: seq<Asked>)
    requires Good(e, u, t) && WellFormed(t) && Bounded(e.rules, u) && e.rules.bigBlind > 0 &&
             AllowedRun(e, t, script) && |script| >= Measure(t)
    ensures Drive(e, t, script, asked).node.phase.Terminal?
    decreases |script|
  {
    hide Good, Step, Bounded;
    if t.phase.Decision? {
      StepShrinks(e, u, t, script[0]);
      StepGood(e, u, t, script[0]);
      RunEnds(e, u, Step(e, t, script[0]), script[1..], asked + [Asked(t.phase.current, LegalAt(e, t))]);
    }
  }

  /** How many decisions a hand can take at most. */
  function MostDecisions(u: Setup): nat { (Total(u.stacks) + 3) * (|u.stacks| + 1) + |u.stacks| + 1 }

  lemma BalancedChips(start: seq<nat>, g: Game)
    requires Balanced(start, g)
    ensures Chips(g.players) + SumCommitted(g.players) == Total(start)
  {
    SumSplit(start, Id, g.players, StackOf, g.players, CommittedOf);
  }

  lemma More(a: nat, b: nat, k: nat)
    requires a <= b
    ensures a * k <= b * k
  {
  }

  lemma NewMeasure(e: Engine, u: Setup)
    requires Playable(u)
    ensures Measure(New(e, u)) <= MostDecisions(u)
  {
    hide New, Balanced, Sound, UnsettledCount, Chips, ShownDown, Conceded;
    NewGood(e, u);
    var t := New(e, u);
    if t.phase.Decision? {
      SoundBalanced(e.rules, u, t.hand);
      BalancedChips(u.stacks, t.hand.g);
      UnsettledAtMost(t.hand.g, t.phase.responded);
      More(Rounds(t.hand.g), Total(u.stacks) + 3, |u.stacks| + 1);
    }
  }

  lemma SoundBalanced(rules: Rules, u: Setup, h: Hand)
    requires Sound(rules, u, h)
    ensures Balanced(u.stacks, h.g)
  {
  }

  /** Under allowed play every hand ends, within a bound fixed by the stacks. */
  lemma HandEnds(e: Engine, u: Setup, script: seq<Action>)
    requires Playable(u) && Bounded(e.rules, u) && e.rules.bigBlind > 0
    requires AllowedRun(e, New(e, u), script) && |script| >= MostDecisions(u)
    ensures Played(e, u, script).phase.Terminal?
  {
    hide New, Bounded, Good, Measure;
    NewGood(e, u);
    NewMeasure(e, u);
    RunEnds(e, u, New(e, u), script, []);
  }

  lemma {:induction false} FoldsAllowed(e: Engine, t: Node, script: seq<Action>)
    requires WellFormed(t) && forall k :: 0 <= k < |script| ==> script[k] == Fold
    ensures AllowedRun(e, t, script)
    decreases |script|
  {
    hide Step;
    if t.phase.Decision? && script != [] {
      StepWellFormed(e, t, Fold);
      FoldsAllowed(e, Step(e, t, Fold), script[1..]);
    }
  }

  /** Every such hand can be finished from the start by legal answers, so none of the results
      about finished hands speaks of nothing. */
  lemma HandCanEnd(e: Engine, u: Setup) returns (script: seq<Action>)
    requires Playable(u) && Bounded(e.rules, u) && e.rules.bigBlind > 0
    ensures AllowedRun(e, New(e, u), script) && Played(e, u, script).phase.Terminal?
  {
    hide New, Bounded, AllowedRun, Played;
    script := seq(MostDecisions(u), i => Fold);
    FoldsAllowed(e, New(e, u), script);
    HandEnds(e, u, script);
  }

  // ---------------------------------------------------------------------------
  // Debug assertions
  // ---------------------------------------------------------------------------

  /** At every decision of every hand, however it came about, the assertions about a raise hold
      for any action the seat is allowed: it is not downgraded, it raises the bet, and it is an
      all-in if it takes the last chip. */
  lemma AssertionsHold(e: Engine, u: Setup, script: seq<Action>, a: Action)
    requires Playable(u) && e.rules.bigBlind > 0 && Played(e, u, script).phase.Decision?
    ensures var t := Played(e, u, script);
            && WellFormed(t)
            && var g, seat := t.hand.g, t.phase.current;
               LegalAt(e, t).Allows(a) && a.Raise? ==>
                 && (Normalize(g, seat, a) == a || Normalize(g, seat, a) == Action.AllIn)
                 && Actor(g, seat, Normalize(g, seat, a)).bet > g.currentBet
                 && (Normalize(g, seat, a).Raise? ==> Actor(g, seat, Normalize(g, seat, a)).stack > 0)
  {
    hide New, Drive, Table, Told, Level, Bounded, Paying, Capped, ComputeLegal, Normalize, Actor;
    PlayedGood(e, u, script);
    var t := Played(e, u, script);
    var seat := t.phase.current;
    if LegalAt(e, t).Allows(a) { NoAssertFires(e.rules, t.hand.g, seat, !t.phase.responded[seat], a); }
  }

  // ---------------------------------------------------------------------------
  // Commitments of finished hands
  // ---------------------------------------------------------------------------

  /** Nobody commits more than they had. */
  lemma GoodCommitted(e: Engine, u: Setup, t: Node, i: nat)
    requires Good(e, u, t) && t.phase.Terminal? && i < |u.stacks|
    ensures i < |t.hand.g.players| && t.hand.g.players[i].committed <= u.stacks[i]
    ensures SumCommitted(t.hand.g.players) <= Total(u.stacks)
  {
    hide Sound, AtShowdown, Balanced, ResolveShowdown, AwardUncontested, SumCommitted;
    if ShownDown(e, u, t) {
      var h :| AtShowdown(e.rules, u, h) && t == ResolveShowdown(e, h);
      AtShowdownBalanced(e.rules, u, h);
      ResolvedSame(e, h);
      SameCommitted(u.stacks, h.g, t.hand.g, i);
    } else {
      var h, w: nat :| LastStanding(e.rules, u, h, w) && t == AwardUncontested(h, w);
      SoundBalanced(e.rules, u, h);
      AwardCommitted(h, w);
      SameCommitted(u.stacks, h.g, t.hand.g, i);
    }
  }

  lemma AwardCommitted(h: Hand, w: nat)
    ensures var g := AwardUncontested(h, w).hand.g;
            |g.players| == |h.g.players| && forall i :: 0 <= i < |g.players| ==>
              g.players[i].committed == h.g.players[i].committed
  {
  }

  lemma SameCommitted(start: seq<nat>, g: Game, g': Game, i: nat)
    requires Balanced(start, g) && |g'.players| == |g.players| && i < |start|
    requires forall i :: 0 <= i < |g.players| ==> g'.players[i].committed == g.players[i].committed
    ensures i < |g'.players| && g'.players[i].committed <= start[i] && SumCommitted(g'.players) <= Total(start)
  {
    SumSame(g.players, CommittedOf, g'.players, CommittedOf);
    BalancedChips(start, g);
    assert SeatBalanced(start[i], g.players[i]);
  }

  /** However a hand ends, every stack is what was left plus what was won, and no more is won
      than was committed. */
  ghost predicate PaidWithin(start: seq<nat>, g: Game, deltas: seq<nat>) {
    && |g.players| == |start| == |deltas|
    && (forall i :: 0 <= i < |start| ==> g.players[i].stack + g.players[i].committed == start[i] + deltas[i])
    && Sum(deltas, Id) <= SumCommitted(g.players)
  }

  lemma WithinChips(start: seq<nat>, g: Game, deltas: seq<nat>)
    requires PaidWithin(start, g, deltas)
    ensures Chips(g.players) <= Total(start)
  {
    var both := seq(|start|, i requires 0 <= i < |start| => start[i] + deltas[i]);
    SumSplit(both, Id, start, Id, deltas, Id);
    SumSplit(both, Id, g.players, StackOf, g.players, CommittedOf);
  }

  lemma ShowdownPaysWithin(start: seq<nat>, e: Engine, h: Hand)
    requires Balanced(start, h.g)
    ensures PaidWithin(start, ResolveShowdown(e, h).hand.g, ResolveShowdown(e, h).phase.deltas)
  {
    var ps := h.g.players;
    PayoutConserves(ps, Ranks(e, h.g), h.g.dealer);
    var deltas := ShowdownDeltas(ps, Ranks(e, h.g), h.g.dealer);
    SumSame(ps, CommittedOf, AddStacks(ps, deltas), CommittedOf);
  }

  lemma GoodPaysWithin(e: Engine, u: Setup, t: Node)
    requires Good(e, u, t) && t.phase.Terminal?
    ensures PaidWithin(u.stacks, t.hand.g, t.phase.deltas)
  {
    hide Balanced, AtShowdown, Sound, ResolveShowdown, AwardUncontested;
    if ShownDown(e, u, t) {
      var h :| AtShowdown(e.rules, u, h) && t == ResolveShowdown(e, h);
      AtShowdownBalanced(e.rules, u, h);
      ShowdownPaysWithin(u.stacks, e, h);
    } else {
      var h, w :| LastStanding(e.rules, u, h, w) && t == AwardUncontested(h, w);
      SoundBalanced(e.rules, u, h);
      AwardPaysOut(u.stacks, h, w);
    }
  }

  // ---------------------------------------------------------------------------
  // Rule 47A over whole hands
  // ---------------------------------------------------------------------------

  ghost predicate Reopening(t: Node) {
    t.phase.Decision? ==> Rule47A(t.hand.g, t.phase.responded)
  }

  lemma SilentReopens(g: Game)
    requires g.minRaise > 0
    ensures Rule47A(g, Silent(|g.players|))
  {
  }

  lemma {:induction false} StreetsReopen(e: Engine, h: Hand)
    requires e.rules.bigBlind > 0
    ensures Reopening(NextStreets(e, h))
    decreases StreetsLeft(h.g.street)
  {
    hide Rule47A, ActiveCount;
    match NextStreet(h.g.street)
    case None =>
    case Some((street, n)) =>
      var r := OpenStreet(e.rules, h, street, n);
      SilentReopens(r.g);
      if !(ActiveCount(r.g.players) >= 2 && NextActiveAfter(r.g.dealer, r.g.players).Some?) { StreetsReopen(e,
        Collect(r)); }
  }

  lemma StepReopening(e: Engine, u: Setup, t: Node, a: Action)
    requires Good(e, u, t) && t.phase.Decision? && Bounded(e.rules, u) && e.rules.bigBlind > 0 &&
             LegalAt(e, t).Allows(a) && Reopening(t)
    ensures Reopening(Step(e, t, a))
  {
    hide Rule47A, NextStreets, Collect, Table, Told, Level, Bounded, ComputeLegal, Actor, Registers, Aggression,
      Normalize, ActionEvents, StillInCount;
    var seat, responded := t.phase.current, t.phase.responded;
    Rule47AKept(e.rules, t.hand.g, responded, seat, a);
    StreetsReopen(e, Collect(ActHand(t.hand, seat, a)));
  }

  lemma {:induction false} RunReopens(e: Engine, u: Setup, t: Node, script: seq<Action>, asked: seq<Asked>)
    requires Good(e, u, t) && WellFormed(t) && Bounded(e.rules, u) && e.rules.bigBlind > 0 &&
             AllowedRun(e, t, script) && Reopening(t)
    ensures Reopening(Drive(e, t, script, asked).node)
    decreases |script|
  {
    hide Good, Step, Bounded, Reopening;
    if t.phase.Decision? && script != [] {
      StepReopening(e, u, t, script[0]);
      StepGood(e, u, t, script[0]);
      StepWellFormed(e, t, script[0]);
      RunReopens(e, u, Step(e, t, script[0]), script[1..], asked + [Asked(t.phase.current, LegalAt(e, t))]);
    }
  }

  lemma ReachableReopens(e: Engine, u: Setup, script: seq<Action>)
    requires Playable(u) && Bounded(e.rules, u) && e.rules.bigBlind > 0 && AllowedRun(e, New(e, u), script)
    ensures Reopening(Played(e, u, script))
  {
    hide New, Good, AllowedRun, Reopening;
    NewGood(e, u);
    NewReopens(e, u);
    RunReopens(e, u, New(e, u), script, []);
  }

  /** TDA Rule 47A, one direction, at every decision of every allowed run: a seat that is
      refused a re-raise owes strictly less than a full raise. */
  lemma DeniedSeatsOweLess(e: Engine, u: Setup, script: seq<Action>, i: nat)
    requires Playable(u) && Bounded(e.rules, u) && e.rules.bigBlind > 0 && AllowedRun(e, New(e, u), script)
    ensures var t := Played(e, u, script);
            t.phase.Decision? && i < |t.hand.g.players| == |t.phase.responded| &&
            t.hand.g.players[i].status.Active? && t.phase.responded[i] ==>
              Owed(t.hand.g, i) < t.hand.g.minRaise
  {
    hide Played;
    ReachableReopens(e, u, script);
    var t := Played(e, u, script);
    if t.phase.Decision? && i < |t.hand.g.players| == |t.phase.responded| &&
       t.hand.g.players[i].status.Active? && t.phase.responded[i]
    {
      DeniedOwesLess(e.rules, t.hand.g, t.phase.responded, i);
    }
  }

  lemma NewReopens(e: Engine, u: Setup)
    requires Playable(u) && e.rules.bigBlind > 0
    ensures Reopening(New(e, u))
  {
    hide Opened, Rule47A, Blinded;
    OpenedCards(e.rules, u);
    SilentReopens(Opened(e.rules, u).g);
  }

  // ---------------------------------------------------------------------------
  // Events and cards
  // ---------------------------------------------------------------------------

  /** The stream and the cards of any good point, finished or not. */
  lemma GoodRecord(e: Engine, u: Setup, t: Node)
    requires Good(e, u, t)
    ensures |t.hand.g.players| == |u.stacks| && |t.hand.g.board| <= 5
    ensures FromDeck(t.hand) && t.hand.deck.cards == u.cards && Seen(u.kinds, u.stacks, t.hand)
    ensures Read(t.hand.log) == Some(Dealing) || (exists s, p :: Read(t.hand.log) == Some(Playing(s, p)))
  {
    hide Read, FromDeck, Balanced, ResolveShowdown, AwardUncontested, Seen;
    if t.phase.Terminal? {
      if ShownDown(e, u, t) {
        var h :| AtShowdown(e.rules, u, h) && t == ResolveShowdown(e, h);
        ResolveKeepsRecord(e, h);
        ResolvedSame(e, h);
        FromDeckFrame(h, t.hand);
        SeenSame(u, h, t.hand);
      } else {
        var h, w :| LastStanding(e.rules, u, h, w) && t == AwardUncontested(h, w);
        AwardKeepsRecord(h, w);
        FromDeckFrame(h, t.hand);
        SeenSame(u, h, t.hand);
      }
    }
  }

  lemma SeenSame(u: Setup, h: Hand, r: Hand)
    requires Seen(u.kinds, u.stacks, h) && |r.g.players| == |h.g.players| && r.g.board == h.g.board && r.log == h.log
    requires forall i :: 0 <= i < |h.g.players| ==>
               r.g.players[i].status == h.g.players[i].status && r.g.players[i].hole == h.g.players[i].hole
    ensures Seen(u.kinds, u.stacks, r)
  {
  }

  lemma ResolveKeepsRecord(e: Engine, h: Hand)
    ensures var r := ResolveShowdown(e, h).hand;
            && r.log == h.log && r.deck == h.deck && r.g.board == h.g.board && r.g.street == h.g.street
            && forall i :: 0 <= i < |h.g.players| ==> r.g.players[i].hole == h.g.players[i].hole
  {
  }

  lemma AwardKeepsRecord(h: Hand, w: nat)
    ensures var r := AwardUncontested(h, w).hand;
            && r.log == h.log && r.deck == h.deck && r.g.board == h.g.board && r.g.street == h.g.street
            && |r.g.players| == |h.g.players|
            && forall i :: 0 <= i < |h.g.players| ==>
                 r.g.players[i].hole == h.g.players[i].hole && r.g.players[i].status == h.g.players[i].status
  {
  }

  /** The last pot figure of a stream. */
  ghost predicate LastPot(log: seq<Event>, pot: nat) {
    exists street :: Read(log) == Some(Playing(street, pot))
  }

  lemma FinalPot(e: Engine, u: Setup, t: Node)
    requires Good(e, u, t) && t.phase.Terminal?
    ensures Read(t.hand.log) == Some(Dealing) || LastPot(t.hand.log, SumCommitted(t.hand.g.players))
  {
    hide Read, FromDeck, Balanced, ResolveShowdown, AwardUncontested, Seen;
    if ShownDown(e, u, t) {
      var h :| AtShowdown(e.rules, u, h) && t == ResolveShowdown(e, h);
      ResolveKeepsRecord(e, h);
      ResolvedSame(e, h);
      SumSame(h.g.players, CommittedOf, t.hand.g.players, CommittedOf);
    } else {
      var h, w: nat :| LastStanding(e.rules, u, h, w) && t == AwardUncontested(h, w);
      AwardKeepsRecord(h, w);
      AwardCommitted(h, w);
      SumSame(h.g.players, CommittedOf, t.hand.g.players, CommittedOf);
    }
  }

  /** The engine's stream follows the grammar at every point, reports the chips committed so
      far as its last pot figure, and is complete once the engine closes it. */
  lemma StreamShape(e: Engine, u: Setup, script: seq<Action>, result: HandResult)
    requires Playable(u)
    ensures var t := Played(e, u, script);
            t.phase.Decision? ==>
              || (Read(t.hand.log) == Some(Dealing) && t.hand.g.street == Preflop)
              || Read(t.hand.log) == Some(Playing(t.hand.g.street, SumCommitted(t.hand.g.players)))
    ensures var t := Played(e, u, script);
            t.phase.Terminal? ==>
               Read(t.hand.log) == Some(Dealing) || LastPot(t.hand.log, SumCommitted(t.hand.g.players))
    ensures var t := Played(e, u, script);
            t.phase.Terminal? ==> Read(t.hand.log + [HandEnded(u.handId, result)]) == Some(Over)
  {
    hide Played, Read, SumCommitted, Table, ShownDown, Conceded, LastPot;
    PlayedGood(e, u, script);
    var t := Played(e, u, script);
    GoodRecord(e, u, t);
    if t.phase.Terminal? { FinalPot(e, u, t); }
    ReadOn(t.hand.log, HandEnded(u.handId, result));
  }

  /** With a proper deck and room for two cards a seat and a board, no card is dealt twice and
      the deck never runs out. */
  lemma CardsDistinct(e: Engine, u: Setup, script: seq<Action>)
    requires Playable(u) && Distinct(u.cards) && 2 * |u.stacks| + 5 <= |u.cards|
    ensures var h := Played(e, u, script).hand;
            Distinct(Holes(h.g.players) + h.g.board) && h.deck.cursor <= |u.cards|
  {
    hide Played, Good, FromDeck, Read, Seen;
    PlayedGood(e, u, script);
    GoodRecord(e, u, Played(e, u, script));
    DealSound(Played(e, u, script).hand);
  }
}
