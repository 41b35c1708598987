/** What every run of a hand keeps, for every list of submitted actions. */
module Invariants {
  import opened Types
  import opened Sums
  import opened Seats
  import opened PotCalc
  import opened Showdown
  import opened Betting
  import opened Tree
  import opened EngineRun
  import opened Ledger
  import opened Forced
  import opened Order
  import opened Story

  /** Two seats with chips hold live hands. */
  ghost predicate TwoLive(u: Setup) {
    exists i, j :: 0 <= i < j < |u.stacks| && LiveSeat(u, i) && LiveSeat(u, j)
  }

  ghost predicate LiveSeat(u: Setup, i: nat) {
    i < |u.stacks| && u.stacks[i] > 0 && !IsDead(u.kinds, i)
  }

  /** Every seat in the hand was dealt in. */
  ghost predicate HasHoles(ps: seq<Player>) {
    forall i :: 0 <= i < |ps| && ps[i].StillIn() ==> ps[i].hole.Some?
  }

  /** The parts of the invariant that betting does not touch. */
  ghost predicate Table(u: Setup, h: Hand) {
    && Balanced(u.stacks, h.g) && FromDeck(h) && h.deck.cards == u.cards
    && HasHoles(h.g.players) && Seen(u.kinds, u.stacks, h)
  }

  /** In the middle of a street. */
  ghost predicate Sound(rules: Rules, u: Setup, h: Hand) {
    && Table(u, h) && |h.g.board| == BoardSize(h.g.street) && h.g.street != Street.Showdown
    && Told(u.kinds, u.stacks, h)
    && Level(rules, u, h.g)
    && (Bounded(rules, u) ==> ActiveWithin(h.g)) && (rules.bigBlind > 0 ==> h.g.minRaise > 0)
    && Paying(rules.bigBlind, h.g) && Capped(Cap(rules, u), h.g)
  }

  function Total(stacks: seq<nat>): nat { Sum(stacks, Id) }

  /** The largest bet there can be: all the chips, or a blind nobody covers. */
  function Cap(rules: Rules, u: Setup): nat { Max(rules.bigBlind, Total(u.stacks)) }

  ghost predicate StaysContested(u: Setup, ps: seq<Player>) { TwoLive(u) ==> StillInCount(ps) >= 2 }

  /** Between streets, bets collected. */
  ghost predicate Resting(rules: Rules, u: Setup, h: Hand) {
    && Table(u, h) && |h.g.board| == BoardSize(h.g.street) && h.g.street != Street.Showdown
    && ZeroBets(h.g.players) == h.g.players
    && Read(h.log) == Some(Playing(h.g.street, SumCommitted(h.g.players)))
    && Even(rules, u, h.g.players) && ActivePaid(rules.bigBlind, h.g.players)
    && StaysContested(u, h.g.players)
  }

  /** Cards about to be shown. */
  ghost predicate AtShowdown(rules: Rules, u: Setup, h: Hand) {
    && Table(u, h) && |h.g.board| == 5 && h.g.street == Street.Showdown
    && Read(h.log) == Some(Playing(River, SumCommitted(h.g.players)))
    && Even(rules, u, h.g.players) && ActivePaid(rules.bigBlind, h.g.players)
    && StaysContested(u, h.g.players)
  }

  ghost predicate ShownDown(e: Engine, u: Setup, t: Node) {
    exists h :: AtShowdown(e.rules, u, h) && t == ResolveShowdown(e, h)
  }

  /** One seat is left, or nobody could act after the blinds. */
  ghost predicate LastStanding(rules: Rules, u: Setup, h: Hand, winner: nat) {
    && Sound(rules, u, h) && winner < |h.g.players| && h.g.players[winner].StillIn()
    && (StillInCount(h.g.players) == 1 || (h.g.board == [] && ActiveCount(h.g.players) == 0))
  }

  ghost predicate Conceded(e: Engine, u: Setup, t: Node) {
    exists h, w :: LastStanding(e.rules, u, h, w) && t == AwardUncontested(h, w)
  }

  /** The invariant of the machine. */
  ghost predicate Good(e: Engine, u: Setup, t: Node) {
    && WellFormed(t) && |t.hand.g.players| == |u.stacks|
    && match t.phase
       case Decision(current, responded) =>
         && Sound(e.rules, u, t.hand) && StaysContested(u, t.hand.g.players)
         && Unsettled(t.hand.g.players[current], t.hand.g.currentBet, responded[current])
       case Terminal(_) => ShownDown(e, u, t) || Conceded(e, u, t)
  }

  // ---------------------------------------------------------------------------
  // The first decision
  // ---------------------------------------------------------------------------

  lemma {:induction false} BeforeDeal(h: Hand, ante: nat, k: nat)
    requires k <= |h.g.players|
    requires forall i :: 0 <= i < |h.g.players| ==> h.g.players[i].hole.None?
    ensures var r := PostAntes(h, ante, k);
            && r.deck == h.deck && r.g.board == h.g.board && r.g.shortSum == h.g.shortSum
            && forall i :: 0 <= i < |h.g.players| ==> r.g.players[i].hole.None?
  {
    if k > 0 { BeforeDeal(h, ante, k - 1); }
  }

  lemma BlindedUndealt(rules: Rules, u: Setup)
    requires Playable(u)
    ensures var h := Blinded(rules, u);
            && h.deck == Deck(u.cards, 0) && h.g.board == [] && h.g.shortSum == 0 &&
               h.g.minRaise == rules.bigBlind == h.g.currentBet
            && forall i :: 0 <= i < |h.g.players| ==> h.g.players[i].hole.None?
  {
    BeforeDeal(Started(rules, u), rules.ante, |u.stacks|);
    AntedSomeone(rules, u);
    var h := Anted(rules, u);
    var sb := SmallBlindSeat(h.g);
    NextInListFinds(h.g.dealer, h.g.players);
    NextInListFinds(sb, h.g.players);
    var r := Post(h, sb, rules.smallBlind);
    assert forall i :: 0 <= i < |h.g.players| ==> r.g.players[i].hole.None?;
  }

  lemma OpenedCards(rules: Rules, u: Setup)
    requires Playable(u)
    ensures var h := Opened(rules, u);
            && FromDeck(h) && h.deck.cards == u.cards && HasHoles(h.g.players)
            && h.g.minRaise == rules.bigBlind == h.g.currentBet && h.g.shortSum == 0
  {
    hide Blinded, FromDeck;
    BlindedUndealt(rules, u);
    var b := Blinded(rules, u);
    var d := DealHoles(b, |u.stacks|);
    DealFromDeck(b, |u.stacks|);
    DealKeepsChips(b, |u.stacks|);
    DealKeepsRegisters(b, |u.stacks|);
    SatOutLength(rules, u);
    FromDeckFrame(d, Opened(rules, u));
  }

  lemma FromDeckFrame(h: Hand, r: Hand)
    requires FromDeck(h) && |r.g.players| == |h.g.players| && r.g.board == h.g.board && r.deck == h.deck
    requires forall i :: 0 <= i < |h.g.players| ==> r.g.players[i].hole == h.g.players[i].hole
    ensures FromDeck(r)
  {
    HolesSame(h.g.players, r.g.players);
  }

  /** Who is in the hand once the blinds are up and the dead hands are down. */
  lemma OpenedIn(rules: Rules, u: Setup, i: nat)
    requires Playable(u) && i < |u.stacks|
    ensures Opened(rules, u).g.players[i].StillIn() == LiveSeat(u, i)
    ensures Opened(rules, u).g.players[i].status.Folded? == (u.stacks[i] > 0 && IsDead(u.kinds, i))
  {
    hide Blinded;
    OpenedBalanced(rules, u);
    BlindedOpening(rules, u);
    BlindedBalanced(rules, u);
    DealKeepsChips(Blinded(rules, u), |u.stacks|);
    SatOutLength(rules, u);
    assert SeatBalanced(u.stacks[i], Blinded(rules, u).g.players[i]);
  }

  lemma BlindedBalanced(rules: Rules, u: Setup)
    requires Playable(u)
    ensures Balanced(u.stacks, Blinded(rules, u).g)
  {
    hide PostBlinds, Balanced;
    InitBalanced(rules, u);
    AntesBalanced(u.stacks, Started(rules, u), rules.ante, |u.stacks|);
    AntedSomeone(rules, u);
    BlindsBalanced(u.stacks, rules, Anted(rules, u));
  }

  lemma OpenedTold(rules: Rules, u: Setup)
    requires Playable(u)
    ensures Told(u.kinds, u.stacks, Opened(rules, u))
  {
    hide Blinded, Opening;
    BlindedOpening(rules, u);
    var b, h := Blinded(rules, u), Opened(rules, u);
    DealTold(b, |u.stacks|);
    OpenedPreflop(rules, u);
    assert h.log == DealHoles(b, |u.stacks|).log;
    forall i | 0 <= i < |u.stacks| ensures h.g.players[i].status.Folded? <==> (IsDead(u.kinds, i) && u.stacks[i] > 0) {
      OpenedIn(rules, u, i);
    }
    forall i | 0 <= i < |u.stacks|
      ensures h.g.players[i].status.AllIn? ==> i in AllInIn(h.log)
      ensures i in AllInIn(h.log) ==> h.g.players[i].status.AllIn? || (IsDead(u.kinds, i) && u.stacks[i] > 0)
    {
      OpenedAllIn(rules, u, i);
    }
  }

  lemma OpenedAllIn(rules: Rules, u: Setup, i: nat)
    requires Playable(u) && i < |u.stacks|
    ensures var h := Opened(rules, u);
            && (h.g.players[i].status.AllIn? ==> i in AllInIn(h.log))
            && (i in AllInIn(h.log) ==> h.g.players[i].status.AllIn? || (IsDead(u.kinds, i) && u.stacks[i] > 0))
  {
    hide Blinded, AllInIn, Read, FoldedIn, BoardIn, HoleIn;
    BlindedOpening(rules, u);
    BlindedBalanced(rules, u);
    var b := Blinded(rules, u);
    DealTold(b, |u.stacks|);
    DealKeepsChips(b, |u.stacks|);
    SatOutLength(rules, u);
    assert SeatBalanced(u.stacks[i], b.g.players[i]);
  }

  lemma OpenedSound(rules: Rules, u: Setup)
    requires Playable(u)
    ensures Sound(rules, u, Opened(rules, u)) && StaysContested(u, Opened(rules, u).g.players)
  {
    hide Opened, Balanced, FromDeck, Told, Level;
    OpenedBalanced(rules, u);
    OpenedCards(rules, u);
    OpenedTold(rules, u);
    ToldSeen(u, Opened(rules, u));
    OpenedPreflop(rules, u);
    OpenedLevel(rules, u);
    if TwoLive(u) {
      var i, j :| 0 <= i < j < |u.stacks| && LiveSeat(u, i) && LiveSeat(u, j);
      OpenedIn(rules, u, i);
      OpenedIn(rules, u, j);
      SumAtLeastTwo(Opened(rules, u).g.players, StillInOf, i, j);
    }
  }

  lemma ToldSeen(u: Setup, h: Hand)
    requires Told(u.kinds, u.stacks, h)
    ensures Seen(u.kinds, u.stacks, h)
  {
  }

  lemma NewGood(e: Engine, u: Setup)
    requires Playable(u)
    ensures Good(e, u, New(e, u))
  {
    hide Sound, AwardUncontested, StaysContested;
    var h := Opened(e.rules, u);
    OpenedSound(e.rules, u);
    OpenedPreflop(e.rules, u);
    var from := BigBlindSeat(Blinded(e.rules, u).g);
    if NextActiveAfter(from, h.g.players).None? {
      ScanFinds(ActiveMask(h.g.players), from);
      forall i | 0 <= i < |h.g.players| ensures ActiveOf(h.g.players[i]) == 0 { assert !ActiveMask(h.g.players)[i]; }
      SumZero(h.g.players, ActiveOf);
      var i :| 0 <= i < |u.stacks| && u.stacks[i] > 0 && !IsDead(u.kinds, i);
      OpenedIn(e.rules, u, i);
      var w := FirstIn(h.g.players);
      assert LastStanding(e.rules, u, h, w);
    }
  }

  // ---------------------------------------------------------------------------
  // Steps
  // ---------------------------------------------------------------------------

  lemma ActTable(u: Setup, h: Hand, seat: nat, a: Action)
    requires Table(u, h) && Told(u.kinds, u.stacks, h) && seat < |h.g.players| && h.g.players[seat].status.Active?
    ensures var r := ActHand(h, seat, a);
            Table(u, r) && Read(r.log) == Some(Playing(r.g.street, SumCommitted(r.g.players)))
  {
    hide Balanced, FromDeck, Told, Seen, Read;
    ActBalanced(u.stacks, h, seat, a);
    ActTold(u.kinds, u.stacks, h, seat, a);
    FromDeckFrame(h, ActHand(h, seat, a));
  }

  lemma ActKeepsMinRaise(h: Hand, seat: nat, a: Action)
    requires seat < |h.g.players|
    ensures ActHand(h, seat, a).g.minRaise >= h.g.minRaise
    ensures ActHand(h, seat, a).g.board == h.g.board && ActHand(h, seat, a).g.street == h.g.street
  {
    RegistersMonotone(h.g, seat, a);
  }

  lemma ActSound(rules: Rules, u: Setup, h: Hand, seat: nat, a: Action)
    requires Sound(rules, u, h) && seat < |h.g.players| && h.g.players[seat].status.Active?
    ensures Sound(rules, u, ActHand(h, seat, a))
    ensures var r := ActHand(h, seat, a); Read(r.log) == Some(Playing(r.g.street, SumCommitted(r.g.players)))
    ensures StillInCount(ActHand(h, seat, a).g.players) + 1 >= StillInCount(h.g.players)
  {
    hide Table, Read, Seen, Level, Actor, Registers, Paying, Bounded, ActiveWithin, Capped, Balanced;
    TableSeen(u, h);
    assert |u.stacks| == |h.g.players| by { BalancedLength(u.stacks, h.g); }
    SumAtLeast(u.stacks, Id, seat);
    ActCapped(u.stacks, Cap(rules, u), h, seat, a);
    if Bounded(rules, u) { ActKeepsWithin(h, seat, a); }
    ActPaying(rules.bigBlind, h, seat, a);
    ActTable(u, h, seat, a);
    TableSeen(u, ActHand(h, seat, a));
    ActKeepsMinRaise(h, seat, a);
    ActLevel(rules, u, h, seat, a);
    SumUpdate(h.g.players, seat, Actor(h.g, seat, Normalize(h.g, seat, a)), StillInOf);
  }

  lemma BalancedLength(start: seq<nat>, g: Game)
    requires Balanced(start, g)
    ensures |g.players| == |start|
  {
  }

  lemma TableSeen(u: Setup, h: Hand)
    requires Table(u, h)
    ensures Seen(u.kinds, u.stacks, h) && Balanced(u.stacks, h.g)
  {
  }

  lemma CollectTable(u: Setup, h: Hand)
    requires Table(u, h)
    ensures Table(u, Collect(h)) && StillInCount(Collect(h).g.players) == StillInCount(h.g.players)
    ensures SumCommitted(Collect(h).g.players) == SumCommitted(h.g.players)
  {
    hide Balanced, FromDeck;
    CollectBalanced(u.stacks, h);
    FromDeckFrame(h, Collect(h));
    SumSame(h.g.players, StillInOf, Collect(h).g.players, StillInOf);
  }

  lemma CollectResting(rules: Rules, u: Setup, h: Hand)
    requires Sound(rules, u, h) && StaysContested(u, h.g.players)
    requires Read(h.log) == Some(Playing(h.g.street, SumCommitted(h.g.players)))
    requires Matched(h.g)
    ensures Resting(rules, u, Collect(h))
  {
    hide Table, Read, Level, Even, Told, ActivePaid, Balanced;
    CollectTable(u, h);
    TableSeen(u, h);
    CollectPaying(u.stacks, rules.bigBlind, h);
    CollectLevel(rules, u, h);
  }

  lemma OpenTable(rules: Rules, u: Setup, h: Hand, street: Street, n: nat)
    requires Resting(rules, u, h) && NextStreet(h.g.street) == Some((street, n))
    ensures var r := OpenStreet(rules, h, street, n);
            && Table(u, r) && r.g.players == h.g.players
            && Read(r.log) == Some(Playing(r.g.street, SumCommitted(r.g.players)))
            && |r.g.board| == BoardSize(street) && r.g.street == street && r.g.minRaise == rules.bigBlind
            && r.g.currentBet == r.g.shortSum == 0
  {
    hide Balanced, FromDeck, Seen, Read;
    OpenBalanced(u.stacks, rules, h, street, n);
    OpenTold(u.kinds, u.stacks, rules, h, street, n);
    FromDeckFrame(h, BeginStreet(rules, h, street));
    BoardFromDeck(BeginStreet(rules, h, street), street, n);
  }

  lemma OpenSound(rules: Rules, u: Setup, h: Hand, street: Street, n: nat)
    requires Resting(rules, u, h) && NextStreet(h.g.street) == Some((street, n))
    ensures Sound(rules, u, OpenStreet(rules, h, street, n))
    ensures StaysContested(u, OpenStreet(rules, h, street, n).g.players)
    ensures Resting(rules, u, Collect(OpenStreet(rules, h, street, n)))
  {
    hide OpenStreet, Table, Read, Level, Even, ActivePaid, StillInCount, Bounded;
    OpenTable(rules, u, h, street, n);
    var r := OpenStreet(rules, h, street, n);
    TableSeen(u, r);
    NothingBet(r.g);
    OpenLevel(rules, u, h, street, n);
    CollectNothing(r);
  }

  lemma NothingBet(g: Game)
    requires ZeroBets(g.players) == g.players
    ensures ActiveWithin(g)
  {
    forall i | 0 <= i < |g.players| ensures g.players[i].bet == 0 { assert ZeroBets(g.players)[i].bet == 0; }
  }

  lemma ShowdownReached(e: Engine, u: Setup, h: Hand)
    requires Resting(e.rules, u, h) && NextStreet(h.g.street).None?
    ensures ShownDown(e, u, ToShowdown(e, h))
  {
    hide ResolveShowdown, Read, Even, ActivePaid, Balanced, Seen;
    var r := DealRemaining(h);
    assert r == h;
    var s := h.(g := h.g.(street := Street.Showdown));
    FromDeckFrame(h, s);
    BalancedFrame(u.stacks, h.g, s.g);
    SeenFrame(u, h, s);
    assert AtShowdown(e.rules, u, s);
  }

  lemma SeenFrame(u: Setup, h: Hand, r: Hand)
    requires Seen(u.kinds, u.stacks, h) && r.g.players == h.g.players && r.g.board == h.g.board && r.log == h.log
    ensures Seen(u.kinds, u.stacks, r)
  {
  }

  lemma {:induction false} StreetsGood(e: Engine, u: Setup, h: Hand)
    requires Resting(e.rules, u, h)
    ensures Good(e, u, NextStreets(e, h))
    decreases StreetsLeft(h.g.street)
  {
    hide Resting, Sound, ShownDown, Conceded, OpenStreet, ToShowdown, StaysContested, ActiveCount;
    NextStreetsWellFormed(e, h);
    RestingLength(e.rules, u, h);
    match NextStreet(h.g.street)
    case None => ShowdownReached(e, u, h);
    case Some((street, n)) =>
      OpenSound(e.rules, u, h, street, n);
      var r := OpenStreet(e.rules, h, street, n);
      if ActiveCount(r.g.players) >= 2 && NextActiveAfter(r.g.dealer, r.g.players).Some? {
      } else {
        OpenStreetKeeps(e.rules, h, street, n);
        StreetsGood(e, u, Collect(r));
      }
  }

  lemma RestingLength(rules: Rules, u: Setup, h: Hand)
    requires Resting(rules, u, h)
    ensures |h.g.players| == |u.stacks|
  {
  }

  lemma SettleGood(e: Engine, u: Setup, h: Hand, start: nat, responded: seq<bool>)
    requires Sound(e.rules, u, h) && StaysContested(u, h.g.players) && |responded| == |h.g.players| == |u.stacks|
    requires Read(h.log) == Some(Playing(h.g.street, SumCommitted(h.g.players)))
    ensures Good(e, u, Settle(e, h, start, responded))
  {
    hide Sound, StaysContested, ShownDown, Conceded, NextStreets, Collect, Read;
    var mask := UnsettledMask(h.g, responded);
    if Scan(mask, start, 1).None? {
      ScanFinds(mask, start);
      forall i | 0 <= i < |h.g.players| && h.g.players[i].status.Active? ensures h.g.players[i].bet == h.g.currentBet {
        assert !mask[i];
      }
      CollectResting(e.rules, u, h);
      StreetsGood(e, u, Collect(h));
    }
  }

  /** Every submitted action keeps the invariant. */
  lemma StepGood(e: Engine, u: Setup, t: Node, a: Action)
    requires Good(e, u, t) && t.phase.Decision?
    ensures Good(e, u, Step(e, t, a))
  {
    hide Sound, ShownDown, Conceded, Settle, AwardUncontested, ActHand, ActResponded;
    var seat, responded := t.phase.current, t.phase.responded;
    var h, r := ActHand(t.hand, seat, a), ActResponded(t.hand.g, responded, seat, a);
    StepWellFormed(e, t, a);
    ActSound(e.rules, u, t.hand, seat, a);
    ActLengths(t.hand, responded, seat, a);
    if StillInCount(h.g.players) == 1 {
      ConcededHere(e, u, h);
    } else {
      SettleGood(e, u, h, seat, r);
    }
  }

  lemma ConcededHere(e: Engine, u: Setup, h: Hand)
    requires Sound(e.rules, u, h) && StillInCount(h.g.players) == 1
    ensures Conceded(e, u, AwardUncontested(h, FirstIn(h.g.players)))
  {
    hide Sound, AwardUncontested;
    var i := SumWitness(h.g.players, StillInOf);
    assert LastStanding(e.rules, u, h, FirstIn(h.g.players));
  }

  lemma {:induction false} DriveGood(e: Engine, u: Setup, t: Node, script: seq<Action>, asked: seq<Asked>)
    requires Good(e, u, t)
    ensures Good(e, u, Drive(e, t, script, asked).node)
    decreases |script|
  {
    hide Good, Step;
    GoodWellFormed(e, u, t);
    if t.phase.Decision? && script != [] {
      StepGood(e, u, t, script[0]);
      StepWellFormed(e, t, script[0]);
      DriveGood(e, u, Step(e, t, script[0]), script[1..], asked + [Asked(t.phase.current, LegalAt(e, t))]);
    }
  }

  lemma GoodWellFormed(e: Engine, u: Setup, t: Node)
    requires Good(e, u, t)
    ensures WellFormed(t)
  {
  }

  /** Every point a hand can reach. */
  lemma ReachableGood(e: Engine, u: Setup, script: seq<Action>)
    requires Playable(u)
    ensures Good(e, u, Drive(e, New(e, u), script, []).node)
  {
    NewGood(e, u);
    DriveGood(e, u, New(e, u), script, []);
  }
}
