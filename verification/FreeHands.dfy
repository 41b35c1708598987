/** The pot when the big blind is zero: hands that can be checked down for nothing, and exactly
    when a chip can be left to nobody. */
module FreeHands {
  import opened Types
  import opened Sums
  import opened Seats
  import opened PotCalc
  import opened Showdown
  import opened Betting
  import opened Tree
  import opened EngineRun
  import opened Ledger
  import opened Order
  import opened Story
  import opened Invariants
  import opened Forced
  import opened Theorems
  import opened Rulebook
  import opened Limits

  /** The small blind is all that is posted, by a seat that is dead or can fold, and two other live
      hands can check the hand down for nothing. */
  ghost predicate Orphans(rules: Rules, u: Setup) {
    && rules.ante == 0 && rules.smallBlind > 0 && (!LiveSeat(u, SbSeat(u)) || CanAct(rules, u, SbSeat(u)))
    && exists i, j :: 0 <= i < j < |u.stacks| && LiveSeat(u, i) && LiveSeat(u, j) && i != SbSeat(u) && j != SbSeat(u)
  }

  // ---------------------------------------------------------------------------
  // What every hand keeps
  // ---------------------------------------------------------------------------

  /** Forced bets stay in, only live hands are ever in, and a hand all-in from its forced bets stays. */
  ghost predicate Kept(rules: Rules, u: Setup, ps: seq<Player>) {
    |ps| == |u.stacks| && forall i :: 0 <= i < |ps| ==>
      && ps[i].committed >= Posted(rules, u, i)
      && (ps[i].StillIn() ==> LiveSeat(u, i))
      && (LiveSeat(u, i) && !CanAct(rules, u, i) ==> ps[i].status.AllIn?)
  }

  /** Everybody still in has put chips in, or nobody has. */
  ghost predicate AllOrNothing(ps: seq<Player>) {
    (forall i :: 0 <= i < |ps| && ps[i].StillIn() ==> ps[i].committed > 0) || SumCommitted(ps) == 0
  }

  /** ... or somebody has on this street, and the others have to match it. */
  ghost predicate PutIn(g: Game) {
    g.currentBet > 0 || AllOrNothing(g.players)
  }

  ghost predicate Fine(rules: Rules, u: Setup, t: Node) {
    && Kept(rules, u, t.hand.g.players)
    && (NothingPosted(rules, u) ==>
          (t.phase.Decision? ==> PutIn(t.hand.g)) &&
          (t.phase.Terminal? && t.hand.g.street == Street.Showdown ==> AllOrNothing(t.hand.g.players)))
  }

  lemma SameKept(rules: Rules, u: Setup, ps: seq<Player>, qs: seq<Player>)
    requires Kept(rules, u, ps) && |qs| == |ps|
    requires forall i :: 0 <= i < |ps| ==> qs[i].committed == ps[i].committed && qs[i].status == ps[i].status
    ensures Kept(rules, u, qs)
    ensures AllOrNothing(ps) ==> AllOrNothing(qs)
  {
    SumSame(ps, CommittedOf, qs, CommittedOf);
  }

  lemma TookKept(rules: Rules, u: Setup, g: Game, seat: nat, a: Action, g': Game)
    requires Kept(rules, u, g.players) && seat < |g.players| && g.players[seat].status.Active? && Took(g, seat, a, g')
    ensures Kept(rules, u, g'.players)
  {
    assert forall i :: 0 <= i < |g.players| && i != seat ==> g'.players[i] == g.players[i];
    assert LiveSeat(u, seat) && CanAct(rules, u, seat);
  }

  /** Chips come in over a bet. */
  lemma TookPutIn(start: seq<nat>, g: Game, seat: nat, a: Action, g': Game)
    requires PutIn(g) && Balanced(start, g) && seat < |g.players| && g.players[seat].status.Active?
    requires Took(g, seat, a, g')
    ensures PutIn(g')
  {
    var q := g'.players[seat];
    assert SeatBalanced(start[seat], g.players[seat]);
    assert forall i :: 0 <= i < |g.players| && i != seat ==> g'.players[i] == g.players[i];
    SumUpdate(g.players, seat, q, CommittedOf);
    SumAtLeast(g.players, CommittedOf, seat);
  }

  /** Once everybody has answered, everybody in has put chips in or nobody has. */
  lemma ClosedAllOrNothing(start: seq<nat>, g: Game, heard: seq<bool>)
    requires PutIn(g) && Balanced(start, g) && |heard| == |g.players| && forall i: nat :: !OwesAnswer(g, heard, i)
    ensures AllOrNothing(g.players)
  {
    if g.currentBet > 0 {
      forall i | 0 <= i < |g.players| && g.players[i].StillIn() ensures g.players[i].committed > 0 {
        assert SeatBalanced(start[i], g.players[i]);
        assert !OwesAnswer(g, heard, i);
      }
    }
  }

  lemma StepFine(e: Engine, u: Setup, t: Node, a: Action)
    requires Good(e, u, t) && t.phase.Decision? && Fine(e.rules, u, t)
    ensures WellFormed(t) && Fine(e.rules, u, Step(e, t, a))
  {
    hide Good, Step, ActHand, ActResponded, Took, Announced, Kept, PutIn, AllOrNothing, OnlyIn, OwesAnswer, AsksNext,
      NothingPosted, Balanced, TwoActive;
    GoodWellFormed(e, u, t);
    GoodDecision(e, u, t);
    GoodDecisionBalanced(e, u, t);
    GoodTurn(e, u, t, a);
    StepGood(e, u, t, a);
    var t', seat := Step(e, t, a), t.phase.current;
    var h, heard := ActHand(t.hand, seat, a), ActResponded(t.hand.g, t.phase.responded, seat, a);
    TookKept(e.rules, u, t.hand.g, seat, a, h.g);
    if NothingPosted(e.rules, u) { TookPutIn(u.stacks, t.hand.g, seat, a, h.g); }
    ActedBalanced(u, t.hand, seat, a);
    if exists w :: OnlyIn(h.g.players, w) {
      var w: nat :| TakesAll(h, w, t');
      SameKept(e.rules, u, h.g.players, t'.hand.g.players);
      TakenUnshown(e, u, t, a);
    } else if exists i :: OwesAnswer(h.g, heard, i) {
    } else {
      if NothingPosted(e.rules, u) { ClosedAllOrNothing(u.stacks, h.g, heard); }
      SameKept(e.rules, u, h.g.players, t'.hand.g.players);
      if AllOrNothing(t'.hand.g.players) { StillPutIn(t'.hand.g); }
    }
  }

  lemma StillPutIn(g: Game)
    ensures AllOrNothing(g.players) ==> PutIn(g)
  {
  }

  lemma GoodDecisionBalanced(e: Engine, u: Setup, t: Node)
    requires Good(e, u, t) && t.phase.Decision?
    ensures Balanced(u.stacks, t.hand.g) && t.hand.g.street != Street.Showdown
  {
    hide Told, Seen, Level, Bounded, Capped, Paying, Balanced;
  }

  lemma ActedBalanced(u: Setup, h: Hand, seat: nat, a: Action)
    requires Balanced(u.stacks, h.g) && seat < |h.g.players| && h.g.players[seat].status.Active?
    ensures Balanced(u.stacks, ActHand(h, seat, a).g) && ActHand(h, seat, a).g.street == h.g.street
  {
    ActBalanced(u.stacks, h, seat, a);
  }

  lemma TakenUnshown(e: Engine, u: Setup, t: Node, a: Action)
    requires Good(e, u, t) && t.phase.Decision? && WellFormed(t)
    requires exists v :: OnlyIn(ActHand(t.hand, t.phase.current, a).g.players, v)
    ensures Step(e, t, a).hand.g.street == t.hand.g.street != Street.Showdown
  {
    hide ActHand, ActResponded, NextStreets, Good;
    GoodDecision(e, u, t);
    GoodDecisionBalanced(e, u, t);
    ActedBalanced(u, t.hand, t.phase.current, a);
    var h := ActHand(t.hand, t.phase.current, a);
    var v: nat :| OnlyIn(h.g.players, v);
    OnlyInCounts(h.g.players, v);
  }

  lemma NewFine(e: Engine, u: Setup)
    requires Playable(u)
    ensures Fine(e.rules, u, New(e, u))
  {
    hide Opened, Posted, CanAct, AwardUncontested, Blinded, BigBlindSeat;
    var ps := Opened(e.rules, u).g.players;
    OpenedPreflop(e.rules, u);
    forall i | 0 <= i < |ps|
      ensures ps[i].committed == Posted(e.rules, u, i) && (ps[i].StillIn() <==> LiveSeat(u, i))
      ensures LiveSeat(u, i) && !CanAct(e.rules, u, i) ==> ps[i].status.AllIn?
    {
      OpenedSeat(e.rules, u, i);
      OpenedIn(e.rules, u, i);
    }
    if NothingPosted(e.rules, u) { SumZero(ps, CommittedOf); }
    if New(e, u).phase.Terminal? { AwardedKept(e, u); }
  }

  lemma AwardedKept(e: Engine, u: Setup)
    requires Playable(u) && New(e, u).phase.Terminal? && Kept(e.rules, u, Opened(e.rules, u).g.players)
    ensures Kept(e.rules, u, New(e, u).hand.g.players) && New(e, u).hand.g.street == Preflop
  {
    hide Opened, Kept, Blinded, BigBlindSeat;
    OpenedPreflop(e.rules, u);
    SameKept(e.rules, u, Opened(e.rules, u).g.players, New(e, u).hand.g.players);
  }

  lemma {:induction false} DriveFine(e: Engine, u: Setup, t: Node, script: seq<Action>, asked: seq<Asked>)
    requires Good(e, u, t) && WellFormed(t) && Fine(e.rules, u, t)
    ensures Fine(e.rules, u, Drive(e, t, script, asked).node)
    decreases |script|
  {
    hide Good, Step, Fine;
    if t.phase.Decision? && script != [] {
      StepFine(e, u, t, script[0]);
      StepGood(e, u, t, script[0]);
      StepWellFormed(e, t, script[0]);
      DriveFine(e, u, Step(e, t, script[0]), script[1..], asked + [Asked(t.phase.current, LegalAt(e, t))]);
    }
  }

  // ---------------------------------------------------------------------------
  // When every chip finds a winner
  // ---------------------------------------------------------------------------

  /** At a showdown of two hands or more, unless the small blind was orphaned. */
  lemma SomethingToWin(rules: Rules, u: Setup, g: Game)
    requires rules.bigBlind == 0 && Kept(rules, u, g.players) && TwoIn(g.players) && !Orphans(rules, u)
    requires NothingPosted(rules, u) ==> AllOrNothing(g.players)
    ensures Top(g.players) > 0 || SumCommitted(g.players) == 0
  {
    hide Top, SbSeat, BbSeat, SumCommitted;
    var ps, sb := g.players, SbSeat(u);
    var i, j :| 0 <= i < j < |ps| && ps[i].StillIn() && ps[j].StillIn();
    assert LiveSeat(u, i) && LiveSeat(u, j);
    TopCovers(ps, i);
    if rules.ante == 0 {
      if rules.smallBlind == 0 {
        assert NothingPosted(rules, u);
      } else {
        NextFundedIsFirst(u.stacks, u.dealer, i);
        TopCovers(ps, sb);
        assert i == sb || j == sb || ps[sb].status.AllIn?;
      }
    }
  }

  lemma ShowdownPaysFree(e: Engine, u: Setup, h: Hand)
    requires Balanced(u.stacks, h.g) && (Top(h.g.players) > 0 || SumCommitted(h.g.players) == 0)
    ensures PaidOut(u.stacks, ResolveShowdown(e, h).hand.g, ResolveShowdown(e, h).phase.deltas)
  {
    var ps := h.g.players;
    PayoutConserves(ps, Ranks(e, h.g), h.g.dealer);
    var deltas := ShowdownDeltas(ps, Ranks(e, h.g), h.g.dealer);
    SumSame(ps, CommittedOf, AddStacks(ps, deltas), CommittedOf);
  }

  lemma FreePaysOut(e: Engine, u: Setup, script: seq<Action>)
    requires Playable(u) && e.rules.bigBlind == 0 && TwoLive(u) && !Orphans(e.rules, u)
    requires Played(e, u, script).phase.Terminal?
    ensures var t := Played(e, u, script); PaidOut(u.stacks, t.hand.g, t.phase.deltas)
  {
    hide New, Sound, Balanced, ResolveShowdown, AwardUncontested, TwoLive, PaidOut, Kept, AllOrNothing, NothingPosted,
      Orphans, Top, SumCommitted, AtShowdown;
    NewGood(e, u);
    NewFine(e, u);
    DriveFine(e, u, New(e, u), script, []);
    PlayedGood(e, u, script);
    var t := Played(e, u, script);
    if ShownDown(e, u, t) {
      var h :| AtShowdown(e.rules, u, h) && t == ResolveShowdown(e, h);
      AtShowdownBalanced(e.rules, u, h);
      ResolvedSame(e, h);
      ShownFree(e, u, h);
    } else {
      var h, w :| LastStanding(e.rules, u, h, w) && t == AwardUncontested(h, w);
      SoundBalanced(e.rules, u, h);
      AwardPaysOut(u.stacks, h, w);
    }
  }

  lemma ShownFree(e: Engine, u: Setup, h: Hand)
    requires AtShowdown(e.rules, u, h) && TwoLive(u) && e.rules.bigBlind == 0 && !Orphans(e.rules, u)
    requires Fine(e.rules, u, ResolveShowdown(e, h))
    ensures var t := ResolveShowdown(e, h); PaidOut(u.stacks, t.hand.g, t.phase.deltas)
  {
    hide Balanced, ResolveShowdown, TwoLive, PaidOut, Kept, AllOrNothing, NothingPosted, Orphans, Top, SumCommitted,
      FromDeck, Seen, Read, TwoIn, StillInCount;
    var t := ResolveShowdown(e, h);
    ResolvedSame(e, h);
    ResolveKeepsRecord(e, h);
    SameKept(e.rules, u, t.hand.g.players, h.g.players);
    CountTwo(h.g.players);
    SomethingToWin(e.rules, u, h.g);
    ShowdownPaysFree(e, u, h);
  }

  // ---------------------------------------------------------------------------
  // A lone hand that nothing was posted for
  // ---------------------------------------------------------------------------

  lemma NothingToPay(e: Engine, u: Setup, t: Node)
    requires Good(e, u, t) && t.phase.Terminal? && SumCommitted(t.hand.g.players) == 0
    ensures PaidOut(u.stacks, t.hand.g, t.phase.deltas)
  {
    hide Good, SumCommitted;
    GoodPaysWithin(e, u, t);
  }

  lemma ActTook(h: Hand, seat: nat, a: Action)
    requires seat < |h.g.players| && h.g.players[seat].status.Active? && h.g.players[seat].stack > 0
    ensures Took(h.g, seat, a, ActHand(h, seat, a).g) && ActHand(h, seat, a).g.board == h.g.board
  {
    SubmittedTakes(h.g, seat, a);
  }

  /** Nobody but the asked seat is in the hand. */
  lemma LoneAct(e: Engine, u: Setup, a: Action)
    requires Playable(u) && !TwoLive(u) && New(e, u).phase.Decision?
    ensures var t := New(e, u);
            var h := ActHand(t.hand, t.phase.current, a);
            && |h.g.players| == |u.stacks| && Balanced(u.stacks, h.g) && h.g.board == [] && h.g.street == Preflop
            && (forall i :: 0 <= i < |h.g.players| && i != t.phase.current ==>
                  !h.g.players[i].StillIn() && h.g.players[i] == t.hand.g.players[i])
            && (h.g.players[t.phase.current].StillIn() <==> !a.Fold?)
            && (a.Fold? ==>
                  h.g.players[t.phase.current].committed == t.hand.g.players[t.phase.current].committed)
  {
    hide Opened, Blinded, TwoLive, BigBlindSeat, Took, Balanced, Good, ActHand;
    var t := New(e, u);
    var seat := t.phase.current;
    NewGood(e, u);
    GoodDecision(e, u, t);
    GoodDecisionBalanced(e, u, t);
    ActedBalanced(u, t.hand, seat, a);
    OpenedPreflop(e.rules, u);
    ActTook(t.hand, seat, a);
    OthersSame(t.hand.g, seat, a, ActHand(t.hand, seat, a).g);
    BalancedLength(u.stacks, ActHand(t.hand, seat, a).g);
    forall i | 0 <= i < |u.stacks| && i != seat ensures !t.hand.g.players[i].StillIn() { LoneIn(e, u, seat, i); }
  }

  lemma LoneStepPays(e: Engine, u: Setup, a: Action)
    requires Playable(u) && !TwoLive(u) && NothingPosted(e.rules, u) && New(e, u).phase.Decision?
    ensures var t := Step(e, New(e, u), a); t.phase.Terminal? && PaidOut(u.stacks, t.hand.g, t.phase.deltas)
  {
    hide New, TwoLive, NextStreets, AwardUncontested, PaidOut, Balanced, Good, Posted, ActHand, ActResponded,
      StillInCount, Settle, FirstIn;
    var t := New(e, u);
    var seat := t.phase.current;
    NewGood(e, u);
    LoneAct(e, u, a);
    var h, r := ActHand(t.hand, seat, a), ActResponded(t.hand.g, t.phase.responded, seat, a);
    ActLengths(t.hand, t.phase.responded, seat, a);
    if a.Fold? {
      FoldedNothing(e, u, h, seat);
      NobodyLeft(e, h, seat, r);
      SumSame(h.g.players, CommittedOf, Step(e, t, a).hand.g.players, CommittedOf);
      StepGood(e, u, t, a);
      NothingToPay(e, u, Step(e, t, a));
    } else {
      OnlyOneIn(h.g.players, seat);
      FirstIsIn(h.g.players, seat);
      AwardPaysOut(u.stacks, h, FirstIn(h.g.players));
    }
  }

  lemma FirstIsIn(ps: seq<Player>, i: nat)
    requires i < |ps| && ps[i].StillIn()
    ensures FirstIn(ps) < |ps|
  {
  }

  lemma OthersSame(g: Game, seat: nat, a: Action, g': Game)
    requires seat < |g.players| && Took(g, seat, a, g') && g.players[seat].status.Active?
    ensures forall i :: 0 <= i < |g.players| && i != seat ==> g'.players[i] == g.players[i]
    ensures g'.players[seat].StillIn() <==> !a.Fold?
    ensures a.Fold? ==> g'.players[seat].committed == g.players[seat].committed
  {
  }

  lemma FoldedNothing(e: Engine, u: Setup, h: Hand, seat: nat)
    requires Playable(u) && NothingPosted(e.rules, u) && New(e, u).phase.Decision? && |h.g.players| == |u.stacks|
    requires forall i :: 0 <= i < |h.g.players| ==> h.g.players[i].committed == New(e, u).hand.g.players[i].committed
    ensures SumCommitted(h.g.players) == 0
  {
    hide Opened, Blinded, BigBlindSeat, Posted;
    forall i | 0 <= i < |h.g.players| ensures CommittedOf(h.g.players[i]) == 0 { OpenedSeat(e.rules, u, i); }
    SumZero(h.g.players, CommittedOf);
  }

  lemma LonePaysOut(e: Engine, u: Setup, script: seq<Action>)
    requires Playable(u) && !TwoLive(u) && NothingPosted(e.rules, u) && !NobodyCanAct(e.rules, u)
    requires Played(e, u, script).phase.Terminal?
    ensures var t := Played(e, u, script); PaidOut(u.stacks, t.hand.g, t.phase.deltas)
  {
    hide New, Step, TwoLive, NobodyCanAct, NothingPosted, PaidOut;
    OverAtOnce(e, u);
    var t := New(e, u);
    LoneStepPays(e, u, script[0]);
    StepWellFormed(e, t, script[0]);
    var s := Step(e, t, script[0]);
    assert Drive(e, s, script[1..], [] + [Asked(t.phase.current, LegalAt(e, t))]).node == s;
  }

  // ---------------------------------------------------------------------------
  // The orphaned small blind
  // ---------------------------------------------------------------------------

  /** Nobody has put in more than was posted, nothing is to call, and the small blind's seat is out of
      the hand or still to answer. */
  ghost predicate Checking(rules: Rules, u: Setup, t: Node) {
    && WellFormed(t) && t.phase.Decision? && |t.hand.g.players| == |u.stacks|
    && t.hand.g.currentBet == 0 && Untouched(rules, u, t.hand.g.players)
    && var p := t.hand.g.players[SbSeat(u)]; (p.StillIn() ==> p.status.Active? && p.bet > 0)
  }

  ghost predicate Untouched(rules: Rules, u: Setup, ps: seq<Player>) {
    && |ps| == |u.stacks| && SbSeat(u) < |ps| && ps[SbSeat(u)].committed > 0
    && (forall i :: 0 <= i < |ps| && i != SbSeat(u) ==> ps[i].committed == ps[i].bet == 0)
    && exists i, j :: 0 <= i < j < |ps| && ps[i].StillIn() && ps[j].StillIn() && i != SbSeat(u) && j != SbSeat(u)
  }

  function PassOn(u: Setup, seat: nat): Action { if seat == SbSeat(u) then Fold else Check }

  /** The hand is over, and the small blind went to nobody. */
  ghost predicate Orphaned(t: Node) {
    t.phase.Terminal? && Sum(t.phase.deltas, Id) < SumCommitted(t.hand.g.players)
  }

  lemma PassKeeps(rules: Rules, u: Setup, g: Game, seat: nat, g': Game)
    requires seat < |g.players| && g.players[seat].status.Active? && Untouched(rules, u, g.players) && g.currentBet == 0
    requires Took(g, seat, PassOn(u, seat), g')
    requires var p := g.players[SbSeat(u)]; p.StillIn() ==> p.status.Active? && p.bet > 0
    ensures Untouched(rules, u, g'.players) && g'.currentBet == 0
    ensures var p := g'.players[SbSeat(u)]; p.StillIn() ==> p.status.Active? && p.bet > 0
  {
    hide SbSeat, BbSeat;
    assert forall i :: 0 <= i < |g.players| && i != seat ==> g'.players[i] == g.players[i];
    var i, j :| 0 <= i < j < |g.players| && g.players[i].StillIn() && g.players[j].StillIn() && i != SbSeat(u) &&
      j != SbSeat(u);
    assert g'.players[i].StillIn() && g'.players[j].StillIn();
  }

  lemma NotAlone(rules: Rules, u: Setup, ps: seq<Player>)
    requires Untouched(rules, u, ps)
    ensures forall w :: !OnlyIn(ps, w)
  {
    hide SbSeat;
  }

  /** With everybody heard the small blind's seat is out. */
  lemma SmallBlindGone(u: Setup, g: Game, heard: seq<bool>)
    requires |heard| == |g.players| && SbSeat(u) < |g.players| && g.currentBet == 0
    requires forall i: nat :: !OwesAnswer(g, heard, i)
    requires var p := g.players[SbSeat(u)]; p.StillIn() ==> p.status.Active? && p.bet > 0
    ensures !g.players[SbSeat(u)].StillIn()
  {
    hide SbSeat;
    assert !OwesAnswer(g, heard, SbSeat(u));
  }

  /** One more seat passes: the hand goes on checking, or ends with the small blind left over. */
  lemma PassStep(e: Engine, u: Setup, t: Node)
    requires Good(e, u, t) && Checking(e.rules, u, t)
    ensures var t' := Step(e, t, PassOn(u, t.phase.current));
            if t'.phase.Decision? then Checking(e.rules, u, t') else Orphaned(t')
  {
    hide Good, Step, ActHand, ActResponded, Took, Announced, OnlyIn, OwesAnswer, AsksNext, Balanced, TwoActive, SbSeat,
      BbSeat, Untouched, SumCommitted;
    GoodDecision(e, u, t);
    var seat := t.phase.current;
    var a := PassOn(u, seat);
    GoodTurn(e, u, t, a);
    StepGood(e, u, t, a);
    var t' := Step(e, t, a);
    var h, heard := ActHand(t.hand, seat, a), ActResponded(t.hand.g, t.phase.responded, seat, a);
    UntouchedSeats(e.rules, u, t.hand.g.players);
    PassKeeps(e.rules, u, t.hand.g, seat, h.g);
    UntouchedSeats(e.rules, u, h.g.players);
    NotAlone(e.rules, u, h.g.players);
    if exists i :: OwesAnswer(h.g, heard, i) {
      GoodWellFormed(e, u, t');
    } else {
      SmallBlindGone(u, h.g, heard);
      GoodWellFormed(e, u, t');
      if t'.phase.Decision? {
        ClearedUntouched(e.rules, u, h.g.players, t'.hand.g.players);
      } else {
        ShownOrphaned(e, u, h, t');
      }
    }
  }

  lemma UntouchedSeats(rules: Rules, u: Setup, ps: seq<Player>)
    requires Untouched(rules, u, ps)
    ensures |ps| == |u.stacks| && SbSeat(u) < |ps|
  {
  }

  lemma ClearedUntouched(rules: Rules, u: Setup, ps: seq<Player>, qs: seq<Player>)
    requires Untouched(rules, u, ps) && BetsCleared(ps, qs) && !ps[SbSeat(u)].StillIn()
    ensures Untouched(rules, u, qs) && !qs[SbSeat(u)].StillIn()
  {
    hide SbSeat;
    var i, j :| 0 <= i < j < |ps| && ps[i].StillIn() && ps[j].StillIn() && i != SbSeat(u) && j != SbSeat(u);
    assert qs[i].StillIn() && qs[j].StillIn();
  }

  lemma ShownOrphaned(e: Engine, u: Setup, h: Hand, t: Node)
    requires Untouched(e.rules, u, h.g.players) && !h.g.players[SbSeat(u)].StillIn()
    requires Good(e, u, t) && Shows(h, t)
    ensures Orphaned(t)
  {
    hide SbSeat, Sound, AtShowdown, Balanced, ResolveShowdown, Conceded, Top, Untouched;
    ConcededUnshown(e, u, t);
    var r :| AtShowdown(e.rules, u, r) && t == ResolveShowdown(e, r);
    AtShowdownBalanced(e.rules, u, r);
    ResolvedSame(e, r);
    BalancedLength(u.stacks, r.g);
    OrphanedSeats(e, u, h.g.players, r);
    SumSame(r.g.players, CommittedOf, t.hand.g.players, CommittedOf);
  }

  lemma OrphanedSeats(e: Engine, u: Setup, ps: seq<Player>, r: Hand)
    requires Untouched(e.rules, u, ps) && !ps[SbSeat(u)].StillIn() && Balanced(u.stacks, r.g) && |r.g.players| == |ps|
    requires forall i :: 0 <= i < |ps| ==>
               r.g.players[i].committed == ps[i].committed && r.g.players[i].status == ps[i].status
    ensures Sum(ResolveShowdown(e, r).phase.deltas, Id) == 0
    ensures SumCommitted(r.g.players) > 0
  {
    hide SbSeat, Balanced, ResolveShowdown;
    var sb := SbSeat(u);
    forall i | 0 <= i < |ps| && r.g.players[i].status != Folded ensures r.g.players[i].committed == 0 {
      NotInFoldedOrUnpaid(u, r, i);
    }
    NobodyPaid(e, r);
    SumAtLeast(r.g.players, CommittedOf, sb);
  }

  /** Passing moves no chips and settles its seat. */
  lemma PassActs(e: Engine, u: Setup, t: Node)
    requires Good(e, u, t) && Checking(e.rules, u, t)
    ensures var seat, a := t.phase.current, PassOn(u, t.phase.current);
            var h, r := ActHand(t.hand, seat, a), ActResponded(t.hand.g, t.phase.responded, seat, a);
            && |h.g.players| == |r| == |t.hand.g.players| && h.g.street == t.hand.g.street
            && Chips(h.g.players) == Chips(t.hand.g.players)
            && UnsettledCount(h.g, r) < UnsettledCount(t.hand.g, t.phase.responded)
  {
    hide Sound, UnsettledCount, SbSeat, BbSeat, ActionEvents, Registers;
    var g, seat := t.hand.g, t.phase.current;
    var b := PassOn(u, seat);
    GoodDecision(e, u, t);
    assert Normalize(g, seat, b) == b;
    SumUpdate(g.players, seat, Actor(g, seat, b), StackOf);
    ActSettles(g, t.phase.responded, seat, b);
    ActLengths(t.hand, t.phase.responded, seat, b);
    ActKeepsMinRaise(t.hand, seat, b);
  }

  lemma PassShrinks(e: Engine, u: Setup, t: Node)
    requires Good(e, u, t) && Checking(e.rules, u, t)
    ensures var t' := Step(e, t, PassOn(u, t.phase.current)); WellFormed(t') && Measure(t') < Measure(t)
  {
    hide ActHand, ActResponded, UnsettledCount, Chips, NextStreets, Collect, Good, Untouched, SbSeat;
    var seat, a := t.phase.current, PassOn(u, t.phase.current);
    StepWellFormed(e, t, a);
    PassActs(e, u, t);
    var h := ActHand(t.hand, seat, a);
    StreetsMeasure(e, Collect(h));
    CollectWeight(h);
  }

  lemma {:induction false} PassOut(e: Engine, u: Setup, t: Node, asked: seq<Asked>) returns (script: seq<Action>)
    requires Good(e, u, t) && WellFormed(t) && (if t.phase.Decision? then Checking(e.rules, u, t) else Orphaned(t))
    ensures Orphaned(Drive(e, t, script, asked).node)
    decreases Measure(t)
  {
    hide Good, Checking, Orphaned, Step, Measure;
    if t.phase.Terminal? {
      script := [];
    } else {
      var a := PassOn(u, t.phase.current);
      PassStep(e, u, t);
      PassShrinks(e, u, t);
      StepGood(e, u, t, a);
      var rest := PassOut(e, u, Step(e, t, a), asked + [Asked(t.phase.current, LegalAt(e, t))]);
      script := [a] + rest;
      assert script[1..] == rest;
    }
  }

  lemma OrphanPosts(rules: Rules, u: Setup, k: nat)
    requires rules.bigBlind == 0 && Orphans(rules, u) && k < |u.stacks|
    ensures k != SbSeat(u) ==> Posted(rules, u, k) == 0 && (LiveSeat(u, k) ==> CanAct(rules, u, k))
    ensures k == SbSeat(u) && u.stacks[k] > 0 ==> Posted(rules, u, k) > 0
    ensures k == SbSeat(u) && LiveSeat(u, k) ==> CanAct(rules, u, k)
  {
    hide SbSeat, BbSeat;
  }

  lemma OrphanSeat(rules: Rules, u: Setup, k: nat)
    requires Playable(u) && rules.bigBlind == 0 && Orphans(rules, u) && k < |u.stacks|
    ensures var p := Opened(rules, u).g.players[k];
            && (p.StillIn() <==> LiveSeat(u, k)) && (p.StillIn() ==> p.status.Active?)
            && p.committed == p.bet && (k != SbSeat(u) ==> p.committed == 0)
            && (k == SbSeat(u) && u.stacks[k] > 0 ==> p.committed > 0)
  {
    hide Opened, SbSeat, Posted, CanAct, Orphans;
    OpenedSeat(rules, u, k);
    OpenedIn(rules, u, k);
    OrphanPosts(rules, u, k);
  }

  lemma OrphanTable(rules: Rules, u: Setup)
    requires Playable(u) && rules.bigBlind == 0 && Orphans(rules, u)
    ensures Untouched(rules, u, Opened(rules, u).g.players)
    ensures var p := Opened(rules, u).g.players[SbSeat(u)]; p.StillIn() ==> p.status.Active? && p.bet > 0
    ensures !NothingPosted(rules, u) && exists i :: CanAct(rules, u, i)
  {
    var i, j :| 0 <= i < j < |u.stacks| && LiveSeat(u, i) && LiveSeat(u, j) && i != SbSeat(u) && j != SbSeat(u);
    hide Opened, SbSeat, Posted, CanAct, LiveSeat, Orphans, Playable, IsDead;
    LiveIsFunded(u, i);
    NextFundedIsFirst(u.stacks, u.dealer, i);
    OrphanPosts(rules, u, SbSeat(u));
    OrphanPosts(rules, u, i);
    forall k | 0 <= k < |u.stacks|
      ensures var p := Opened(rules, u).g.players[k];
              && (p.StillIn() <==> LiveSeat(u, k)) && (p.StillIn() ==> p.status.Active?)
              && p.committed == p.bet && (k != SbSeat(u) ==> p.committed == 0)
    {
      OrphanSeat(rules, u, k);
    }
    OrphanSeat(rules, u, SbSeat(u));
    var ps := Opened(rules, u).g.players;
    assert ps[i].StillIn() && ps[j].StillIn();
  }

  lemma LiveIsFunded(u: Setup, i: nat)
    requires LiveSeat(u, i)
    ensures i < |u.stacks| && u.stacks[i] > 0
  {
  }

  lemma OrphansCheck(e: Engine, u: Setup)
    requires Playable(u) && e.rules.bigBlind == 0 && Orphans(e.rules, u)
    ensures Checking(e.rules, u, New(e, u)) && !NothingPosted(e.rules, u)
  {
    hide Opened, Blinded, BigBlindSeat, SbSeat, BbSeat, Untouched, Posted, CanAct, Orphans, NothingPosted;
    OrphanTable(e.rules, u);
    UntouchedSeats(e.rules, u, Opened(e.rules, u).g.players);
    FirstToAct(e, u);
    OpenedRegisters(e.rules, u);
    var i :| CanAct(e.rules, u, i);
    CanActIsSeat(e.rules, u, i);
  }

  lemma CanActIsSeat(rules: Rules, u: Setup, i: nat)
    requires CanAct(rules, u, i)
    ensures !NobodyCanAct(rules, u)
  {
  }

  lemma OrphanScript(e: Engine, u: Setup) returns (script: seq<Action>)
    requires Playable(u) && e.rules.bigBlind == 0 && Orphans(e.rules, u)
    ensures Orphaned(Played(e, u, script))
  {
    hide New, Good, Checking, Orphaned, Drive, Orphans;
    NewGood(e, u);
    OrphansCheck(e, u);
    CheckingDecides(e.rules, u, New(e, u));
    script := PassOut(e, u, New(e, u), []);
  }

  lemma CheckingDecides(rules: Rules, u: Setup, t: Node)
    requires Checking(rules, u, t)
    ensures t.phase.Decision?
  {
  }

  /** For every call: however a hand is played to its end it pays out exactly what was committed if and
      only if nobody is asked at all, or two hands are live and, with a big blind of zero, the small
      blind cannot be orphaned; or nothing is posted for a big blind of zero. */
  lemma PaysOutExactly(e: Engine, u: Setup)
    requires Playable(u)
    ensures AlwaysPaysOut(e, u) <==>
            || NobodyCanAct(e.rules, u)
            || (TwoLive(u) && (e.rules.bigBlind > 0 || !Orphans(e.rules, u)))
            || (e.rules.bigBlind == 0 && NothingPosted(e.rules, u))
  {
    hide Played, TwoLive, NobodyCanAct, PaidOut, Orphans, NothingPosted;
    if e.rules.bigBlind > 0 {
      PaysOutExactlyWhen(e, u);
    } else if NobodyCanAct(e.rules, u) || (TwoLive(u) && !Orphans(e.rules, u)) ||
              (!TwoLive(u) && NothingPosted(e.rules, u))
    {
      forall script {:trigger Played(e, u, script)} | Played(e, u, script).phase.Terminal?
        ensures var t := Played(e, u, script); PaidOut(u.stacks, t.hand.g, t.phase.deltas)
      {
        if NobodyCanAct(e.rules, u) { AtOncePaysOut(e, u, script); }
        else if TwoLive(u) { FreePaysOut(e, u, script); }
        else { LonePaysOut(e, u, script); }
      }
    } else if TwoLive(u) {
      OrphansCheck(e, u);
      var script := OrphanScript(e, u);
      OrphanedUnpaid(u, Played(e, u, script));
    } else {
      LoneFoldLosesChips(e, u);
    }
  }

  lemma OrphanedUnpaid(u: Setup, t: Node)
    requires Orphaned(t)
    ensures t.phase.Terminal? && !PaidOut(u.stacks, t.hand.g, t.phase.deltas)
  {
  }
}
