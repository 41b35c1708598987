/** The street bets a client shows against the engine's: after the flop they agree exactly until
    somebody goes all-in on the street. */
module StreetBets {
  import opened Types
  import opened Protocol
  import opened Sums
  import opened PotCalc
  import opened Betting
  import opened Tree
  import opened EngineRun
  import opened Ledger
  import opened Order
  import opened Story
  import opened Invariants
  import opened Theorems
  import opened Rulebook
  import opened Links
  import opened Sinks
  import opened Clients
  import opened ClientRuns
  import opened Views
  import opened Mirror

  // ---------------------------------------------------------------------------
  // The client's bets as a reading of the stream
  // ---------------------------------------------------------------------------

  function BetsOne(bets: seq<(nat, nat)>, e: Event): seq<(nat, nat)> {
    match e
    case HandStarted(_, _, _) => []
    case BoardDealt(_, _) => []
    case ActionTaken(seat, a, _) => BetAfter(bets, seat, a)
    case PlayerAllIn(seat, total) => UpdateBet(bets, seat, total)
    case _ => bets
  }

  /** The bets a client shows that has heard the stream. */
  function BetsIn(log: seq<Event>): seq<(nat, nat)> {
    if log == [] then [] else BetsOne(BetsIn(log[..|log| - 1]), log[|log| - 1])
  }

  lemma BetsOn(log: seq<Event>, e: Event)
    ensures BetsIn(log + [e]) == BetsOne(BetsIn(log), e)
  {
    assert (log + [e])[..|log|] == log;
  }

  /** Nobody has gone all-in since the last board cards. */
  predicate Quiet(log: seq<Event>) {
    log == [] ||
    (var e := log[|log| - 1]; e.BoardDealt? || (!e.PlayerAllIn? && Quiet(log[..|log| - 1])))
  }

  lemma QuietOn(log: seq<Event>, e: Event)
    ensures Quiet(log + [e]) == (e.BoardDealt? || (!e.PlayerAllIn? && Quiet(log)))
  {
    assert (log + [e])[..|log|] == log;
  }

  // ---------------------------------------------------------------------------
  // Against the engine
  // ---------------------------------------------------------------------------

  /** Every seat is shown with its street bet. */
  ghost predicate ShowsBets(bets: seq<(nat, nat)>, ps: seq<Player>) {
    forall s: nat :: ShownBet(bets, s) == if s < |ps| then ps[s].bet else 0
  }

  /** The bet to call is the highest bet. */
  ghost predicate TopBet(g: Game) {
    && (forall i :: 0 <= i < |g.players| ==> g.players[i].bet <= g.currentBet)
    && (g.currentBet == 0 || exists i :: 0 <= i < |g.players| && g.players[i].bet == g.currentBet)
  }

  /** A seat that is all-in and shown with more than its street bet. */
  ghost predicate Overshown(bets: seq<(nat, nat)>, ps: seq<Player>) {
    exists s :: 0 <= s < |ps| && ps[s].status.AllIn? && ShownBet(bets, s) > ps[s].bet
  }

  /** Seats that can bet paid something on earlier streets. */
  ghost predicate PaidBefore(ps: seq<Player>) {
    forall i :: 0 <= i < |ps| && ps[i].status.Active? ==> ps[i].committed > ps[i].bet
  }

  ghost predicate BetsOk(bets: seq<(nat, nat)>, quiet: bool, g: Game) {
    && OnePerSeat(bets) && TopBet(g) && PaidBefore(g.players)
    && if quiet then ShowsBets(bets, g.players) else Overshown(bets, g.players)
  }

  ghost predicate NodeBetsOk(t: Node) {
    t.phase.Decision? && t.hand.g.street != Preflop ==> BetsOk(BetsIn(t.hand.log), Quiet(t.hand.log), t.hand.g)
  }

  /** A street opens with nothing bet and nothing shown. */
  lemma OpenedBetsOk(e: Engine, u: Setup, h: Hand, t: Node)
    requires Good(e, u, t) && e.rules.bigBlind > 0 && OpensStreet(e.rules, h, t)
    ensures NodeBetsOk(t)
  {
    hide Table, Told, Seen, Level, Bounded, Capped, AsksNext;
    var g := t.hand.g;
    var cards := g.board[|h.g.board|..];
    BetsOn(h.log, BoardDealt(g.street, cards));
    QuietOn(h.log, BoardDealt(g.street, cards));
    assert forall i :: 0 <= i < |g.players| ==> g.players[i].bet == 0;
  }

  /** An action that leaves chips behind is shown for what it is. */
  lemma QuietAction(g: Game, seat: nat, a: Action, g': Game, bets: seq<(nat, nat)>, shown: Action)
    requires seat < |g.players| && BetsOk(bets, true, g) && Took(g, seat, a, g') && !g'.players[seat].status.AllIn?
    requires g.players[seat].status.Active? && g.minRaise > 0
    requires a.Check? ==> g.currentBet <= g.players[seat].bet
    requires a.Raise? ==> g.currentBet + g.minRaise <= a.amount
    requires shown == a
    ensures BetsOk(BetAfter(bets, seat, shown), true, g')
  {
    hide BetAfter, ShownBet, OnePerSeat;
    var bets' := BetAfter(bets, seat, a);
    var q := g'.players[seat];
    forall s: nat ensures OnePerSeat(bets') && ShownBet(bets', s) == if s < |g'.players| then g'.players[s].bet else 0 {
      if g.currentBet > 0 {
        var i :| 0 <= i < |g.players| && g.players[i].bet == g.currentBet;
        assert ShownBet(bets, i) == g.currentBet;
      }
      BetsShown(bets, seat, a, s, g.currentBet);
    }
    assert OnePerSeat(bets') by { BetsShown(bets, seat, a, 0, g.currentBet); }
    assert forall i :: 0 <= i < |g.players| && i != seat ==> g'.players[i] == g.players[i];
    if g'.currentBet == q.bet { assert g'.players[seat].bet == g'.currentBet; }
  }

  /** What the shipped agents may submit, in chips. */
  ghost predicate Proper(g: Game, seat: nat, a: Action)
    requires seat < |g.players|
  {
    && g.players[seat].status.Active? && g.players[seat].stack > 0 && g.minRaise > 0
    && (a.Check? ==> g.currentBet <= g.players[seat].bet)
    && (a.Raise? ==> g.currentBet + g.minRaise <= a.amount)
  }

  lemma AllowedIsProper(rules: Rules, g: Game, seat: nat, canReopen: bool, a: Action)
    requires seat < |g.players| && g.players[seat].status.Active? && g.players[seat].stack > 0 && g.minRaise > 0
    requires ComputeLegal(rules, g, seat, canReopen).Allows(a)
    ensures Proper(g, seat, a)
  {
  }

  lemma TopBetKept(g: Game, seat: nat, a: Action, g': Game)
    requires seat < |g.players| && TopBet(g) && PaidBefore(g.players) && Proper(g, seat, a) && Took(g, seat, a, g')
    ensures TopBet(g') && PaidBefore(g'.players)
  {
    var q := g'.players[seat];
    assert forall i :: 0 <= i < |g.players| && i != seat ==> g'.players[i] == g.players[i];
    assert g'.players[seat].bet == q.bet;
    if g.currentBet > 0 {
      var i :| 0 <= i < |g.players| && g.players[i].bet == g.currentBet;
      assert g'.players[i].bet >= g.currentBet;
    }
  }

  /** The bets shown after what is announced of an action. */
  function BetsAnnounced(bets: seq<(nat, nat)>, seat: nat, shoved: Option<nat>, shown: Action): seq<(nat, nat)> {
    BetAfter(if shoved.Some? then UpdateBet(bets, seat, shoved.value) else bets, seat, shown)
  }

  lemma OthersShown(bets: seq<(nat, nat)>, seat: nat, shown: Action, s: nat)
    requires OnePerSeat(bets)
    ensures OnePerSeat(BetAfter(bets, seat, shown))
    ensures s != seat ==> ShownBet(BetAfter(bets, seat, shown), s) == ShownBet(bets, s)
    ensures s == seat && (shown.AllIn? || shown.Call?) ==>
              ShownBet(BetAfter(bets, seat, shown), s) >= ShownBet(bets, s)
  {
    hide BetAt, UpdateBet;
    UpdateShows(bets, seat, MaxBet(bets), s);
    if shown.Raise? { UpdateShows(bets, seat, shown.amount, s); }
  }

  /** An all-in is shown with everything its seat put in during the hand. */
  lemma ShoveOvershown(g: Game, seat: nat, a: Action, g': Game, bets: seq<(nat, nat)>, shown: Action)
    requires seat < |g.players| && OnePerSeat(bets) && PaidBefore(g.players)
    requires Proper(g, seat, a) && Took(g, seat, a, g')
    requires g'.players[seat].status.AllIn? && (shown.AllIn? || shown.Call?)
    ensures var r := BetsAnnounced(bets, seat, Some(g'.players[seat].committed), shown);
            OnePerSeat(r) && Overshown(r, g'.players)
  {
    hide UpdateBet, BetAfter, ShownBet, OnePerSeat;
    var q := g'.players[seat];
    UpdateShows(bets, seat, q.committed, seat);
    OthersShown(UpdateBet(bets, seat, q.committed), seat, shown, seat);
    assert q.committed > q.bet;
    assert g'.players[seat] == q;
  }

  /** Once a seat is shown with too much it stays so for the rest of the street. */
  lemma StaysOvershown(g: Game, seat: nat, a: Action, g': Game, bets: seq<(nat, nat)>, shoved: Option<nat>,
      shown: Action)
    requires seat < |g.players| && OnePerSeat(bets) && Overshown(bets, g.players) && Proper(g, seat, a)
    requires Took(g, seat, a, g')
    ensures var r := BetsAnnounced(bets, seat, shoved, shown); OnePerSeat(r) && Overshown(r, g'.players)
  {
    hide UpdateBet, BetAfter, ShownBet, OnePerSeat;
    var s :| 0 <= s < |g.players| && g.players[s].status.AllIn? && ShownBet(bets, s) > g.players[s].bet;
    assert s != seat && g'.players[s] == g.players[s];
    if shoved.Some? { UpdateShows(bets, seat, shoved.value, s); }
    OthersShown(if shoved.Some? then UpdateBet(bets, seat, shoved.value) else bets, seat, shown, s);
  }

  function Understood(g: Game, seat: nat, a: Action): Action
    requires seat < |g.players|
  {
    if a.Raise? && a.amount >= g.players[seat].bet + g.players[seat].stack then Action.AllIn else a
  }

  lemma AnnouncedBets(log: seq<Event>, g: Game, seat: nat, a: Action, g': Game)
    requires seat < |g.players| && |g'.players| == |g.players| && Proper(g, seat, a)
    ensures var q := g'.players[seat]; var all := log + Announced(g, seat, a, g');
            && BetsIn(all) == BetsAnnounced(BetsIn(log), seat, if q.status.AllIn? then Some(q.committed) else None,
                                            Understood(g, seat, a))
            && Quiet(all) == (Quiet(log) && !q.status.AllIn?)
  {
    hide BetAfter, UpdateBet, BetsIn, Quiet;
    var q := g'.players[seat];
    var last := ActionTaken(seat, Understood(g, seat, a), g.pot + SumBets(g'.players));
    if q.status.AllIn? {
      var first := PlayerAllIn(seat, q.committed);
      BetsOn(log, first);
      QuietOn(log, first);
      BetsOn(log + [first], last);
      QuietOn(log + [first], last);
      assert log + Announced(g, seat, a, g') == log + [first] + [last];
    } else {
      BetsOn(log, last);
      QuietOn(log, last);
      assert log + Announced(g, seat, a, g') == log + [last];
    }
  }

  lemma ActionBetsOk(log: seq<Event>, g: Game, seat: nat, a: Action, g': Game)
    requires seat < |g.players| && BetsOk(BetsIn(log), Quiet(log), g) && Proper(g, seat, a) && Took(g, seat, a, g')
    ensures var all := log + Announced(g, seat, a, g'); BetsOk(BetsIn(all), Quiet(all), g')
  {
    hide BetsIn, Quiet, Announced, TopBet, PaidBefore, ShowsBets, Overshown, OnePerSeat, BetAfter;
    TopBetKept(g, seat, a, g');
    AnnouncedBets(log, g, seat, a, g');
    var q := g'.players[seat];
    if !Quiet(log) {
      StaysOvershown(g, seat, a, g', BetsIn(log), if q.status.AllIn? then Some(q.committed) else None,
                     Understood(g, seat, a));
    } else if q.status.AllIn? {
      ShoveOvershown(g, seat, a, g', BetsIn(log), Understood(g, seat, a));
    } else {
      QuietAction(g, seat, a, g', BetsIn(log), a);
    }
  }

  // ---------------------------------------------------------------------------
  // Every decision
  // ---------------------------------------------------------------------------

  lemma StepBetsOk(e: Engine, u: Setup, t: Node, a: Action)
    requires Good(e, u, t) && t.phase.Decision? && e.rules.bigBlind > 0 && LegalAt(e, t).Allows(a) && NodeBetsOk(t)
    ensures NodeBetsOk(Step(e, t, a))
  {
    hide Good, BetsOk, ActHand, ActResponded, TurnByRules, OpensStreet, Step, ComputeLegal, Took, Announced, BetsIn,
      Quiet;
    GoodWellFormed(e, u, t);
    var t', seat := Step(e, t, a), t.phase.current;
    if t'.phase.Decision? {
      var h, heard := ActHand(t.hand, seat, a), ActResponded(t.hand.g, t.phase.responded, seat, a);
      GoodDecision(e, u, t);
      GoodTurn(e, u, t, a);
      StepGood(e, u, t, a);
      TurnSaid(e.rules, t, a, h, heard, t');
      GoesOnOrOpens(e.rules, t, a, h, heard, t');
      AllowedIsProper(e.rules, t.hand.g, seat, !t.phase.responded[seat], a);
      if t'.hand == h {
        SameStreet(t.hand.g, seat, a, h.g);
        if t.hand.g.street != Preflop { ActionBetsOk(t.hand.log, t.hand.g, seat, a, h.g); }
      } else {
        OpenedBetsOk(e, u, h, t');
      }
    }
  }

  lemma TurnSaid(rules: Rules, t: Node, a: Action, h: Hand, heard: seq<bool>, t': Node)
    requires WellFormed(t) && t.phase.Decision? && TurnByRules(rules, t, a, h, heard, t')
    ensures Took(t.hand.g, t.phase.current, a, h.g) && |h.g.players| == |t.hand.g.players|
    ensures h.log == t.hand.log + Announced(t.hand.g, t.phase.current, a, h.g)
  {
  }

  lemma SameStreet(g: Game, seat: nat, a: Action, g': Game)
    requires seat < |g.players| && Took(g, seat, a, g')
    ensures g'.street == g.street
  {
  }

  lemma {:induction false} DriveBetsOk(e: Engine, u: Setup, t: Node, script: seq<Action>, asked: seq<Asked>)
    requires Good(e, u, t) && WellFormed(t) && e.rules.bigBlind > 0 && NodeBetsOk(t) && AllowedRun(e, t, script)
    ensures NodeBetsOk(Drive(e, t, script, asked).node)
    decreases |script|
  {
    hide Good, Step, NodeBetsOk;
    if t.phase.Decision? && script != [] {
      StepBetsOk(e, u, t, script[0]);
      StepGood(e, u, t, script[0]);
      StepWellFormed(e, t, script[0]);
      DriveBetsOk(e, u, Step(e, t, script[0]), script[1..], asked + [Asked(t.phase.current, LegalAt(e, t))]);
    }
  }

  lemma NewBetsOk(e: Engine, u: Setup)
    requires Playable(u)
    ensures NodeBetsOk(New(e, u))
  {
    hide Opened, BigBlindSeat, Blinded;
    OpenedPreflop(e.rules, u);
  }

  /** At every decision of allowed play after the flop: the bets in the stream are the street bets
      of the engine exactly as long as nobody has gone all-in on the street. */
  lemma ShownExactly(e: Engine, u: Setup, script: seq<Action>)
    requires Playable(u) && e.rules.bigBlind > 0 && AllowedRun(e, New(e, u), script)
    requires Played(e, u, script).phase.Decision? && Played(e, u, script).hand.g.street != Preflop
    ensures var h := Played(e, u, script).hand; ShowsBets(BetsIn(h.log), h.g.players) <==> Quiet(h.log)
  {
    hide New, Good, AllowedRun, BetsIn, Quiet;
    NewGood(e, u);
    NewBetsOk(e, u);
    DriveBetsOk(e, u, New(e, u), script, []);
  }

  // ---------------------------------------------------------------------------
  // Every client
  // ---------------------------------------------------------------------------

  ghost predicate HasBets(c: Core, p: Clients.Phase, log: seq<Event>) {
    c.view.phase == p && p.Seated? && c.view.hand.Some? && c.view.hand.value.bets == BetsIn(log)
  }

  lemma EventHasBets(c: Core, p: Clients.Phase, log: seq<Event>, m: ServerMessage)
    requires m.TableEvent? && p.Seated? && m.table == p.table && !m.event.HandEnded?
    requires if m.event.HandStarted? then c.view.phase == p else HasBets(c, p, log)
    ensures HasBets(OnPlain(c, m).core, p, log + [m.event])
  {
    hide UpdateBet, BetAfter, AddSeat;
    BetsOn(log, m.event);
  }

  lemma PromptHasBets(c: Core, p: Clients.Phase, log: seq<Event>, m: ServerMessage)
    requires HasBets(c, p, log) && m.Prompt?
    ensures HasBets(OnPlain(c, m).core, p, log)
  {
  }

  lemma HiddenBets(log: seq<Event>, e: Event)
    requires e.HoleCardsDealt?
    ensures BetsIn(log + [e]) == BetsIn(log)
  {
    BetsOn(log, e);
  }

  /** The client that hears the buffer shows the bets of the stream. */
  lemma {:induction false} StreamHasBets(p: Clients.Phase, table: nat, i: nat, l: Link, moves: seq<LinkMove>)
    requires Course(table, i, l, moves) && Plausible(l) && p.Seated? && p.table == table
    requires Projection(moves) != []
    ensures HasBets(Reference(p, Projection(moves)), p, LogOf(moves))
  {
    hide HasBets, Reference, Touch, SightOf;
    var n := |moves| - 1;
    if n == 0 { NothingShown(moves); }
    CourseLast(table, i, l, moves);
    var before, m := moves[..n], moves[n];
    BufferIsProjection(table, i, l, before);
    if m.Push? {
      ReferenceOn(p, Projection(before), m.message);
      if m.message.event.HandStarted? {
        assert Projection(before) == [];
        NothingLogged(table, i, l, before);
        FreshSeat(p);
        EventHasBets(Reference(p, []), p, [], m.message);
      } else {
        StreamHasBets(p, table, i, l, before);
        EventHasBets(Reference(p, Projection(before)), p, LogOf(before), m.message);
      }
    } else if m.AskPush? {
      assert LogOf(moves) == LogOf(before);
      FollowStreams(table, i, l, before);
      StreamHasBets(p, table, i, l, before);
      PromptHasBets(Reference(p, Projection(before)), p, LogOf(before), m.message);
      ReferenceOn(p, Projection(before), m.message);
    } else {
      assert Projection(moves) == Projection(before);
      StreamHasBets(p, table, i, l, before);
      if m.Unseen? {
        HiddenBets(LogOf(before), m.event);
        SameBets(Reference(p, Projection(before)), p, LogOf(before), LogOf(before) + [m.event]);
        assert LogOf(moves) == LogOf(before) + [m.event];
      } else {
        assert LogOf(moves) == LogOf(before);
      }
    }
  }

  lemma SameBets(c: Core, p: Clients.Phase, a: seq<Event>, b: seq<Event>)
    requires HasBets(c, p, a) && BetsIn(a) == BetsIn(b)
    ensures HasBets(c, p, b)
  {
  }

  lemma FreshSeat(p: Clients.Phase)
    ensures Reference(p, []).view.phase == p
  {
    PlayNothing(SeatedCore(p));
  }

  lemma HasBetsLike(a: Core, b: Core, p: Clients.Phase, log: seq<Event>)
    requires Like(a, b) && HasBets(b, p, log)
    ensures HasBets(a, p, log)
  {
  }

  lemma UpToDateBets(table: nat, i: nat, l: Link, moves: seq<LinkMove>, c: Core)
    requires Course(table, i, l, moves) && Plausible(l) && LogOf(moves) != []
    requires Knows(SightOf(l, moves), c, table, Follow(l, moves)) && UpToDate(SightOf(l, moves), Follow(l, moves))
    ensures HasBets(c, c.view.phase, LogOf(moves))
  {
    hide HasBets, Reference, Course, SightOf, Follow, Like, Projection, LogOf;
    var r, p := Follow(l, moves), c.view.phase;
    BufferIsProjection(table, i, l, moves);
    FollowStreams(table, i, l, moves);
    StreamHasBets(p, table, i, l, moves);
    if SightOf(l, moves).Clear? && r.flight.Some? {
      var m := r.flight.value.message;
      ReferenceOn(p, r.replay.events, m);
      PromptHasBets(Reference(p, r.replay.events), p, LogOf(moves), m);
      HasBetsLike(c, Reference(p, Due(r)), p, LogOf(moves));
    } else {
      HasBetsLike(c, Reference(p, r.replay.events), p, LogOf(moves));
    }
  }

  /** Whenever a client has been told every event of a hand at a decision after the flop, by whatever
      mix of live events, prompts, reconnects and replays: the street bets it shows are the engine's
      exactly if nobody has gone all-in on the street. */
  lemma ClientShowsBets(e: Engine, u: Setup, script: seq<Action>, table: nat, i: nat, l: Link, moves: seq<LinkMove>,
      d: Core, xs: seq<Input>)
    requires Playable(u) && e.rules.bigBlind > 0 && AllowedRun(e, New(e, u), script)
    requires Played(e, u, script).phase.Decision? && Played(e, u, script).hand.g.street != Preflop
    requires LogOf(moves) == Played(e, u, script).hand.log
    requires Course(table, i, l, moves) && Plausible(l) && Lives(d, xs, Follow(l, moves), table)
    requires UpToDate(SightOf(l, moves), Follow(l, moves))
    ensures var h := Played(e, u, script).hand; var c := Play(d, xs).core;
            && AtTable(c, table) && c.view.hand.Some?
            && (ShowsBets(c.view.hand.value.bets, h.g.players) <==> Quiet(h.log))
  {
    hide Played, Play, Follow, Course, SightOf, Like, LogOf, Hears, Knows, UpToDate, Due, BetsIn, Quiet, ShowsBets,
      AllowedRun;
    var r := Follow(l, moves);
    var d0 := LivesLike(d, xs, r, table);
    SightTells(table, i, l, moves, d0);
    KnowsSeated(SightOf(l, moves), Hears(d0, r), table, r);
    PlayedIdentity(e, u, script);
    UpToDateBets(table, i, l, moves, Hears(d0, r));
    var c := Play(d, xs).core;
    LikeSeated(c, Hears(d0, r));
    HasBetsLike(c, Hears(d0, r), c.view.phase, LogOf(moves));
    ShownExactly(e, u, script);
  }
}
