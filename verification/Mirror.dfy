/** The client's view against the engine's hand: when it shows the same, and exactly when a
    replay makes it show something else. */
module Mirror {
  import opened Types
  import opened Protocol
  import opened PotCalc
  import opened Tree
  import opened Story
  import opened Invariants
  import opened Theorems
  import opened Links
  import opened Sinks
  import opened Clients
  import opened ClientRuns
  import opened Views

  // ---------------------------------------------------------------------------
  // What a stream has said
  // ---------------------------------------------------------------------------

  function StreetOf(log: seq<Event>): Street {
    match Read(log)
    case Some(Playing(street, _)) => street
    case _ => Preflop
  }

  function PotOf(log: seq<Event>): nat {
    match Read(log)
    case Some(Playing(_, pot)) => pot
    case _ => 0
  }

  /** The client's hand shows what the stream has said so far. */
  ghost predicate Mirrors(c: Core, at: Clients.Phase, i: nat, log: seq<Event>) {
    && c.view.phase == at && at.Seated? && c.view.hand.Some?
    && var h := c.view.hand.value;
       && h.board == BoardIn(log) && (at.seat == i ==> h.hole == HoleIn(log, i))
       && (forall seat :: seat in h.folded <==> seat in FoldedIn(log))
       && (forall seat :: seat in h.allIn <==> seat in AllInIn(log))
       && h.street == StreetOf(log) && h.pot == PotOf(log)
  }

  predicate Running(log: seq<Event>) { Read(log).Some? && Read(log) != Some(Over) }

  /** One event the seat is sent. */
  lemma ProjectMirrors(c: Core, at: Clients.Phase, i: nat, log: seq<Event>, e: Event)
    requires Mirrors(c, at, i, log) && !e.HandStarted? && !e.HandEnded? && Running(log + [e])
    ensures Mirrors(Project(c, e), at, i, log + [e])
  {
    hide UpdateBet, BetAfter, Read, FoldedIn, BoardIn, HoleIn, AllInIn;
    ReadOn(log, e);
    SeenOn(log, e);
  }

  /** Another seat's hole cards, which are not sent. */
  lemma HiddenMirrors(c: Core, at: Clients.Phase, i: nat, log: seq<Event>, e: Event)
    requires Mirrors(c, at, i, log) && e.HoleCardsDealt? && e.seat != i && Running(log + [e])
    ensures Mirrors(c, at, i, log + [e])
  {
    hide Read, FoldedIn, BoardIn, HoleIn, AllInIn;
    ReadOn(log, e);
    SeenOn(log, e);
  }

  lemma StartMirrors(c: Core, at: Clients.Phase, i: nat, e: Event)
    requires c.view.phase == at && at.Seated? && e.HandStarted?
    ensures Mirrors(Project(c, e), at, i, [e])
  {
    ReadOn([], e);
    SeenOn([], e);
    assert [] + [e] == [e];
  }

  lemma PromptMirrors(c: Core, at: Clients.Phase, i: nat, log: seq<Event>, m: ServerMessage)
    requires Mirrors(c, at, i, log) && m.Prompt?
    ensures Mirrors(OnPlain(c, m).core, at, i, log)
  {
    hide Read, FoldedIn, BoardIn, HoleIn, AllInIn;
  }

  lemma MirrorsSeated(c: Core, at: Clients.Phase, i: nat, log: seq<Event>)
    requires Mirrors(c, at, i, log)
    ensures c.view.phase == at && at.Seated?
  {
  }

  /** The prompt fields of the view do not matter. */
  lemma MirrorsLike(a: Core, b: Core, at: Clients.Phase, i: nat, log: seq<Event>)
    requires Like(a, b) && Mirrors(b, at, i, log)
    ensures Mirrors(a, at, i, log)
  {
    hide Read, FoldedIn, BoardIn, HoleIn, AllInIn;
  }

  lemma RunningBefore(log: seq<Event>, e: Event)
    requires Running(log + [e])
    ensures Running(log)
  {
    ReadOn(log, e);
  }

  // ---------------------------------------------------------------------------
  // The whole stream
  // ---------------------------------------------------------------------------

  /** A hand's moves, as seen by the client that hears the buffer. */
  lemma {:induction false} StreamMirrors(p: Clients.Phase, table: nat, i: nat, l: Link, moves: seq<LinkMove>)
    requires Course(table, i, l, moves) && Plausible(l) && p.Seated? && p.table == table
    requires Running(LogOf(moves)) && Projection(moves) != []
    ensures Mirrors(Reference(p, Projection(moves)), p, i, LogOf(moves))
  {
    hide Mirrors, Running, Reference, Touch, SightOf;
    var n := |moves| - 1;
    if n == 0 {
      NothingShown(moves);
    }
    CourseLast(table, i, l, moves);
    var before, m := moves[..n], moves[n];
    BufferIsProjection(table, i, l, before);
    if m.Push? {
      var message := m.message;
      var e := message.event;
      if e.HandStarted? {
        assert Projection(before) == [];
        NothingLogged(table, i, l, before);
        StreamStarts(p, i, message);
        assert Projection(moves) == [message] && LogOf(moves) == [e];
      } else {
        RunningBefore(LogOf(before), e);
        StreamMirrors(p, table, i, l, before);
        ShownMirrors(Reference(p, Projection(before)), p, i, LogOf(before), message);
        ReferenceOn(p, Projection(before), message);
      }
    } else if m.Unseen? {
      var e := m.event;
      assert Projection(moves) == Projection(before);
      RunningBefore(LogOf(before), e);
      StreamMirrors(p, table, i, l, before);
      HiddenMirrors(Reference(p, Projection(before)), p, i, LogOf(before), e);
    } else if m.AskPush? {
      var message := m.message;
      assert LogOf(moves) == LogOf(before);
      FollowStreams(table, i, l, before);
      StreamMirrors(p, table, i, l, before);
      PromptMirrors(Reference(p, Projection(before)), p, i, LogOf(before), message);
      ReferenceOn(p, Projection(before), message);
    } else {
      assert Projection(moves) == Projection(before) && LogOf(moves) == LogOf(before);
      StreamMirrors(p, table, i, l, before);
    }
  }

  lemma NothingShown(moves: seq<LinkMove>)
    requires |moves| == 1 && moves[0].Begin?
    ensures Projection(moves) == []
  {
    assert moves[..0] == [];
  }

  /** Before the first push nothing was logged either. */
  lemma {:induction false} NothingLogged(table: nat, i: nat, l: Link, moves: seq<LinkMove>)
    requires Course(table, i, l, moves) && Projection(moves) == []
    ensures LogOf(moves) == []
  {
    var n := |moves| - 1;
    if n == 0 {
      assert moves[..0] == [];
    } else {
      CourseLast(table, i, l, moves);
      BufferIsProjection(table, i, l, moves[..n]);
      NothingLogged(table, i, l, moves[..n]);
    }
  }

  lemma StreamStarts(p: Clients.Phase, i: nat, m: ServerMessage)
    requires p.Seated? && m.TableEvent? && m.table == p.table && m.event.HandStarted?
    ensures Mirrors(Reference(p, [m]), p, i, [m.event])
  {
    hide Mirrors, Project;
    ReferenceOn(p, [], m);
    assert [] + [m] == [m];
    PlayNothing(SeatedCore(p));
    StartMirrors(SeatedCore(p), p, i, m.event);
  }

  lemma ShownMirrors(c: Core, p: Clients.Phase, i: nat, log: seq<Event>, m: ServerMessage)
    requires Mirrors(c, p, i, log) && m.TableEvent? && m.table == p.table
    requires !m.event.HandStarted? && !m.event.HandEnded? && Running(log + [m.event])
    ensures Mirrors(OnPlain(c, m).core, p, i, log + [m.event])
  {
    hide Mirrors, Project, Running;
    MirrorsSeated(c, p, i, log);
    ProjectMirrors(c, p, i, log, m.event);
  }

  // ---------------------------------------------------------------------------
  // The client shows the engine's hand
  // ---------------------------------------------------------------------------

  /** The client has been told all the events there are: it is in the clear and none is on its
      way, or it is ahead of the one that is. */
  predicate UpToDate(sight: Sight, l: Link) {
    (sight.Clear? && (l.flight.None? || l.flight.value.Prompted?)) || sight.Ahead?
  }

  lemma UpToDateMirrors(table: nat, i: nat, l: Link, moves: seq<LinkMove>, c: Core)
    requires Course(table, i, l, moves) && Plausible(l) && Running(LogOf(moves))
    requires Knows(SightOf(l, moves), c, table, Follow(l, moves)) && UpToDate(SightOf(l, moves), Follow(l, moves))
    ensures Mirrors(c, c.view.phase, i, LogOf(moves))
  {
    hide Mirrors, Running, Reference, Course, SightOf, Follow, Like, Projection, LogOf;
    var r, p := Follow(l, moves), c.view.phase;
    BufferIsProjection(table, i, l, moves);
    FollowStreams(table, i, l, moves);
    StreamMirrors(p, table, i, l, moves);
    if SightOf(l, moves).Clear? && r.flight.Some? {
      var m := r.flight.value.message;
      ReferenceOn(p, r.replay.events, m);
      PromptMirrors(Reference(p, r.replay.events), p, i, LogOf(moves), m);
      MirrorsLike(c, Reference(p, Due(r)), p, i, LogOf(moves));
    } else {
      MirrorsLike(c, Reference(p, r.replay.events), p, i, LogOf(moves));
    }
  }

  /** What the client of a seat shows is what the engine has, whenever its connection has been
      told every event: through prompts, table news, reconnects and replays between any two
      steps, the board, the folded and all-in seats and its own hole cards, and at a decision
      the street and, once somebody has acted, the pot. */
  lemma ClientMirrorsEngine(e: Engine, u: Setup, script: seq<Action>, table: nat, i: nat, l: Link,
      moves: seq<LinkMove>, d: Core, xs: seq<Input>)
    requires ServerHand(u) && Playable(u) && LogOf(moves) == Played(e, u, script).hand.log
    requires Course(table, i, l, moves) && Plausible(l) && Lives(d, xs, Follow(l, moves), table)
    requires UpToDate(SightOf(l, moves), Follow(l, moves))
    ensures var t := Played(e, u, script); var c := Play(d, xs).core;
            && AtTable(c, table) && c.view.hand.Some? && |t.hand.g.players| == |u.stacks|
            && ShowsHand(c.view.hand.value, c.view.phase.seat, i, t)
  {
    hide Played, Play, Read, Good, SumCommitted, Follow, Course, SightOf, Like, LogOf, Hears, Knows, UpToDate, Due;
    PlayedGood(e, u, script);
    var t := Played(e, u, script);
    GoodRecord(e, u, t);
    StreamShape(e, u, script, HandResult(0, [], []));
    var r := Follow(l, moves);
    var d0 := LivesLike(d, xs, r, table);
    SightTells(table, i, l, moves, d0);
    KnowsSeated(SightOf(l, moves), Hears(d0, r), table, r);
    UpToDateMirrors(table, i, l, moves, Hears(d0, r));
    var c := Play(d, xs).core;
    LikeSeated(c, Hears(d0, r));
    MirrorsLike(c, Hears(d0, r), c.view.phase, i, t.hand.log);
  }

  lemma LikeSeated(a: Core, b: Core)
    requires Like(a, b)
    ensures a.view.phase == b.view.phase
  {
  }

  /** The fields of the view that show the hand, against the engine's state. */
  ghost predicate ShowsHand(h: CurrentHand, seat: nat, i: nat, t: Node) {
    && h.board == t.hand.g.board
    && (seat == i < |t.hand.g.players| ==> h.hole == t.hand.g.players[i].hole)
    && (forall s :: 0 <= s < |t.hand.g.players| ==>
          && (s in h.folded <==> t.hand.g.players[s].status.Folded?)
          && (s in h.allIn <==> t.hand.g.players[s].status.AllIn?))
    && (t.phase.Decision? ==>
          h.street == t.hand.g.street &&
          (h.pot == SumCommitted(t.hand.g.players) || Read(t.hand.log) == Some(Dealing)))
  }

  // ---------------------------------------------------------------------------
  // An event told twice
  // ---------------------------------------------------------------------------

  /** A client ahead of an event is then sent it: it still shows the hand exactly if the event
      was not board cards. */
  lemma DoubledExactly(table: nat, i: nat, l: Link, moves: seq<LinkMove>, d: Core, m: ServerMessage)
    requires Course(table, i, l, moves + [LinkMove.Deliver(m)]) && Plausible(l) && AtTable(d, table)
    requires |moves| > 0 && SightOf(l, moves).Ahead? && Running(LogOf(moves))
    ensures var c := Hears(d, Follow(l, moves + [LinkMove.Deliver(m)]));
            Mirrors(c, c.view.phase, i, LogOf(moves)) <==> !Repeats(m)
  {
    hide Mirrors, Running, Reference, SightOf, Follow, Like, LogOf, Projection, Hears, Knows, Touch, Fits;
    var all := moves + [LinkMove.Deliver(m)];
    CourseLast(table, i, l, all);
    assert all[..|moves|] == moves && all[|moves|] == LinkMove.Deliver(m);
    var r := Follow(l, moves);
    SightTells(table, i, l, moves, d);
    FollowStreams(table, i, l, moves);
    KnowsSeated(SightOf(l, moves), Hears(d, r), table, r);
    FitsDeliver(table, i, r, m);
    UpToDateMirrors(table, i, l, moves, Hears(d, r));
    HearsDelivered(d, r, m);
    if Repeats(m) {
      BoardTwice(Hears(d, r), i, LogOf(moves), m);
    } else {
      SightTells(table, i, l, all, d);
      AheadClears(table, i, l, moves, m);
      LogUnchanged(moves, LinkMove.Deliver(m));
      UpToDateMirrors(table, i, l, all, Hears(d, Follow(l, all)));
    }
  }

  lemma FitsDeliver(table: nat, i: nat, l: Link, m: ServerMessage)
    requires Fits(table, i, l, LinkMove.Deliver(m)) && Streams(table, l)
    ensures l.flight == Some(Pushed(m)) && m.TableEvent? && m.table == table
    ensures Touch(l, LinkMove.Deliver(m)).flight.None?
  {
  }

  lemma HearsDelivered(d: Core, l: Link, m: ServerMessage)
    requires !m.ReplayEvents?
    ensures Hears(d, Touch(l, LinkMove.Deliver(m))) == OnPlain(Hears(d, l), m).core
  {
    hide OnPlain;
    HearsMore(d, l, Touch(l, LinkMove.Deliver(m)), m);
  }

  lemma BoardTwice(c: Core, i: nat, log: seq<Event>, m: ServerMessage)
    requires Mirrors(c, c.view.phase, i, log) && Repeats(m) && m.table == c.view.phase.table
    ensures var r := OnPlain(c, m).core; !Mirrors(r, r.view.phase, i, log)
  {
    hide Read, FoldedIn, BoardIn, HoleIn, AllInIn;
    assert |OnPlain(c, m).core.view.hand.value.board| > |BoardIn(log)|;
  }

  lemma AheadClears(table: nat, i: nat, l: Link, moves: seq<LinkMove>, m: ServerMessage)
    requires SightOf(l, moves).Ahead? && !Repeats(m) && m.TableEvent?
    requires Touch(Follow(l, moves), LinkMove.Deliver(m)).flight.None?
    ensures var all := moves + [LinkMove.Deliver(m)]; UpToDate(SightOf(l, all), Follow(l, all))
  {
    assert (moves + [LinkMove.Deliver(m)])[..|moves|] == moves;
  }

  lemma LogUnchanged(moves: seq<LinkMove>, m: LinkMove)
    requires Logged(m) == []
    ensures LogOf(moves + [m]) == LogOf(moves)
  {
    assert (moves + [m])[..|moves|] == moves;
  }

  /** The schedule: the flop is pushed, a replay is read and sent, and then the flop is sent. */
  lemma FlopShownTwice(d: Core, table: nat, hand: nat, dealer: nat, seed: nat, flop: seq<Card>, l: Link)
    requires AtTable(d, table) && l.sent == [] && l.ticket.None? && l.flight.None?
    ensures var start := TableEvent(table, HandStarted(hand, dealer, seed));
            var board := TableEvent(table, BoardDealt(Flop, flop));
            var r := Follow(l, [LinkMove.Begin(hand), LinkMove.Push(start), LinkMove.Deliver(start),
              LinkMove.Push(board),
                                Request(hand), Serve, LinkMove.Deliver(board)]);
            && r.replay.events == [start, board]
            && Hears(d, r).view.hand.Some? && Hears(d, r).view.hand.value.board == flop + flop
  {
    hide Follow, Touch;
    var start := TableEvent(table, HandStarted(hand, dealer, seed));
    var board := TableEvent(table, BoardDealt(Flop, flop));
    var m1, m2, m3, m4 := LinkMove.Begin(hand), LinkMove.Push(start), LinkMove.Deliver(start), LinkMove.Push(board);
    FollowNothing(l);
    FollowOn(l, [], m1);
    FollowOn(l, [m1], m2);
    FollowOn(l, [m1, m2], m3);
    FollowOn(l, [m1, m2, m3], m4);
    FollowOn(l, [m1, m2, m3, m4], Request(hand));
    FollowOn(l, [m1, m2, m3, m4, Request(hand)], Serve);
    FollowOn(l, [m1, m2, m3, m4, Request(hand), Serve], LinkMove.Deliver(board));
    assert [] + [m1] == [m1] && [m1] + [m2] == [m1, m2] && [m1, m2] + [m3] == [m1, m2, m3];
    assert [m1, m2, m3] + [m4] == [m1, m2, m3, m4] &&
      [m1, m2, m3, m4] + [Request(hand)] == [m1, m2, m3, m4, Request(hand)];
    assert [m1, m2, m3, m4, Request(hand)] + [Serve] == [m1, m2, m3, m4, Request(hand), Serve];
    assert [m1, m2, m3, m4, Request(hand), Serve] + [LinkMove.Deliver(board)]
        == [m1, m2, m3, m4, Request(hand), Serve, LinkMove.Deliver(board)];
    TheSevenSteps(l, hand, start, board);
    var r := Follow(l, [m1, m2, m3, m4, Request(hand), Serve, LinkMove.Deliver(board)]);
    HearsThree(d, table, r, hand, start, board);
  }

  lemma FollowNothing(l: Link)
    ensures Follow(l, []) == l
  {
  }

  lemma TheSevenSteps(l: Link, hand: nat, a: ServerMessage, b: ServerMessage)
    requires l.sent == [] && l.ticket.None? && l.flight.None?
    ensures var l4 := Touch(Touch(Touch(Touch(l, LinkMove.Begin(hand)), LinkMove.Push(a)), LinkMove.Deliver(a)),
            LinkMove.Push(b));
            var r := Touch(Touch(Touch(l4, Request(hand)), Serve), LinkMove.Deliver(b));
            r.sent == [a, ReplayEvents(hand, [a, b]), b] && r.replay.events == [a, b]
  {
    var l4 := Touch(Touch(Touch(Touch(l, LinkMove.Begin(hand)), LinkMove.Push(a)), LinkMove.Deliver(a)),
      LinkMove.Push(b));
    assert l4.replay == Replay(Some(hand), [a, b]) && l4.sent == [a];
    assert Touch(l4, Request(hand)).ticket == Some(Ticket(hand, [a, b]));
  }

  lemma HearsThree(d: Core, table: nat, r: Link, hand: nat, a: ServerMessage, b: ServerMessage)
    requires AtTable(d, table) && r.sent == [a, ReplayEvents(hand, [a, b]), b]
    requires a.TableEvent? && a.table == table && a.event.HandStarted?
    requires b.TableEvent? && b.table == table && b.event.BoardDealt?
    ensures Hears(d, r).view.hand.Some? && Hears(d, r).view.hand.value.board == b.event.cards + b.event.cards
  {
    hide Play;
    var l1 := r.(sent := [a]);
    var l2 := r.(sent := [a, ReplayEvents(hand, [a, b])]);
    HearsFirst(d, l1);
    HearsMore(d, l1, l2, ReplayEvents(hand, [a, b]));
    HearsMore(d, l2, r, b);
    var c1 := OnMessage(d, a).core;
    OnBoth(c1, table, hand, a, b);
  }

  lemma OnBoth(c: Core, table: nat, hand: nat, a: ServerMessage, b: ServerMessage)
    requires AtTable(c, table)
    requires a.TableEvent? && a.table == table && a.event.HandStarted?
    requires b.TableEvent? && b.table == table && b.event.BoardDealt?
    ensures var r := OnMessage(c, ReplayEvents(hand, [a, b])).core;
            AtTable(r, table) && r.view.hand.Some? && r.view.hand.value.board == b.event.cards
  {
    var m := ReplayEvents(hand, [a, b]);
    assert OnReplayed(c, m, 0) == Reply(c, []);
    assert OnReplayed(c, m, 1).core == OnPlain(c, a).core;
    assert OnReplayed(c, m, 2).core == OnPlain(OnPlain(c, a).core, b).core;
    assert [] + b.event.cards == b.event.cards;
  }

  // ---------------------------------------------------------------------------
  // A replay that comes late
  // ---------------------------------------------------------------------------

  /** The last pot figure among some events. */
  function PotIn(log: seq<Event>): Option<nat> {
    if log == [] then None
    else if log[|log| - 1].ActionTaken? then Some(log[|log| - 1].potTotal)
    else PotIn(log[..|log| - 1])
  }

  /** Some more events: what they add to what is seen. */
  lemma {:induction false} SeenBoth(a: seq<Event>, b: seq<Event>, i: nat)
    ensures BoardIn(a + b) == BoardIn(a) + BoardIn(b)
    ensures FoldedIn(a + b) == FoldedIn(a) + FoldedIn(b)
    ensures AllInIn(a + b) == AllInIn(a) + AllInIn(b)
    ensures HoleIn(a + b, i) == if HoleIn(b, i).Some? then HoleIn(b, i) else HoleIn(a, i)
  {
    hide BoardIn, FoldedIn, AllInIn, HoleIn;
    if b == [] {
      assert a + b == a;
      NothingSeen(i);
      assert BoardIn(a) + [] == BoardIn(a);
    } else {
      var n := |b| - 1;
      SeenBoth(a, b[..n], i);
      assert a + b == (a + b[..n]) + [b[n]] && b == b[..n] + [b[n]];
      SeenOn(a + b[..n], b[n]);
      SeenOn(b[..n], b[n]);
      if b[n].BoardDealt? {
        assert BoardIn(a) + (BoardIn(b[..n]) + b[n].cards) == BoardIn(a) + BoardIn(b[..n]) + b[n].cards;
      }
    }
  }

  lemma NothingSeen(i: nat)
    ensures BoardIn([]) == [] && FoldedIn([]) == {} && AllInIn([]) == {} && HoleIn([], i) == None
  {
  }

  /** One more event: the pot figure, the street, and board cards that are not nothing. */
  lemma PotStep(a: seq<Event>, e: Event)
    requires Running(a + [e])
    ensures Running(a) && PotOf(a + [e]) == if e.ActionTaken? then e.potTotal else PotOf(a)
    ensures if e.BoardDealt? then e.cards != [] else StreetOf(a + [e]) == StreetOf(a)
  {
    hide Read;
    ReadOn(a, e);
  }

  lemma {:induction false} PotBoth(a: seq<Event>, b: seq<Event>)
    requires Running(a + b)
    ensures Running(a) && PotOf(a + b) == if PotIn(b).Some? then PotIn(b).value else PotOf(a)
    ensures BoardIn(b) == [] ==> StreetOf(a + b) == StreetOf(a)
  {
    hide Running, PotOf, StreetOf, BoardIn;
    if b == [] {
      assert a + b == a;
    } else {
      var n := |b| - 1;
      assert a + b == (a + b[..n]) + [b[n]] && b == b[..n] + [b[n]];
      PotStep(a + b[..n], b[n]);
      PotBoth(a, b[..n]);
      SeenOn(b[..n], b[n]);
    }
  }

  /** Events after which the client of seat `i` would show the same hand: no board cards, nobody
      newly folded or all-in, no other pot figure, no hole cards of its own it did not have. */
  ghost predicate NoNews(seat: nat, i: nat, log: seq<Event>, more: seq<Event>) {
    && BoardIn(more) == [] && FoldedIn(more) <= FoldedIn(log) && AllInIn(more) <= AllInIn(log)
    && (PotIn(more).Some? ==> PotIn(more).value == PotOf(log))
    && (seat == i && HoleIn(more, i).Some? ==> HoleIn(more, i) == HoleIn(log, i))
  }

  /** A client that shows one stretch of a stream shows a longer one exactly when the rest is no
      news. */
  lemma NewsExactly(c: Core, at: Clients.Phase, i: nat, log: seq<Event>, more: seq<Event>)
    requires Mirrors(c, at, i, log) && Running(log + more)
    ensures Mirrors(c, at, i, log + more) <==> NoNews(at.seat, i, log, more)
  {
    hide Read, FoldedIn, BoardIn, HoleIn, AllInIn, StreetOf, PotOf;
    SeenBoth(log, more, i);
    PotBoth(log, more);
    if Mirrors(c, at, i, log + more) {
      assert |BoardIn(log) + BoardIn(more)| == |BoardIn(log)|;
      forall s | s in FoldedIn(more) ensures s in FoldedIn(log) { assert s in c.view.hand.value.folded; }
      forall s | s in AllInIn(more) ensures s in AllInIn(log) { assert s in c.view.hand.value.allIn; }
    }
    if BoardIn(more) == [] { assert BoardIn(log) + BoardIn(more) == BoardIn(log); }
  }

  /** Nothing that would replace or use up a replay already read. */
  ghost predicate NoReplayMoves(moves: seq<LinkMove>) {
    forall k :: 0 <= k < |moves| ==> !moves[k].Swap? && !moves[k].Request? && !moves[k].Serve?
  }

  lemma {:induction false} TicketKept(l: Link, moves: seq<LinkMove>)
    requires NoReplayMoves(moves)
    ensures Follow(l, moves).ticket == l.ticket
  {
    if moves != [] { TicketKept(l, moves[..|moves| - 1]); }
  }

  lemma {:induction false} FollowConcat(l: Link, a: seq<LinkMove>, b: seq<LinkMove>)
    ensures Follow(l, a + b) == Follow(Follow(l, a), b)
  {
    hide Touch;
    if b == [] {
      assert a + b == a;
    } else {
      assert (a + b)[..|a + b| - 1] == a + b[..|b| - 1];
      FollowConcat(l, a, b[..|b| - 1]);
    }
  }

  lemma {:induction false} LogConcat(a: seq<LinkMove>, b: seq<LinkMove>)
    ensures LogOf(a + b) == LogOf(a) + LogOf(b)
  {
    hide Logged;
    if b == [] {
      assert a + b == a;
    } else {
      var n := |b| - 1;
      assert (a + b)[..|a + b| - 1] == a + b[..n];
      LogConcat(a, b[..n]);
      assert LogOf(a) + (LogOf(b[..n]) + Logged(b[n])) == LogOf(a) + LogOf(b[..n]) + Logged(b[n]);
    }
  }

  /** The ticket of a request is what the buffer held. */
  lemma TicketOf(table: nat, i: nat, l: Link, before: seq<LinkMove>, between: seq<LinkMove>)
    requires Course(table, i, l, before) && NoReplayMoves(between)
    ensures var id := before[0].hand;
            Follow(l, before + [Request(id)] + between).ticket == Some(Ticket(id, Projection(before)))
  {
    var id := before[0].hand;
    hide Projection, Follow, NoReplayMoves, Course;
    BufferIsProjection(table, i, l, before);
    FollowOn(l, before, Request(id));
    FollowConcat(l, before + [Request(id)], between);
    TicketKept(Follow(l, before + [Request(id)]), between);
  }

  /** A replay shows the hand as it was when the buffer was read; and so the hand as it is
      exactly if the engine's events since then are no news. */
  lemma ReplayShowsItsReading(table: nat, i: nat, l: Link, before: seq<LinkMove>, between: seq<LinkMove>, d: Core)
    requires Plausible(l) && AtTable(d, table) && Course(table, i, l, before) && NoReplayMoves(between)
    requires Course(table, i, l, before + [Request(before[0].hand)] + between) && Projection(before) != []
    requires Running(LogOf(before) + LogOf(between))
    ensures var all := before + [Request(before[0].hand)] + between + [Serve];
            var c := Hears(d, Follow(l, all));
            && Like(c, Reference(c.view.phase, Projection(before)))
            && Mirrors(c, c.view.phase, i, LogOf(before))
            && LogOf(all) == LogOf(before) + LogOf(between)
            && (Mirrors(c, c.view.phase, i, LogOf(all)) <==>
                NoNews(c.view.phase.seat, i, LogOf(before), LogOf(between)))
  {
    var id := before[0].hand;
    var read := before + [Request(id)] + between;
    hide Mirrors, Running, Like, LogOf, Projection, Reference, Course, NoNews, Hears, Follow;
    ReadingServed(table, i, l, before, between, d);
    LogOfAll(before, between, id);
    var c := Hears(d, Follow(l, read + [Serve]));
    PotBoth(LogOf(before), LogOf(between));
    StreamMirrors(c.view.phase, table, i, l, before);
    MirrorsLike(c, Reference(c.view.phase, Projection(before)), c.view.phase, i, LogOf(before));
    NewsExactly(c, c.view.phase, i, LogOf(before), LogOf(between));
  }

  lemma LogOfAll(before: seq<LinkMove>, between: seq<LinkMove>, id: nat)
    ensures LogOf(before + [Request(id)] + between + [Serve]) == LogOf(before) + LogOf(between)
  {
    hide LogOf;
    LogUnchanged(before, Request(id));
    LogConcat(before + [Request(id)], between);
    LogUnchanged(before + [Request(id)] + between, Serve);
  }

  lemma ReadingServed(table: nat, i: nat, l: Link, before: seq<LinkMove>, between: seq<LinkMove>, d: Core)
    requires Plausible(l) && AtTable(d, table) && Course(table, i, l, before) && NoReplayMoves(between)
    requires Course(table, i, l, before + [Request(before[0].hand)] + between) && Projection(before) != []
    ensures var c := Hears(d, Follow(l, before + [Request(before[0].hand)] + between + [Serve]));
            AtTable(c, table) && Like(c, Reference(c.view.phase, Projection(before)))
  {
    var id := before[0].hand;
    var read := before + [Request(id)] + between;
    hide Follow, Like, Projection, Hears, Knows, Reference, Course, SightOf, NoReplayMoves, Touch, Stream;
    TicketOf(table, i, l, before, between);
    SightTells(table, i, l, read, d);
    KnowsSeated(SightOf(l, read), Hears(d, Follow(l, read)), table, Follow(l, read));
    FollowOn(l, read, Serve);
    FollowStreams(table, i, l, before);
    BufferIsProjection(table, i, l, before);
    ServedShows(d, Follow(l, read), table, id, Projection(before));
  }

  lemma ServedShows(d: Core, l: Link, table: nat, id: nat, events: seq<ServerMessage>)
    requires AtTable(Hears(d, l), table) && l.ticket == Some(Ticket(id, events)) && Stream(table, events) &&
             events != []
    ensures var c := Hears(d, Touch(l, Serve));
            AtTable(c, table) && Like(c, Reference(c.view.phase, events))
  {
    hide Like, Hears, OnMessage, Reference;
    HearsMore(d, l, Touch(l, Serve), ReplayEvents(id, events));
    Replayed(Hears(d, l), table, id, events);
  }
}
