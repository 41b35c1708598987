/** What the client of a seat shows: its connection's stream against the hand the engine plays,
    with reconnects, re-sent prompts, table news and replays between any two steps. */
module Views {
  import opened Types
  import opened Protocol
  import opened PotCalc
  import opened Tree
  import opened Story
  import opened Invariants
  import opened Theorems
  import opened Links
  import opened Sinks
  import opened Clients
  import opened ClientRuns

  // ---------------------------------------------------------------------------
  // Hearing
  // ---------------------------------------------------------------------------

  /** A client that has heard what a link's connection was sent. */
  function Hears(d: Core, l: Link): Core { Play(d, AsInputs(l.sent)).core }

  function SeatedCore(p: Clients.Phase): Core { Clients.Fresh().(view := EmptyView(p)) }

  /** A client that sits where `p` says and has heard exactly these messages of the hand. */
  function Reference(p: Clients.Phase, ms: seq<ServerMessage>): Core { Play(SeatedCore(p), AsInputs(ms)).core }

  lemma ReferenceOn(p: Clients.Phase, ms: seq<ServerMessage>, m: ServerMessage)
    requires !m.ReplayEvents?
    ensures Reference(p, ms + [m]) == OnPlain(Reference(p, ms), m).core
  {
    hide OnPlain;
    assert AsInputs(ms + [m]) == AsInputs(ms) + [Got(m)];
    PlayOn(SeatedCore(p), AsInputs(ms), Got(m));
  }

  lemma HearsMore(d: Core, l: Link, r: Link, m: ServerMessage)
    requires r.sent == l.sent + [m]
    ensures Hears(d, r) == OnMessage(Hears(d, l), m).core
  {
    hide OnMessage;
    assert AsInputs(r.sent) == AsInputs(l.sent) + [Got(m)];
    PlayOn(d, AsInputs(l.sent), Got(m));
  }

  lemma HearsFirst(d: Core, l: Link)
    requires |l.sent| == 1
    ensures Hears(d, l) == OnMessage(d, l.sent[0]).core
  {
    hide OnMessage;
    Clients.One(d, Got(l.sent[0]));
    assert AsInputs(l.sent) == [Got(l.sent[0])];
  }

  lemma SameSent(d: Core, l: Link, r: Link)
    requires r.sent == l.sent
    ensures Hears(d, r) == Hears(d, l)
  {
  }

  /** Messages that leave the client where it sits. */
  lemma StaysSeated(c: Core, m: ServerMessage)
    requires OfHand(m) || Aside(m)
    ensures OnMessage(c, m) == OnPlain(c, m) && OnPlain(c, m).core.view.phase == c.view.phase
    ensures c.view.hand.None? && (m.TableEvent? ==> !m.event.HandStarted?) ==> OnPlain(c, m).core.view.hand.None?
    ensures Aside(m) ==> Like(OnPlain(c, m).core, c)
  {
  }

  lemma {:induction false} ReplayStaysSeated(c: Core, ms: seq<ServerMessage>, k: nat)
    requires AllOfHand(ms) && k <= |ms|
    ensures Play(c, AsInputs(ms)[..k]).core.view.phase == c.view.phase
  {
    hide OnPlain, OnMessage;
    if k > 0 {
      ReplayStaysSeated(c, ms, k - 1);
      assert AsInputs(ms)[..k][..k - 1] == AsInputs(ms)[..k - 1];
      StaysSeated(Play(c, AsInputs(ms)[..k - 1]).core, ms[k - 1]);
    }
  }

  // ---------------------------------------------------------------------------
  // Hearing an event twice
  // ---------------------------------------------------------------------------

  lemma UpdateAgain(bets: seq<(nat, nat)>, seat: nat, amount: nat)
    ensures UpdateBet(UpdateBet(bets, seat, amount), seat, amount) == UpdateBet(bets, seat, amount)
  {
    var once := UpdateBet(bets, seat, amount);
    var i := BetAt(bets, seat);
    assert once[i] == (seat, amount);
    assert forall j :: 0 <= j < i ==> once[j].0 != seat;
  }

  lemma {:induction false} MaxAtMost(bets: seq<(nat, nat)>, m: nat)
    requires forall i :: 0 <= i < |bets| ==> bets[i].1 <= m
    ensures MaxBet(bets) <= m
  {
    if bets != [] { MaxAtMost(bets[..|bets| - 1], m); }
  }

  /** Matching the highest bet leaves it the highest. */
  lemma MaxKept(bets: seq<(nat, nat)>, seat: nat)
    ensures MaxBet(UpdateBet(bets, seat, MaxBet(bets))) == MaxBet(bets)
  {
    var m := MaxBet(bets);
    var once := UpdateBet(bets, seat, m);
    assert once[BetAt(bets, seat)] == (seat, m);
    MaxAtMost(once, m);
  }

  lemma BetAgain(bets: seq<(nat, nat)>, seat: nat, a: Action)
    ensures BetAfter(BetAfter(bets, seat, a), seat, a) == BetAfter(bets, seat, a)
  {
    hide UpdateBet, MaxBet;
    MaxKept(bets, seat);
    UpdateAgain(bets, seat, MaxBet(bets));
    if a.Raise? { UpdateAgain(bets, seat, a.amount); }
  }

  /** Of the events of a hand in progress, only board cards make a difference the second time. */
  lemma ProjectAgain(c: Core, e: Event)
    requires !e.HandEnded? && !(e.BoardDealt? && e.cards != [])
    ensures Project(Project(c, e), e) == Project(c, e)
  {
    hide UpdateBet, BetAfter;
    if c.view.hand.Some? {
      var h := c.view.hand.value;
      if e.ActionTaken? { BetAgain(h.bets, e.seat, e.action); }
      if e.PlayerAllIn? { UpdateAgain(h.bets, e.seat, e.total); }
      if e.BoardDealt? { assert h.board + e.cards + e.cards == h.board + e.cards; }
    }
  }

  lemma HearAgain(c: Core, m: ServerMessage)
    requires m.TableEvent? && !m.event.HandEnded? && !Repeats(m)
    ensures OnPlain(OnPlain(c, m).core, m).core == OnPlain(c, m).core
  {
    hide Project;
    ProjectAgain(c, m.event);
    ProjectPhase(c, m.event);
  }

  lemma ProjectPhase(c: Core, e: Event)
    ensures Project(c, e).view.phase == c.view.phase
  {
  }

  // ---------------------------------------------------------------------------
  // What a client knows
  // ---------------------------------------------------------------------------

  ghost predicate Knows(sight: Sight, c: Core, table: nat, l: Link) {
    && AtTable(c, table)
    && (sight.Blind? ==> c.view.hand.None?)
    && (sight.Clear? ==> Due(l) != [] && Like(c, Reference(c.view.phase, Due(l))))
    && (sight.Ahead? ==>
          && l.flight.Some? && l.flight.value.Pushed?
          && Like(c, Reference(c.view.phase, l.replay.events)))
  }

  lemma KnowsSeated(sight: Sight, c: Core, table: nat, l: Link)
    requires Knows(sight, c, table, l)
    ensures AtTable(c, table) && (sight.Blind? ==> c.view.hand.None?)
    ensures sight.Clear? ==> Like(c, Reference(c.view.phase, Due(l)))
    ensures sight.Ahead? ==>
               l.flight.Some? && l.flight.value.Pushed? && Like(c, Reference(c.view.phase, l.replay.events))
  {
  }

  /** The link changed in nothing the client's knowledge depends on. */
  lemma KnowsSame(sight: Sight, c: Core, table: nat, l: Link, r: Link)
    requires Knows(sight, c, table, l) && Due(r) == Due(l) && !sight.Ahead?
    ensures Knows(sight, c, table, r)
  {
  }

  lemma KnowsQuiet(sight: Sight, c: Core, table: nat, l: Link, r: Link)
    requires Knows(sight, c, table, l) && r.replay == l.replay && r.flight == l.flight
    ensures Knows(sight, c, table, r)
  {
  }

  lemma KnowsAside(sight: Sight, c: Core, table: nat, l: Link, m: ServerMessage)
    requires Knows(sight, c, table, l) && Aside(m)
    ensures Knows(sight, OnMessage(c, m).core, table, l)
  {
    hide OnPlain, OnMessage, Reference, Due;
    StaysSeated(c, m);
  }

  lemma KnowsJoined(d: Core, table: nat, l: Link, m: ServerMessage)
    requires m.JoinedTable? && m.table == table
    ensures Knows(Blind, OnMessage(d, m).core, table, l)
  {
  }

  /** One more message of the hand, to the client and to the stream it should have heard. */
  lemma KnowsNext(sight: Sight, c: Core, table: nat, l: Link, r: Link, m: ServerMessage)
    requires Knows(sight, c, table, l) && !sight.Ahead? && OfHand(m) && Due(r) == Due(l) + [m]
    requires m.TableEvent? ==> !m.event.HandStarted?
    ensures Knows(sight, OnMessage(c, m).core, table, r)
  {
    hide OnPlain, OnMessage, Like, Due, Reference;
    StaysSeated(c, m);
    if sight.Clear? {
      PlainSame(c, Reference(c.view.phase, Due(l)), m);
      ReferenceOn(c.view.phase, Due(l), m);
    }
  }

  lemma KnowsStart(c: Core, table: nat, r: Link, m: ServerMessage)
    requires AtTable(c, table) && m.TableEvent? && m.table == table && m.event.HandStarted? && Due(r) == [m]
    ensures Knows(Clear, OnMessage(c, m).core, table, r)
  {
    StaysSeated(c, m);
    ReferenceOn(c.view.phase, [], m);
    assert [] + [m] == [m];
  }

  /** The event a replay has already told. */
  lemma KnowsTwice(c: Core, table: nat, l: Link, r: Link, m: ServerMessage)
    requires Knows(Ahead, c, table, l) && m.TableEvent? && !m.event.HandEnded? && !m.event.HandStarted? && !Repeats(m)
    requires |l.replay.events| > 1 && l.replay.events[|l.replay.events| - 1] == m && Due(r) == l.replay.events
    ensures Knows(Clear, OnMessage(c, m).core, table, r)
  {
    hide OnPlain, OnMessage, Reference, Due;
    StaysSeated(c, m);
    var p, n := c.view.phase, |l.replay.events| - 1;
    assert l.replay.events[..n] + [m] == l.replay.events;
    ReferenceOn(p, l.replay.events[..n], m);
    HearAgain(Reference(p, l.replay.events[..n]), m);
    PlainSame(c, Reference(p, l.replay.events), m);
  }

  /** A replay of a stream puts the client where the stream would have. */
  lemma Replayed(c: Core, table: nat, hand: nat, events: seq<ServerMessage>)
    requires AtTable(c, table) && Stream(table, events) && events != []
    ensures var r := OnMessage(c, ReplayEvents(hand, events)).core;
            r.view.phase == c.view.phase && Like(r, Reference(c.view.phase, events))
  {
    hide OnMessage, Play, Same, Like;
    ReplayMessage(c, hand, events);
    ReplayStaysSeated(c, events, |events|);
    assert AsInputs(events)[..|events|] == AsInputs(events);
    ReplayForgetsThePast(c, SeatedCore(c.view.phase), AsInputs(events), table);
    SameIsLike(Play(c, AsInputs(events)).core, Play(SeatedCore(c.view.phase), AsInputs(events)).core);
  }

  lemma ReplayedAny(c: Core, table: nat, hand: nat, events: seq<ServerMessage>)
    requires AtTable(c, table) && AllOfHand(events)
    ensures AtTable(OnMessage(c, ReplayEvents(hand, events)).core, table)
    ensures events == [] ==> OnMessage(c, ReplayEvents(hand, events)).core == c
  {
    hide OnMessage, Play;
    ReplayMessage(c, hand, events);
    ReplayStaysSeated(c, events, |events|);
    assert AsInputs(events)[..|events|] == AsInputs(events);
    if events == [] { PlayNothing(c); }
  }

  lemma PlayNothing(c: Core)
    ensures Play(c, AsInputs([])).core == c
  {
  }

  lemma DueIsStream(table: nat, l: Link)
    requires Streams(table, l)
    ensures Stream(table, Due(l))
  {
  }

  function AsActive(m: ServerMessage): ActivePrompt
    requires m.Prompt?
  {
    ActivePrompt(m.table, m.hand, m.seat, m.legal)
  }

  /** The stored prompt is the last of the stream. */
  lemma {:induction false} ReferencePrompt(p: Clients.Phase, table: nat, ms: seq<ServerMessage>)
    requires Stream(table, ms) && p.Seated?
    ensures var last := Standing(ms);
            && Reference(p, ms).view.phase == p
            && (last.Some? ==> last.value.Prompt? && Reference(p, ms).prompt == Some(AsActive(last.value)))
  {
    hide Play;
    if ms == [] {
      PlayNothing(SeatedCore(p));
    } else {
      var n := |ms| - 1;
      ReferencePrompt(p, table, ms[..n]);
      assert ms[..n] + [ms[n]] == ms;
      ReferenceOn(p, ms[..n], ms[n]);
      KeepsPrompt(Reference(p, ms[..n]), ms[n]);
      if n == 0 { assert ms[..0] == []; }
    }
  }

  lemma KeepsPrompt(c: Core, m: ServerMessage)
    requires OfHand(m)
    ensures var r := OnPlain(c, m).core;
            && r.view.phase == c.view.phase
            && (m.TableEvent? && !m.event.HandStarted? && !m.event.HandEnded? ==> r.prompt == c.prompt)
            && (m.Prompt? ==> r.prompt == Some(AsActive(m)))
  {
  }

  /** Re-sending the open prompt changes nothing but the prompt fields of the view. */
  lemma PromptAgain(c: Core, m: ServerMessage)
    requires m.Prompt? && c.prompt == Some(AsActive(m))
    ensures Like(OnPlain(c, m).core, c)
  {
  }

  lemma KnowsReprompted(sight: Sight, c: Core, table: nat, l: Link, m: ServerMessage)
    requires Knows(sight, c, table, l) && Streams(table, l) && l.flight.None? && m.Prompt?
    requires var last := Standing(l.replay.events); last.Some? && SamePrompt(m, last.value)
    ensures Knows(sight, OnMessage(c, m).core, table, l)
  {
    StaysSeated(c, m);
    if sight.Clear? {
      ReferencePrompt(c.view.phase, table, l.replay.events);
      PromptAgain(c, m);
    }
  }

  lemma KnowsPrompted(sight: Sight, c: Core, table: nat, l: Link, m: ServerMessage)
    requires Knows(sight, c, table, l) && m.Prompt?
    ensures Knows(if sight.Blind? then Blind else Stale, OnMessage(c, m).core, table, l)
  {
    hide Reference, Like, Due;
    StaysSeated(c, m);
  }

  lemma KnowsLess(sight: Sight, c: Core, table: nat, l: Link, r: Link)
    requires Knows(sight, c, table, l)
    ensures Knows(if sight.Blind? then Blind else Stale, c, table, r)
  {
    hide Reference, Like, Due;
  }

  lemma NotAhead(sight: Sight, c: Core, table: nat, l: Link)
    requires Knows(sight, c, table, l) && (l.flight.None? || l.flight.value.Prompted?)
    ensures !sight.Ahead?
  {
  }

  lemma PushStep(sight: Sight, d: Core, table: nat, i: nat, l: Link, m: LinkMove)
    requires Streams(table, l) && l.replay.hand.Some? && Fits(table, i, l, m) && (m.Push? || m.AskPush?)
    requires Knows(sight, Hears(d, l), table, l)
    ensures Knows(sight, Hears(d, Touch(l, m)), table, Touch(l, m))
  {
    hide Knows, Hears;
    var r := Touch(l, m);
    NotAhead(sight, Hears(d, l), table, l);
    SameSent(d, l, r);
    assert Due(r) == Due(l);
    KnowsSame(sight, Hears(d, l), table, l, r);
  }

  lemma DeliverStep(sight: Sight, d: Core, table: nat, i: nat, l: Link, m: ServerMessage)
    requires Streams(table, l) && Fits(table, i, l, LinkMove.Deliver(m))
    requires Knows(sight, Hears(d, l), table, l)
    ensures var r := Touch(l, LinkMove.Deliver(m));
            Knows(SightAfter(sight, l, LinkMove.Deliver(m)), Hears(d, r), table, r)
  {
    hide Knows, Hears, OnMessage;
    var r, c := Touch(l, LinkMove.Deliver(m)), Hears(d, l);
    var n := |l.replay.events| - 1;
    HearsMore(d, l, r, m);
    KnowsSeated(sight, c, table, l);
    assert l.replay.events[..n] + [m] == l.replay.events;
    assert Due(r) == Due(l) + [m];
    if m.event.HandStarted? {
      assert n == 0 && Due(r) == [m];
      KnowsStart(c, table, r, m);
    } else if !sight.Ahead? {
      KnowsNext(sight, c, table, l, r, m);
    } else if Repeats(m) {
      KnowsHeard(c, table, r, m);
    } else {
      KnowsTwice(c, table, l, r, m);
    }
  }

  lemma KnowsHeard(c: Core, table: nat, r: Link, m: ServerMessage)
    requires AtTable(c, table) && OfHand(m)
    ensures Knows(Stale, OnMessage(c, m).core, table, r)
  {
    hide OnPlain;
    StaysSeated(c, m);
  }

  lemma AskStep(sight: Sight, d: Core, table: nat, i: nat, l: Link, conn: nat, m: ServerMessage)
    requires Streams(table, l) && Fits(table, i, l, AskSend(conn, m)) && Knows(sight, Hears(d, l), table, l)
    ensures var r := Touch(l, AskSend(conn, m));
            Knows(SightAfter(sight, l, AskSend(conn, m)), Hears(d, r), table, r)
  {
    hide Knows, Hears, OnMessage;
    var r, c := Touch(l, AskSend(conn, m)), Hears(d, l);
    NotAhead(sight, c, table, l);
    if conn == l.conn {
      HearsMore(d, l, r, m);
      KnowsNext(sight, c, table, l, r, m);
    } else {
      SameSent(d, l, r);
      KnowsLess(sight, c, table, l, r);
    }
  }

  lemma RepromptStep(sight: Sight, d: Core, table: nat, l: Link, conn: nat, m: ServerMessage)
    requires Streams(table, l) && m.Prompt? && Knows(sight, Hears(d, l), table, l)
    ensures var r := Touch(l, Reprompt(conn, m));
            Knows(SightAfter(sight, l, Reprompt(conn, m)), Hears(d, r), table, r)
  {
    hide Knows, Hears, OnMessage;
    var r, c := Touch(l, Reprompt(conn, m)), Hears(d, l);
    if conn == l.conn {
      HearsMore(d, l, r, m);
      var last := Standing(l.replay.events);
      if l.flight.None? && last.Some? && SamePrompt(m, last.value) {
        KnowsReprompted(sight, c, table, l, m);
        KnowsQuiet(sight, OnMessage(c, m).core, table, l, r);
      } else {
        KnowsPrompted(sight, c, table, l, m);
        KnowsQuiet(if sight.Blind? then Blind else Stale, OnMessage(c, m).core, table, l, r);
      }
    }
  }

  lemma ServeStep(sight: Sight, d: Core, table: nat, l: Link)
    requires Streams(table, l) && l.ticket.Some? && Knows(sight, Hears(d, l), table, l)
    ensures Knows(SightAfter(sight, l, Serve), Hears(d, Touch(l, Serve)), table, Touch(l, Serve))
  {
    hide Hears, OnMessage, Reference, Like;
    var r, c, t := Touch(l, Serve), Hears(d, l), l.ticket.value;
    HearsMore(d, l, r, ReplayEvents(t.hand, t.events));
    assert Due(r) == Due(l);
    ReplayedAny(c, table, t.hand, t.events);
    DueIsStream(table, l);
    if t.events != [] && (t.events == Due(l) || t.events == l.replay.events) { Replayed(c, table, t.hand, t.events); }
  }

  /** One step of any thread. */
  lemma KnowsStep(sight: Sight, d: Core, table: nat, i: nat, l: Link, m: LinkMove)
    requires Streams(table, l) && l.replay.hand.Some? && Fits(table, i, l, m) && Knows(sight, Hears(d, l), table, l)
    ensures Knows(SightAfter(sight, l, m), Hears(d, Touch(l, m)), table, Touch(l, m))
  {
    hide Knows, Hears, OnMessage, Streams;
    var r, c := Touch(l, m), Hears(d, l);
    match m
    case Push(_) => PushStep(sight, d, table, i, l, m);
    case Deliver(message) => DeliverStep(sight, d, table, i, l, message);
    case Unseen(_) =>
    case AskSend(conn, message) => AskStep(sight, d, table, i, l, conn, message);
    case AskPush(_) => PushStep(sight, d, table, i, l, m);
    case Tell(message) =>
      HearsMore(d, l, r, message);
      KnowsAside(sight, c, table, l, message);
      KnowsQuiet(sight, OnMessage(c, message).core, table, l, r);
    case Swap(_, joined) =>
      HearsFirst(d, r);
      KnowsJoined(d, table, r, joined);
    case Reprompt(conn, message) => RepromptStep(sight, d, table, l, conn, message);
    case Request(_) =>
      SameSent(d, l, r);
      KnowsQuiet(sight, c, table, l, r);
    case Serve => if l.ticket.Some? { ServeStep(sight, d, table, l); }
  }

  /** A ticket left over from before can only hold messages of a hand. */
  predicate Plausible(l: Link) { l.sent == [] && (l.ticket.Some? ==> AllOfHand(l.ticket.value.events)) }

  /** At any point of a hand, whatever comes between any two steps: what the sight of a seat's
      connection says, its client has. */
  lemma {:induction false} SightTells(table: nat, i: nat, l: Link, moves: seq<LinkMove>, d: Core)
    requires Course(table, i, l, moves) && Plausible(l) && AtTable(d, table)
    ensures Knows(SightOf(l, moves), Hears(d, Follow(l, moves)), table, Follow(l, moves))
  {
    hide Knows, Streams, SightAfter, Touch, Fits;
    var n := |moves| - 1;
    if n == 0 {
      assert moves[..0] == [];
      BeginTells(table, l, moves[0].hand, SightOf(l, []), d);
    } else {
      CourseLast(table, i, l, moves);
      SightTells(table, i, l, moves[..n], d);
      FollowStreams(table, i, l, moves[..n]);
      KnowsStep(SightOf(l, moves[..n]), d, table, i, Follow(l, moves[..n]), moves[n]);
    }
  }

  lemma BeginTells(table: nat, l: Link, hand: nat, was: Sight, d: Core)
    requires Plausible(l) && AtTable(d, table)
    ensures var r := Touch(l, LinkMove.Begin(hand));
            Knows(SightAfter(was, l, LinkMove.Begin(hand)), Hears(d, r), table, r)
  {
    PlayNothing(d);
  }

  // ---------------------------------------------------------------------------
  // A client over its connection
  // ---------------------------------------------------------------------------

  /** A client of the seat: it was at the table when the hand began, or its connection was bound
      since and it has been told its seat. */
  predicate OfSeat(d: Core, l: Link, table: nat) {
    AtTable(d, table) || (|l.sent| > 0 && l.sent[0].JoinedTable?)
  }

  /** Being told its seat, a client forgets what it saw before. */
  lemma JoinedForgets(d: Core, d': Core, l: Link)
    requires |l.sent| > 0 && l.sent[0].JoinedTable?
    ensures ClientRuns.Same(Hears(d, l), Hears(d', l))
  {
    hide Play, ClientRuns.Same;
    var xs := AsInputs(l.sent);
    PlayFrom(d, xs);
    PlayFrom(d', xs);
    JoinedSame(d, d', l.sent[0]);
    PlaySame(OnInput(d, xs[0]).core, OnInput(d', xs[0]).core, xs[1..]);
  }

  lemma JoinedSame(d: Core, d': Core, m: ServerMessage)
    requires m.JoinedTable?
    ensures ClientRuns.Same(OnInput(d, Got(m)).core, OnInput(d', Got(m)).core)
  {
  }

  lemma LikeTrans(a: Core, b: Core, c: Core)
    requires Like(a, b) && Like(b, c)
    ensures Like(a, c)
  {
  }

  lemma LikeSelf(a: Core)
    ensures Like(a, a)
  {
  }

  /** A client and its life since its connection was bound or the hand began: `xs` is everything
      it did and was sent. */
  ghost predicate Lives(d: Core, xs: seq<Input>, l: Link, table: nat) {
    OfSeat(d, l, table) && QuietRun(xs) && Heard(xs) == AsInputs(l.sent)
  }

  lemma LivesLike(d: Core, xs: seq<Input>, l: Link, table: nat) returns (d0: Core)
    requires Lives(d, xs, l, table)
    ensures AtTable(d0, table) && Like(Play(d, xs).core, Hears(d0, l))
  {
    hide Play, Like, ClientRuns.Same;
    LikeSelf(d);
    PlayLike(d, d, xs);
    if AtTable(d, table) {
      d0 := d;
    } else {
      d0 := SeatedCore(Seated(table, 0));
      JoinedForgets(d, d0, l);
      SameIsLike(Hears(d, l), Hears(d0, l));
      LikeTrans(Play(d, xs).core, Hears(d, l), Hears(d0, l));
    }
  }

  /** Whatever the client of a seat did and was sent: in the clear it has the hand and prompt of
      one that never lost its connection; ahead, those of one already sent the event on its way;
      blind, from a reconnect until it is replayed, it shows no hand. */
  lemma ReplayRebuildsTheHand(table: nat, i: nat, l: Link, moves: seq<LinkMove>, d: Core, xs: seq<Input>)
    requires Course(table, i, l, moves) && Plausible(l) && Lives(d, xs, Follow(l, moves), table)
    ensures var c := Play(d, xs).core; var r := Follow(l, moves);
            && AtTable(c, table)
            && (SightOf(l, moves).Clear? ==> Like(c, Reference(c.view.phase, Due(r))))
            && (SightOf(l, moves).Ahead? ==> Like(c, Reference(c.view.phase, r.replay.events)))
            && (SightOf(l, moves).Blind? ==> c.view.hand.None?)
  {
    hide Follow, Play, Hears, Knows, Course, Reference, SightOf, Due;
    var r := Follow(l, moves);
    var d0 := LivesLike(d, xs, r, table);
    SightTells(table, i, l, moves, d0);
    KnowsSeated(SightOf(l, moves), Hears(d0, r), table, r);
  }
}
