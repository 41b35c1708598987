/** A seat link (`SeatLink`): the connection a seat is bound to, its replay buffer, and every
    step of every thread that touches them. The thread that runs the hand pushes each event
    into the buffer and then sends it; a prompt it sends and then pushes. Nothing locks the two
    steps together, so sessions that reconnect or ask for a replay can come between. */
module Links {
  import opened Types
  import opened Protocol

  /** `ReplayBuffer`: the hand it serves, if any, and what the seat was told. */
  datatype Replay = Replay(hand: Option<nat>, events: seq<ServerMessage>)
  {
    function Begin(id: nat): Replay { Replay(Some(id), []) }
    function Push(m: ServerMessage): Replay { if hand.Some? then Replay(hand, events + [m]) else this }
    function End(): Replay { Replay(None, []) }
    function Snapshot(id: nat): Option<seq<ServerMessage>> { if hand == Some(id) then Some(events) else None }
  }

  /** A replay a session has read from the buffer and not yet sent. */
  datatype Ticket = Ticket(hand: nat, events: seq<ServerMessage>)

  /** A message between its two steps: pushed and not yet sent, or sent and not yet pushed. */
  datatype Flight = Pushed(message: ServerMessage) | Prompted(message: ServerMessage)

  /** With the link, everything its connection has been sent, the replay it is about to be
      sent, and the message of the hand's own thread that is half way. */
  datatype Link = Link(
    conn: nat, replay: Replay, sent: seq<ServerMessage>, ticket: Option<Ticket>, flight: Option<Flight>)
  {
    function Push(m: ServerMessage): Link { this.(replay := replay.Push(m), flight := Some(Pushed(m))) }
    function Deliver(m: ServerMessage): Link { this.(sent := sent + [m], flight := None) }

    /** `replay_push` and then `try_send`, undisturbed. */
    function Send(m: ServerMessage): Link { Push(m).Deliver(m) }
    function Begin(id: nat): Link { this.(replay := replay.Begin(id)) }
    function End(): Link { this.(replay := replay.End()) }
  }

  /** What touches a link. The hand's thread: beginning the buffer, pushing an event, sending it,
      an event this seat is not told, a prompt sent to the connection looked up and then pushed,
      sealing the buffer. Sessions: news that is no part of a hand, a reconnect (the new
      connection is told where it sits, bound, and re-sent an unanswered prompt), a replay being
      read and then sent. */
  datatype LinkMove =
    | Begin(hand: nat)
    | Push(message: ServerMessage)
    | Deliver(message: ServerMessage)
    | Unseen(event: Event)
    | AskSend(conn: nat, message: ServerMessage)
    | AskPush(message: ServerMessage)
    | End
    | Tell(message: ServerMessage)
    | Swap(conn: nat, joined: ServerMessage)
    | Reprompt(conn: nat, message: ServerMessage)
    | Request(hand: nat)
    | Serve

  function Touch(l: Link, m: LinkMove): Link {
    match m
    case Begin(id) => l.Begin(id)
    case Push(message) => l.Push(message)
    case Deliver(message) => l.Deliver(message)
    case Unseen(_) => l
    case AskSend(c, message) =>
      l.(sent := if c == l.conn then l.sent + [message] else l.sent, flight := Some(Prompted(message)))
    case AskPush(message) => l.(replay := l.replay.Push(message), flight := None)
    case End => l.End()
    case Tell(message) => l.(sent := l.sent + [message])
    case Swap(c, joined) => l.(conn := c, sent := [joined], ticket := None)
    case Reprompt(c, message) => if c == l.conn then l.(sent := l.sent + [message]) else l
    case Request(hand) =>
      var found := l.replay.Snapshot(hand);
      if found.Some? then l.(ticket := Some(Ticket(hand, found.value))) else l
    case Serve =>
      if l.ticket.None? then l
      else l.(sent := l.sent + [ReplayEvents(l.ticket.value.hand, l.ticket.value.events)], ticket := None)
  }

  function Follow(l: Link, moves: seq<LinkMove>): Link {
    if moves == [] then l else Touch(Follow(l, moves[..|moves| - 1]), moves[|moves| - 1])
  }

  lemma FollowOn(l: Link, moves: seq<LinkMove>, m: LinkMove)
    ensures Follow(l, moves + [m]) == Touch(Follow(l, moves), m)
  {
    assert (moves + [m])[..|moves|] == moves;
  }

  // ---------------------------------------------------------------------------
  // A hand at one link
  // ---------------------------------------------------------------------------

  /** News that is not part of any hand. */
  predicate Aside(m: ServerMessage) { m.TableState? || m.ActionRejected? || m.Heartbeat? || m.TableList? }

  /** An event of a hand in progress, as seat `i` may see it. */
  predicate Shown(table: nat, i: nat, m: ServerMessage) {
    m.TableEvent? && m.table == table && !m.event.HandEnded? && (m.event.HoleCardsDealt? ==> m.event.seat == i)
  }

  /** What the threads may do next while a hand runs: the hand's thread finishes a message before
      it begins another, and starts with `HandStarted`. */
  predicate Fits(table: nat, i: nat, l: Link, m: LinkMove) {
    match m
    case Begin(_) => false
    case Push(message) =>
      l.flight.None? && Shown(table, i, message) && (message.event.HandStarted? <==> l.replay.events == [])
    case Deliver(message) => l.flight == Some(Pushed(message))
    case Unseen(e) => l.flight.None? && e.HoleCardsDealt? && e.seat != i && l.replay.events != []
    case AskSend(_, message) => l.flight.None? && message.Prompt? && l.replay.events != []
    case AskPush(message) => l.flight == Some(Prompted(message))
    case End => false
    case Tell(message) => Aside(message)
    case Swap(_, joined) => joined.JoinedTable? && joined.table == table
    case Reprompt(_, message) => message.Prompt?
    case Request(_) => true
    case Serve => true
  }

  /** A hand from the moment its buffer is begun, at the link of seat `i`. */
  ghost predicate Course(table: nat, i: nat, l: Link, moves: seq<LinkMove>) {
    && |moves| > 0 && moves[0].Begin? && l.flight.None?
    && forall k :: 1 <= k < |moves| ==> Fits(table, i, Follow(l, moves[..k]), moves[k])
  }

  lemma CoursePrefix(table: nat, i: nat, l: Link, moves: seq<LinkMove>, n: nat)
    requires Course(table, i, l, moves) && 1 <= n <= |moves|
    ensures Course(table, i, l, moves[..n])
  {
    forall k | 1 <= k < n ensures Fits(table, i, Follow(l, moves[..n][..k]), moves[..n][k]) {
      assert moves[..n][..k] == moves[..k];
    }
  }

  lemma CourseLast(table: nat, i: nat, l: Link, moves: seq<LinkMove>)
    requires Course(table, i, l, moves) && |moves| > 1
    ensures var n := |moves| - 1;
            && Course(table, i, l, moves[..n]) && Fits(table, i, Follow(l, moves[..n]), moves[n])
            && Follow(l, moves) == Touch(Follow(l, moves[..n]), moves[n])
  {
    CoursePrefix(table, i, l, moves, |moves| - 1);
  }

  /** The seat's stream: what the hand's thread put into the buffer, in order. */
  function Projection(moves: seq<LinkMove>): seq<ServerMessage> {
    if moves == [] then []
    else Projection(moves[..|moves| - 1]) + Projected(moves[|moves| - 1])
  }

  function Projected(m: LinkMove): seq<ServerMessage> {
    match m
    case Push(message) => [message]
    case AskPush(message) => [message]
    case _ => []
  }

  /** The engine's events so far, those the seat is not told included. */
  function LogOf(moves: seq<LinkMove>): seq<Event> {
    if moves == [] then []
    else LogOf(moves[..|moves| - 1]) + Logged(moves[|moves| - 1])
  }

  function Logged(m: LinkMove): seq<Event> {
    match m
    case Push(message) => if message.TableEvent? then [message.event] else []
    case Unseen(e) => [e]
    case _ => []
  }

  /** At any point of a hand, whatever reconnects, replays and news come between any two steps,
      a seat's buffer is exactly its projection of the hand so far. */
  lemma {:induction false} BufferIsProjection(table: nat, i: nat, l: Link, moves: seq<LinkMove>)
    requires Course(table, i, l, moves)
    ensures Follow(l, moves).replay == Replay(Some(moves[0].hand), Projection(moves))
  {
    var n := |moves| - 1;
    if n == 0 {
      assert moves[..0] == [];
    } else {
      CourseLast(table, i, l, moves);
      BufferIsProjection(table, i, l, moves[..n]);
    }
  }

  /** A replay is read under the running hand's id only, and under none once it has ended. */
  lemma SnapshotsOnlyOfThisHand(table: nat, i: nat, l: Link, moves: seq<LinkMove>, other: nat)
    requires Course(table, i, l, moves)
    ensures var r := Follow(l, moves);
            && r.replay.Snapshot(other) == (if other == moves[0].hand then Some(Projection(moves)) else None)
            && Touch(r, End).replay.Snapshot(other) == None
  {
    hide Follow, Projection;
    BufferIsProjection(table, i, l, moves);
  }

  /** A message that tells seat `i` nobody else's hole cards before the end of the hand. */
  predicate Discreet(i: nat, m: ServerMessage) {
    match m
    case TableEvent(_, e) => e.HoleCardsDealt? ==> e.seat == i
    case ReplayEvents(_, events) =>
      forall k :: 0 <= k < |events| ==>
        events[k].TableEvent? && events[k].event.HoleCardsDealt? ==> events[k].event.seat == i
    case _ => true
  }

  predicate AllDiscreet(i: nat, ms: seq<ServerMessage>) { forall k :: 0 <= k < |ms| ==> Discreet(i, ms[k]) }

  predicate DiscreetLink(i: nat, l: Link) {
    && AllDiscreet(i, l.sent) && AllDiscreet(i, l.replay.events)
    && (l.ticket.Some? ==> AllDiscreet(i, l.ticket.value.events))
    && (l.flight.Some? ==> Discreet(i, l.flight.value.message))
  }

  lemma TouchDiscreet(table: nat, i: nat, l: Link, m: LinkMove)
    requires DiscreetLink(i, l) && (Fits(table, i, l, m) || m.Begin?)
    ensures DiscreetLink(i, Touch(l, m))
  {
  }

  /** Nothing a seat is sent, live or replayed, over any reconnects, carries hole cards of
      another seat in a `HoleCardsDealt`. */
  lemma {:induction false} OnlyOwnHoleCards(table: nat, i: nat, l: Link, moves: seq<LinkMove>)
    requires Course(table, i, l, moves) && DiscreetLink(i, l)
    ensures DiscreetLink(i, Follow(l, moves))
  {
    hide DiscreetLink;
    var n := |moves| - 1;
    if n == 0 {
      assert moves[..0] == [];
      TouchDiscreet(table, i, l, moves[0]);
    } else {
      CourseLast(table, i, l, moves);
      OnlyOwnHoleCards(table, i, l, moves[..n]);
      TouchDiscreet(table, i, Follow(l, moves[..n]), moves[n]);
    }
  }

  /** No replay was sent to the connection bound now, and none is waiting for it. */
  predicate Unreplayed(l: Link) {
    l.ticket.None? && forall k :: 0 <= k < |l.sent| ==> !l.sent[k].ReplayEvents?
  }

  /** A new connection is sent a replay only if one is asked for over it: one asked for over the
      connection before it is lost with that. */
  lemma {:induction false} ReplaysAreAskedFor(table: nat, i: nat, l: Link, moves: seq<LinkMove>, k: nat)
    requires Course(table, i, l, moves) && 1 <= k < |moves| && moves[k].Swap?
    requires forall j :: k < j < |moves| ==> !moves[j].Request?
    ensures Unreplayed(Follow(l, moves))
    decreases |moves|
  {
    hide Course, Unreplayed, Follow;
    var n := |moves| - 1;
    CourseLast(table, i, l, moves);
    if k < n { ReplaysAreAskedFor(table, i, l, moves[..n], k); }
    CourseFlight(table, i, l, moves[..n]);
    StaysUnreplayed(table, i, Follow(l, moves[..n]), moves[n]);
  }

  lemma {:induction false} CourseFlight(table: nat, i: nat, l: Link, moves: seq<LinkMove>)
    requires Course(table, i, l, moves)
    ensures var f := Follow(l, moves).flight; f.Some? ==> !f.value.message.ReplayEvents?
  {
    hide Follow;
    var n := |moves| - 1;
    if n == 0 {
      BegunFlight(table, i, l, moves);
    } else {
      CourseLast(table, i, l, moves);
      CourseFlight(table, i, l, moves[..n]);
    }
  }

  lemma BegunFlight(table: nat, i: nat, l: Link, moves: seq<LinkMove>)
    requires Course(table, i, l, moves) && |moves| == 1
    ensures Follow(l, moves).flight.None?
  {
    assert moves[..0] == [];
  }

  lemma StaysUnreplayed(table: nat, i: nat, l: Link, m: LinkMove)
    requires Fits(table, i, l, m) && !m.Request? && (m.Swap? || Unreplayed(l))
    requires l.flight.Some? ==> !l.flight.value.message.ReplayEvents?
    ensures Unreplayed(Touch(l, m))
  {
  }

  // ---------------------------------------------------------------------------
  // The stream's shape
  // ---------------------------------------------------------------------------

  /** What a hand's stream is made of. */
  predicate OfHand(m: ServerMessage) { m.TableEvent? || m.Prompt? }

  predicate AllOfHand(ms: seq<ServerMessage>) { forall k :: 0 <= k < |ms| ==> OfHand(ms[k]) }

  /** Nothing yet, or one `HandStarted` of the table and then messages of the hand in progress. */
  predicate Stream(table: nat, ms: seq<ServerMessage>) {
    ms == [] ||
    (&& ms[0].TableEvent? && ms[0].table == table && ms[0].event.HandStarted?
     && forall k :: 1 <= k < |ms| ==>
          OfHand(ms[k]) && (ms[k].TableEvent? ==>
             ms[k].table == table && !ms[k].event.HandStarted? && !ms[k].event.HandEnded?))
  }

  predicate Streams(table: nat, l: Link) {
    && Stream(table, l.replay.events) && (l.ticket.Some? ==> AllOfHand(l.ticket.value.events))
    && (l.flight.Some? ==>
          match l.flight.value
          case Pushed(m) => m.TableEvent? && |l.replay.events| > 0 && l.replay.events[|l.replay.events| - 1] == m
          case Prompted(m) => m.Prompt? && |l.replay.events| > 0)
  }

  lemma TouchStreams(table: nat, i: nat, l: Link, m: LinkMove)
    requires Streams(table, l) && l.replay.hand.Some? && Fits(table, i, l, m)
    ensures Streams(table, Touch(l, m)) && Touch(l, m).replay.hand == l.replay.hand
  {
  }

  lemma {:induction false} FollowStreams(table: nat, i: nat, l: Link, moves: seq<LinkMove>)
    requires Course(table, i, l, moves) && (l.ticket.Some? ==> AllOfHand(l.ticket.value.events))
    ensures Streams(table, Follow(l, moves)) && Follow(l, moves).replay.hand == Some(moves[0].hand)
  {
    hide Streams;
    var n := |moves| - 1;
    if n == 0 {
      assert moves[..0] == [];
      BegunStreams(table, l, moves[0].hand);
    } else {
      CourseLast(table, i, l, moves);
      FollowStreams(table, i, l, moves[..n]);
      TouchStreams(table, i, Follow(l, moves[..n]), moves[n]);
    }
  }

  lemma BegunStreams(table: nat, l: Link, hand: nat)
    requires l.flight.None? && (l.ticket.Some? ==> AllOfHand(l.ticket.value.events))
    ensures Streams(table, l.Begin(hand))
  {
  }

  // ---------------------------------------------------------------------------
  // What the connection of a seat can know
  // ---------------------------------------------------------------------------

  /** What a client that never lost its connection has been sent of the hand: the buffer without
      the event still to be sent, or with the prompt still to be pushed. */
  function Due(l: Link): seq<ServerMessage> {
    match l.flight
    case Some(Pushed(_)) => if l.replay.events == [] then [] else l.replay.events[..|l.replay.events| - 1]
    case Some(Prompted(m)) => l.replay.events + [m]
    case None => l.replay.events
  }

  /** Telling it twice shows: of all events only board cards add up. */
  predicate Repeats(m: ServerMessage) { m.TableEvent? && m.event.BoardDealt? && m.event.cards != [] }

  /** The last prompt of a stream. */
  function Standing(ms: seq<ServerMessage>): Option<ServerMessage> {
    if ms == [] then None
    else if ms[|ms| - 1].Prompt? then Some(ms[|ms| - 1])
    else Standing(ms[..|ms| - 1])
  }

  predicate SamePrompt(a: ServerMessage, b: ServerMessage) {
    a.Prompt? && b.Prompt? && a.table == b.table && a.hand == b.hand && a.seat == b.seat && a.legal == b.legal
  }

  /** Blind: told its seat, and nothing of the hand that counts. Clear: told just what a client
      that never lost its connection has been told. Ahead: told, by a replay, also the event that
      is about to be sent to it. Stale: anything else. */
  datatype Sight = Blind | Clear | Ahead | Stale

  function SightAfter(was: Sight, l: Link, m: LinkMove): Sight {
    match m
    case Begin(_) => Stale
    case Deliver(message) =>
      if message.TableEvent? && message.event.HandStarted? then Clear
      else if was.Ahead? then if Repeats(message) then Stale else Clear
      else was
    case AskSend(c, _) => if was.Clear? && c != l.conn then Stale else was
    case Swap(_, _) => Blind
    case Reprompt(c, message) =>
      if c != l.conn || was.Blind? || was.Stale? then was
      else
        var last := Standing(l.replay.events);
        if l.flight.None? && last.Some? && SamePrompt(message, last.value) then was else Stale
    case Serve =>
      if l.ticket.None? || l.ticket.value.events == [] then was
      else if l.ticket.value.events == Due(l) then Clear
      else if l.flight.Some? && l.flight.value.Pushed? && l.ticket.value.events == l.replay.events then Ahead
      else Stale
    case _ => was
  }

  function SightOf(l: Link, moves: seq<LinkMove>): Sight {
    if moves == [] then Stale
    else
      var n := |moves| - 1;
      SightAfter(SightOf(l, moves[..n]), Follow(l, moves[..n]), moves[n])
  }
}
