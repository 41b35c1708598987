/** Between hands: what a client shows once its hand has ended, and the one way in which it can
    show the finished hand again. */
module AfterHand {
  import opened Types
  import opened Protocol
  import opened Links
  import opened Sinks
  import opened Clients
  import opened ClientRuns
  import opened Views

  /** A replay waiting to be sent is a stream of the table. */
  predicate TicketOk(table: nat, l: Link) { l.ticket.Some? ==> Stream(table, l.ticket.value.events) }

  lemma {:induction false} CourseTickets(table: nat, i: nat, l: Link, moves: seq<LinkMove>)
    requires Course(table, i, l, moves) && TicketOk(table, l)
    ensures TicketOk(table, Follow(l, moves))
  {
    hide Stream;
    var n := |moves| - 1;
    if n == 0 {
      assert moves[..0] == [];
    } else {
      CourseLast(table, i, l, moves);
      CourseTickets(table, i, l, moves[..n]);
      StreamAllOfHand(table, l);
      FollowStreams(table, i, l, moves[..n]);
    }
  }

  lemma StreamAllOfHand(table: nat, l: Link)
    requires TicketOk(table, l)
    ensures l.ticket.Some? ==> AllOfHand(l.ticket.value.events)
  {
  }

  // ---------------------------------------------------------------------------
  // The end
  // ---------------------------------------------------------------------------

  /** What the hand's thread does last: the result is buffered and sent, and the buffer sealed. */
  function Closed(l: Link, table: nat, id: nat, result: HandResult): Link {
    l.Send(TableEvent(table, HandEnded(id, result))).End()
  }

  /** Told the result, a client shows no hand and no prompt, and stays where it sits. */
  lemma EndHides(d: Core, l: Link, table: nat, id: nat, result: HandResult)
    requires AtTable(Hears(d, l), table)
    ensures var r := Closed(l, table, id, result); var c := Hears(d, r);
            && AtTable(c, table) && c.view.hand.None? && c.prompt.None? && c.view.phase == Hears(d, l).view.phase
            && r.replay == Replay(None, []) && r.flight.None? && r.ticket == l.ticket
  {
    hide Play;
    HearsMore(d, l, Closed(l, table, id, result), TableEvent(table, HandEnded(id, result)));
  }

  /** The sink's closing event does this at every link, with the result as that seat may see it, and
      readies the sink for the next hand. */
  lemma SinkCloses(s: Sink, i: nat, id: nat, result: HandResult, d: Core)
    requires i < |s.links| && AtTable(Hears(d, s.links[i]), s.table)
    ensures var r := OnEvent(s, HandEnded(id, result));
            && |r.links| == |s.links| && r.links[i] == Closed(s.links[i], s.table, id, Filtered(s, i, result))
            && r.folded == {} && r.boardCards == 0
            && AtTable(Hears(d, r.links[i]), s.table) && Hears(d, r.links[i]).view.hand.None?
  {
    hide Hears, Filtered;
    EndHides(d, s.links[i], s.table, id, Filtered(s, i, result));
  }

  // ---------------------------------------------------------------------------
  // Until the next hand
  // ---------------------------------------------------------------------------

  /** What sessions may do to a link between hands. */
  predicate Idles(table: nat, m: LinkMove) {
    match m
    case Tell(message) => Aside(message)
    case Swap(_, joined) => joined.JoinedTable? && joined.table == table
    case Reprompt(_, message) => message.Prompt?
    case Request(_) => true
    case Serve => true
    case _ => false
  }

  /** The connection bound now has been sent a replay read before the end. */
  predicate Revived(l: Link, moves: seq<LinkMove>) {
    moves != [] &&
    var n := |moves| - 1;
    var r := Follow(l, moves[..n]);
    if moves[n].Swap? then false
    else Revived(l, moves[..n]) || (moves[n].Serve? && r.ticket.Some? && r.ticket.value.events != [])
  }

  ghost predicate Resting(table: nat, l: Link) {
    l.replay == Replay(None, []) && TicketOk(table, l)
  }

  lemma {:induction false} StreamHasHand(p: Clients.Phase, ms: seq<ServerMessage>)
    requires p.Seated? && Stream(p.table, ms) && ms != []
    ensures Reference(p, ms).view.phase == p && Reference(p, ms).view.hand.Some?
  {
    hide Reference, Project;
    var n := |ms| - 1;
    assert ms == ms[..n] + [ms[n]];
    ReferenceOn(p, ms[..n], ms[n]);
    if n == 0 {
      assert ms[..0] == [];
      EmptyReference(p);
      EventKeepsHand(Reference(p, []), ms[0]);
    } else {
      StreamHasHand(p, ms[..n]);
      if ms[n].TableEvent? { EventKeepsHand(Reference(p, ms[..n]), ms[n]); }
    }
  }

  lemma EmptyReference(p: Clients.Phase)
    ensures Reference(p, []).view.phase == p
  {
    PlayNothing(SeatedCore(p));
  }

  lemma EventKeepsHand(c: Core, m: ServerMessage)
    requires m.TableEvent? && AtTable(c, m.table) && !m.event.HandEnded?
    ensures OnPlain(c, m).core.view.phase == c.view.phase
    ensures m.event.HandStarted? || c.view.hand.Some? ==> OnPlain(c, m).core.view.hand.Some?
  {
  }

  lemma ServedHand(c: Core, table: nat, hand: nat, events: seq<ServerMessage>)
    requires AtTable(c, table) && Stream(table, events)
    ensures var r := OnMessage(c, ReplayEvents(hand, events)).core;
            AtTable(r, table) && (if events == [] then r == c else r.view.hand.Some?)
  {
    hide OnMessage, Reference, Stream;
    StreamIsOfHand(table, events);
    ReplayedAny(c, table, hand, events);
    if events != [] {
      Replayed(c, table, hand, events);
      StreamHasHand(c.view.phase, events);
    }
  }

  lemma StreamIsOfHand(table: nat, events: seq<ServerMessage>)
    requires Stream(table, events)
    ensures AllOfHand(events)
  {
  }

  lemma QuietHand(c: Core, m: ServerMessage, table: nat)
    requires AtTable(c, table) && (Aside(m) || m.Prompt?)
    ensures var r := OnMessage(c, m).core; AtTable(r, table) && (r.view.hand.Some? <==> c.view.hand.Some?)
  {
  }

  lemma JoinedHand(d: Core, m: ServerMessage, table: nat)
    requires m.JoinedTable? && m.table == table
    ensures AtTable(OnMessage(d, m).core, table) && OnMessage(d, m).core.view.hand.None?
  {
  }

  /** One move between hands. */
  lemma IdleStep(d: Core, table: nat, l: Link, m: LinkMove)
    requires Idles(table, m) && Resting(table, l) && AtTable(Hears(d, l), table)
    ensures var r := Touch(l, m); var c, c' := Hears(d, l), Hears(d, r);
            && Resting(table, r) && AtTable(c', table)
            && (c'.view.hand.Some? <==>
                  !m.Swap? && (c.view.hand.Some? || (m.Serve? && l.ticket.Some? && l.ticket.value.events != [])))
  {
    hide Play, OnMessage, Hears;
    var r := Touch(l, m);
    match m
    case Tell(message) =>
      HearsMore(d, l, r, message);
      QuietHand(Hears(d, l), message, table);
    case Swap(_, joined) =>
      HearsFirst(d, r);
      JoinedHand(d, joined, table);
    case Reprompt(conn, message) =>
      if conn == l.conn {
        HearsMore(d, l, r, message);
        QuietHand(Hears(d, l), message, table);
      }
    case Request(_) => SameSent(d, l, r);
    case Serve =>
      if l.ticket.Some? {
        HearsMore(d, l, r, ReplayEvents(l.ticket.value.hand, l.ticket.value.events));
        ServedHand(Hears(d, l), table, l.ticket.value.hand, l.ticket.value.events);
      }
  }

  lemma {:induction false} IdleShows(d: Core, table: nat, l: Link, moves: seq<LinkMove>)
    requires Resting(table, l) && AtTable(Hears(d, l), table) && Hears(d, l).view.hand.None?
    requires forall k :: 0 <= k < |moves| ==> Idles(table, moves[k])
    ensures var r := Follow(l, moves);
            && Resting(table, r) && AtTable(Hears(d, r), table)
            && (Hears(d, r).view.hand.Some? <==> Revived(l, moves))
  {
    hide Touch, Hears, Resting;
    if moves != [] {
      var n := |moves| - 1;
      IdleShows(d, table, l, moves[..n]);
      IdleStep(d, table, Follow(l, moves[..n]), moves[n]);
    }
  }

  /** After a hand, until the next begins, whatever news, reconnects and late replays come: the client
      of a seat shows no hand, exactly unless its connection was sent a replay that had been read
      before the end. Then it shows the finished hand again. */
  lemma ShownAfterTheEnd(table: nat, i: nat, l: Link, moves: seq<LinkMove>, id: nat, result: HandResult, d: Core,
      later: seq<LinkMove>)
    requires Course(table, i, l, moves) && TicketOk(table, l) && AtTable(Hears(d, Follow(l, moves)), table)
    requires forall k :: 0 <= k < |later| ==> Idles(table, later[k])
    ensures var r := Closed(Follow(l, moves), table, id, result); var c := Hears(d, Follow(r, later));
            && AtTable(c, table) && (c.view.hand.Some? <==> Revived(r, later))
  {
    hide Follow, Hears, Course, Revived;
    var last := Follow(l, moves);
    CourseTickets(table, i, l, moves);
    EndHides(d, last, table, id, result);
    IdleShows(d, table, Closed(last, table, id, result), later);
  }
}
