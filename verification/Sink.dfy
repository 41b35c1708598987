/** The table's event fan-out (`BroadcastSink`): what it tells each seat, what it keeps of the
    hand, and how that agrees with the engine. */
module Sinks {
  import opened Types
  import opened Sums
  import opened PotCalc
  import opened Showdown
  import opened Betting
  import opened Tree
  import opened Order
  import opened Story
  import opened Invariants
  import opened Theorems
  import opened Rulebook
  import opened Protocol
  import opened Links

  /** `log` is the unfiltered event stream the sink keeps for the hand's record. */
  datatype Sink = Sink(table: nat, folded: set<nat>, boardCards: nat, links: seq<Link>, log: seq<Event>)

  function Contenders(folded: set<nat>, n: nat): nat {
    if n == 0 then 0 else Contenders(folded, n - 1) + if n - 1 !in folded then 1 else 0
  }

  /** The sink's own idea of a showdown. */
  predicate LooksLikeShowdown(s: Sink) { s.boardCards >= 5 && Contenders(s.folded, |s.links|) >= 2 }

  function FilterSeat(s: Sink, recipient: nat, o: SeatOutcome): SeatOutcome {
    if o.seat == recipient || (LooksLikeShowdown(s) && o.seat !in s.folded) then o else o.(hole := None)
  }

  /** The hand's result as one seat may see it. */
  function Filtered(s: Sink, recipient: nat, r: HandResult): HandResult {
    r.(seats := seq(|r.seats|, k requires 0 <= k < |r.seats| => FilterSeat(s, recipient, r.seats[k])))
  }

  function SendAll(ls: seq<Link>, m: ServerMessage): (r: seq<Link>)
    ensures |r| == |ls| && forall i :: 0 <= i < |ls| ==> r[i] == ls[i].Send(m)
  {
    seq(|ls|, i requires 0 <= i < |ls| => ls[i].Send(m))
  }

  function BeginAll(ls: seq<Link>, id: nat): (r: seq<Link>)
    ensures |r| == |ls| && forall i :: 0 <= i < |ls| ==> r[i] == ls[i].Begin(id)
  {
    seq(|ls|, i requires 0 <= i < |ls| => ls[i].Begin(id))
  }

  /** The last message of the hand, masked for seat `i`. */
  function Closing(s: Sink, i: nat, id: nat, result: HandResult): ServerMessage {
    TableEvent(s.table, HandEnded(id, Filtered(s, i, result)))
  }

  function OnEvent(s: Sink, e: Event): Sink {
    var log := s.log + [e];
    match e
    case HandStarted(id, _, _) => s.(log := log, links := SendAll(BeginAll(s.links, id), TableEvent(s.table, e)))
    case HoleCardsDealt(seat, _) =>
      if seat < |s.links| then s.(log := log, links := s.links[seat := s.links[seat].Send(TableEvent(s.table, e))])
      else s.(log := log)
    case ActionTaken(seat, action, _) =>
      s.(log := log, folded := if action.Fold? then s.folded + {seat} else s.folded,
         links := SendAll(s.links, TableEvent(s.table, e)))
    case BoardDealt(_, cards) =>
      s.(log := log, boardCards := s.boardCards + |cards|, links := SendAll(s.links, TableEvent(s.table, e)))
    case PlayerAllIn(_, _) => s.(log := log, links := SendAll(s.links, TableEvent(s.table, e)))
    case HandEnded(id, result) =>
      Sink(s.table, {}, 0,
           seq(|s.links|, i requires 0 <= i < |s.links| => s.links[i].Send(Closing(s, i, id, result)).End()), log)
  }

  function Feed(s: Sink, log: seq<Event>): Sink {
    if log == [] then s else OnEvent(Feed(s, log[..|log| - 1]), log[|log| - 1])
  }

  /** The steps one event takes at the link of seat `i`. */
  function EventMoves(s: Sink, i: nat, e: Event): seq<LinkMove> {
    var m := TableEvent(s.table, e);
    match e
    case HandStarted(id, _, _) => [LinkMove.Begin(id), Push(m), Deliver(m)]
    case HoleCardsDealt(seat, _) => if seat == i then [Push(m), Deliver(m)] else [Unseen(e)]
    case HandEnded(id, result) => [Push(Closing(s, i, id, result)), Deliver(Closing(s, i, id, result)), LinkMove.End]
    case _ => [Push(m), Deliver(m)]
  }

  /** Undisturbed, an event does to each link what those steps do. */
  lemma FanOut(s: Sink, i: nat, e: Event)
    requires i < |s.links| && (s.links[i].flight.None? || e.HoleCardsDealt?)
    ensures |OnEvent(s, e).links| == |s.links| && OnEvent(s, e).links[i] == Follow(s.links[i], EventMoves(s, i, e))
  {
    hide Closing, Follow;
    var l, m := s.links[i], TableEvent(s.table, e);
    match e
    case HandStarted(id, _, _) => FollowThree(l, LinkMove.Begin(id), Push(m), Deliver(m));
    case HoleCardsDealt(seat, _) =>
      if seat == i { FollowTwo(l, Push(m), Deliver(m)); } else { FollowOne(l, Unseen(e)); }
    case HandEnded(id, result) =>
      var last := Closing(s, i, id, result);
      FollowThree(l, Push(last), Deliver(last), LinkMove.End);
    case _ => FollowTwo(l, Push(m), Deliver(m));
  }

  lemma FollowOne(l: Link, a: LinkMove)
    ensures Follow(l, [a]) == Touch(l, a)
  {
    FollowOn(l, [], a);
    assert [] + [a] == [a];
  }

  lemma FollowTwo(l: Link, a: LinkMove, b: LinkMove)
    ensures Follow(l, [a, b]) == Touch(Touch(l, a), b)
  {
    hide Touch, Follow;
    FollowOne(l, a);
    FollowOn(l, [a], b);
    assert [a] + [b] == [a, b];
  }

  lemma FollowThree(l: Link, a: LinkMove, b: LinkMove, c: LinkMove)
    ensures Follow(l, [a, b, c]) == Touch(Touch(Touch(l, a), b), c)
  {
    hide Touch, Follow;
    FollowTwo(l, a, b);
    FollowOn(l, [a, b], c);
    assert [a, b] + [c] == [a, b, c];
  }

  // ---------------------------------------------------------------------------
  // What a seat is told of a hand
  // ---------------------------------------------------------------------------

  /** The stream of a hand in progress: one start, and no end yet. */
  ghost predicate UnderWay(log: seq<Event>) {
    && log != [] && log[0].HandStarted?
    && forall k :: 1 <= k < |log| ==> !log[k].HandStarted? && !log[k].HandEnded?
  }

  /** The events seat `i` may see, as messages of the table: all but the others' hole cards. */
  function Visible(table: nat, i: nat, log: seq<Event>): seq<ServerMessage> {
    if log == [] then []
    else
      var e, before := log[|log| - 1], Visible(table, i, log[..|log| - 1]);
      if e.HoleCardsDealt? && e.seat != i then before else before + [TableEvent(table, e)]
  }

  /** The steps a hand so far has taken at the link of seat `i`. */
  function HandMoves(s: Sink, i: nat, log: seq<Event>): seq<LinkMove> {
    if log == [] then []
    else
      var n := |log| - 1;
      HandMoves(s, i, log[..n]) + EventMoves(Feed(s, log[..n]), i, log[n])
  }

  /** Seat `i` has been sent, and has in its buffer, just what it may see. */
  ghost predicate ToldSoFar(l: Link, r: Link, table: nat, i: nat, log: seq<Event>) {
    && log != [] && log[0].HandStarted?
    && r.conn == l.conn && r.flight.None? && r.sent == l.sent + Visible(table, i, log)
    && r.replay == Replay(Some(log[0].handId), Visible(table, i, log))
  }

  lemma FirstTold(s: Sink, i: nat, e: Event)
    requires i < |s.links| && e.HandStarted?
    ensures ToldSoFar(s.links[i], OnEvent(s, e).links[i], s.table, i, [e])
  {
    assert [e][..0] == [];
    assert Visible(s.table, i, [e]) == [TableEvent(s.table, e)];
  }

  lemma NextTold(s: Sink, l: Link, i: nat, log: seq<Event>, e: Event)
    requires i < |s.links| && ToldSoFar(l, s.links[i], s.table, i, log) && !e.HandStarted? && !e.HandEnded?
    ensures ToldSoFar(l, OnEvent(s, e).links[i], s.table, i, log + [e])
  {
    assert (log + [e])[..|log|] == log;
  }

  lemma OnEventShape(s: Sink, e: Event)
    ensures OnEvent(s, e).table == s.table && |OnEvent(s, e).links| == |s.links|
  {
  }

  /** Over a whole hand each seat is told, in order, every event but the others' hole cards, live and
      in its replay buffer alike. */
  lemma {:induction false} SinkTells(s: Sink, i: nat, log: seq<Event>)
    requires i < |s.links| && UnderWay(log)
    ensures var r := Feed(s, log);
            && r.table == s.table && |r.links| == |s.links|
            && ToldSoFar(s.links[i], r.links[i], s.table, i, log)
  {
    hide OnEvent, ToldSoFar;
    var n := |log| - 1;
    OnEventShape(Feed(s, log[..n]), log[n]);
    if n == 0 {
      assert log == [log[0]] && log[..0] == [];
      FirstTold(s, i, log[0]);
    } else {
      SinkTells(s, i, log[..n]);
      NextTold(Feed(s, log[..n]), s.links[i], i, log[..n], log[n]);
      assert log[..n] + [log[n]] == log;
    }
  }

  lemma CourseOn(table: nat, i: nat, l: Link, moves: seq<LinkMove>, m: LinkMove)
    requires Course(table, i, l, moves) && Fits(table, i, Follow(l, moves), m)
    ensures Course(table, i, l, moves + [m]) && Follow(l, moves + [m]) == Touch(Follow(l, moves), m)
    ensures LogOf(moves + [m]) == LogOf(moves) + Logged(m)
  {
    FollowOn(l, moves, m);
    var all := moves + [m];
    assert all[..|moves|] == moves;
    forall k | 1 <= k < |all| ensures Fits(table, i, Follow(l, all[..k]), all[k]) {
      assert all[..k] == moves[..k];
    }
  }

  lemma EventCourse(table: nat, i: nat, l: Link, moves: seq<LinkMove>, e: Event)
    requires Course(table, i, l, moves) && Follow(l, moves).flight.None?
    requires !e.HandEnded? && (e.HandStarted? <==> Follow(l, moves).replay.events == [])
    ensures var m := TableEvent(table, e);
            var more := if e.HoleCardsDealt? && e.seat != i then [Unseen(e)] else [Push(m), Deliver(m)];
            && Course(table, i, l, moves + more) && LogOf(moves + more) == LogOf(moves) + [e]
            && Follow(l, moves + more) ==
               if e.HoleCardsDealt? && e.seat != i then Follow(l, moves) else Follow(l, moves).Send(m)
  {
    hide Course, Follow, LogOf;
    var m := TableEvent(table, e);
    if e.HoleCardsDealt? && e.seat != i {
      CourseOn(table, i, l, moves, Unseen(e));
    } else {
      CourseOn(table, i, l, moves, Push(m));
      CourseOn(table, i, l, moves + [Push(m)], Deliver(m));
      assert moves + [Push(m), Deliver(m)] == moves + [Push(m)] + [Deliver(m)];
    }
  }

  /** ... and the steps it takes to tell them are a course of the link in the sense of module Links,
      whose log is the hand's; so what is proved of courses holds of every hand the sink tells. */
  lemma {:induction false} SinkKeepsCourse(s: Sink, i: nat, log: seq<Event>)
    requires i < |s.links| && UnderWay(log) && s.links[i].flight.None?
    ensures var moves := HandMoves(s, i, log);
            && Course(s.table, i, s.links[i], moves) && LogOf(moves) == log
            && |Feed(s, log).links| == |s.links| && Follow(s.links[i], moves) == Feed(s, log).links[i]
  {
    hide Course, Follow, LogOf, OnEvent, Visible;
    var n := |log| - 1;
    SinkTells(s, i, log);
    var before := Feed(s, log[..n]);
    var m := TableEvent(s.table, log[n]);
    if n == 0 {
      assert log == [log[0]] && log[..0] == [];
      BegunCourse(s, i, log[0]);
    } else {
      SinkTells(s, i, log[..n]);
      SinkKeepsCourse(s, i, log[..n]);
      var moves := HandMoves(s, i, log[..n]);
      SomethingTold(s.table, i, log[..n]);
      EventCourse(s.table, i, s.links[i], moves, log[n]);
      OnEventAt(before, i, log[n]);
      assert log[..n] + [log[n]] == log;
    }
  }

  lemma BegunCourse(s: Sink, i: nat, e: Event)
    requires i < |s.links| && e.HandStarted? && s.links[i].flight.None?
    ensures var moves := HandMoves(s, i, [e]);
            && Course(s.table, i, s.links[i], moves) && LogOf(moves) == [e]
            && Follow(s.links[i], moves) == OnEvent(s, e).links[i]
  {
    hide Course, Follow, LogOf;
    var l, begin := s.links[i], LinkMove.Begin(e.handId);
    assert [e][..0] == [];
    BeginCourse(s.table, i, l, e.handId);
    EventCourse(s.table, i, l, [begin], e);
    assert HandMoves(s, i, [e]) == [begin] + [Push(TableEvent(s.table, e)), Deliver(TableEvent(s.table, e))];
  }

  lemma BeginCourse(table: nat, i: nat, l: Link, id: nat)
    requires l.flight.None?
    ensures var moves := [LinkMove.Begin(id)];
            Course(table, i, l, moves) && LogOf(moves) == [] && Follow(l, moves) == l.Begin(id)
  {
    assert [LinkMove.Begin(id)][..0] == [];
  }

  lemma {:induction false} SomethingTold(table: nat, i: nat, log: seq<Event>)
    requires log != [] && log[0].HandStarted?
    ensures Visible(table, i, log) != []
  {
    if |log| > 1 { SomethingTold(table, i, log[..|log| - 1]); }
  }

  lemma OnEventAt(s: Sink, i: nat, e: Event)
    requires i < |s.links| && !e.HandStarted? && !e.HandEnded?
    ensures OnEvent(s, e).links[i] ==
            if e.HoleCardsDealt? && e.seat != i then s.links[i] else s.links[i].Send(TableEvent(s.table, e))
  {
  }

  /** The fan-out as an object. */
  class BroadcastSink {
    const table: nat
    var folded: set<nat>
    var boardCards: nat
    var links: seq<Link>
    var log: seq<Event>

    ghost function View(): Sink
      reads this
    {
      Sink(table, folded, boardCards, links, log)
    }

    constructor (t: nat, ls: seq<Link>)
      ensures View() == Sink(t, {}, 0, ls, [])
    {
      table, folded, boardCards, links, log := t, {}, 0, ls, [];
    }

    method BroadcastAll(m: ServerMessage)
      modifies this`links
      ensures links == SendAll(old(links), m)
    {
      for i := 0 to |links|
        invariant |links| == |old(links)|
        invariant forall k :: 0 <= k < i ==> links[k] == old(links)[k].Send(m)
        invariant forall k :: i <= k < |links| ==> links[k] == old(links)[k]
      {
        links := links[i := links[i].Push(m)];
        links := links[i := links[i].Deliver(m)];
      }
    }

    method BeginReplays(id: nat)
      modifies this`links
      ensures links == BeginAll(old(links), id)
    {
      for i := 0 to |links|
        invariant |links| == |old(links)|
        invariant forall k :: 0 <= k < i ==> links[k] == old(links)[k].Begin(id)
        invariant forall k :: i <= k < |links| ==> links[k] == old(links)[k]
      {
        links := links[i := links[i].Begin(id)];
      }
    }

    /** Everybody's masked result first, then every buffer is sealed. */
    method Close(id: nat, result: HandResult)
      modifies this`links
      ensures |links| == |old(links)|
      ensures forall k :: 0 <= k < |links| ==> links[k] == old(links)[k].Send(Closing(old(View()), k, id, result)).End()
    {
      ghost var before := View();
      for i := 0 to |links|
        invariant |links| == |old(links)|
        invariant forall k :: 0 <= k < i ==> links[k] == old(links)[k].Send(Closing(before, k, id, result))
        invariant forall k :: i <= k < |links| ==> links[k] == old(links)[k]
      {
        var m := Closing(Sink(table, folded, boardCards, links, log), i, id, result);
        assert m == Closing(before, i, id, result) by { SameMask(View(), before, i, result); }
        links := links[i := links[i].Push(m)];
        links := links[i := links[i].Deliver(m)];
      }
      for i := 0 to |links|
        invariant |links| == |old(links)|
        invariant forall k :: 0 <= k < i ==> links[k] == old(links)[k].Send(Closing(before, k, id, result)).End()
        invariant forall k :: i <= k < |links| ==> links[k] == old(links)[k].Send(Closing(before, k, id, result))
      {
        links := links[i := links[i].End()];
      }
    }

    method HandleEvent(e: Event)
      modifies this
      ensures View() == OnEvent(old(View()), e)
    {
      log := log + [e];
      match e {
        case HandStarted(id, _, _) =>
          BeginReplays(id);
          BroadcastAll(TableEvent(table, e));
        case HoleCardsDealt(seat, _) =>
          if seat < |links| { links := links[seat := links[seat].Send(TableEvent(table, e))]; }
        case ActionTaken(seat, action, _) =>
          if action.Fold? { folded := folded + {seat}; }
          BroadcastAll(TableEvent(table, e));
        case BoardDealt(_, cards) =>
          boardCards := boardCards + |cards|;
          BroadcastAll(TableEvent(table, e));
        case PlayerAllIn(_, _) =>
          BroadcastAll(TableEvent(table, e));
        case HandEnded(id, result) =>
          ghost var before := View();
          Close(id, result);
          forall k | 0 <= k < |links| ensures Closing(before, k, id, result) == Closing(old(View()), k, id, result) {
            SameMask(before, old(View()), k, result);
          }
          folded, boardCards := {}, 0;
      }
    }
  }

  /** Masking looks at the folded seats, the board count and the number of seats only. */
  lemma SameMask(s: Sink, t: Sink, i: nat, result: HandResult)
    requires s.folded == t.folded && s.boardCards == t.boardCards && |s.links| == |t.links|
    ensures Filtered(s, i, result) == Filtered(t, i, result)
  {
    assert forall k :: 0 <= k < |result.seats| ==>
      FilterSeat(s, i, result.seats[k]) == FilterSeat(t, i, result.seats[k]);
  }

  // ---------------------------------------------------------------------------
  // Agreement with the engine
  // ---------------------------------------------------------------------------

  lemma {:induction false} OnEventCounts(s: Sink, before: seq<Event>, e: Event)
    requires !e.HandEnded? && s.folded == FoldedIn(before) && s.boardCards == |BoardIn(before)|
    ensures var r := OnEvent(s, e);
            && r.folded == FoldedIn(before + [e]) && r.boardCards == |BoardIn(before + [e])|
            && |r.links| == |s.links| && r.log == s.log + [e]
  {
    SeenOn(before, e);
  }

  lemma {:induction false} SinkSees(s: Sink, log: seq<Event>)
    requires s.folded == {} && s.boardCards == 0
    requires forall k :: 0 <= k < |log| ==> !log[k].HandEnded?
    ensures var r := Feed(s, log);
            && r.folded == FoldedIn(log) && r.boardCards == |BoardIn(log)|
            && |r.links| == |s.links| && r.log == s.log + log
  {
    hide OnEvent;
    if log != [] {
      var n := |log| - 1;
      SinkSees(s, log[..n]);
      OnEventCounts(Feed(s, log[..n]), log[..n], log[n]);
      assert log[..n] + [log[n]] == log;
    }
  }

  lemma {:induction false} NoEndYet(log: seq<Event>, k: nat)
    requires k < |log| && Read(log).Some? && Read(log) != Some(Over)
    ensures !log[k].HandEnded?
  {
    var n := |log| - 1;
    if k < n { NoEndYet(log[..n], k); }
  }

  lemma {:induction false} ContendersCount(folded: set<nat>, ps: seq<Player>, n: nat)
    requires n <= |ps| && forall i :: 0 <= i < |ps| ==> (ps[i].StillIn() <==> i !in folded)
    ensures Contenders(folded, n) == StillInCount(ps[..n])
  {
    if n > 0 {
      ContendersCount(folded, ps, n - 1);
      assert ps[..n][..n - 1] == ps[..n - 1];
    }
  }

  /** A hand as the server runs it: no dead hands, everybody has chips, two seats or more. */
  ghost predicate ServerHand(u: Setup) {
    u.kinds.None? && |u.stacks| >= 2 && forall i :: 0 <= i < |u.stacks| ==> u.stacks[i] > 0
  }

  lemma ServerHandPlayable(u: Setup)
    requires ServerHand(u)
    ensures Playable(u) && TwoLive(u)
  {
    assert LiveSeat(u, 0) && LiveSeat(u, 1);
  }

  /** Where the sink stands when a hand has been played to some point. */
  function SinkAfter(table: nat, links: seq<Link>, t: Node): Sink {
    Feed(Sink(table, {}, 0, links, []), t.hand.log)
  }

  /** The sink's folded seats are the engine's, at every point of every server hand. */
  lemma SinkAgrees(e: Engine, u: Setup, script: seq<Action>, table: nat, links: seq<Link>)
    requires ServerHand(u) && Playable(u) && |links| == |u.stacks|
    ensures var t := Played(e, u, script); var s := SinkAfter(table, links, t);
            && |t.hand.g.players| == |u.stacks| == |s.links| && s.boardCards == |t.hand.g.board|
            && s.log == t.hand.log
            && (forall i :: 0 <= i < |u.stacks| ==> (t.hand.g.players[i].status.Folded? <==> i in s.folded))
            && (forall i :: 0 <= i < |u.stacks| ==> (t.hand.g.players[i].StillIn() <==> i !in s.folded))
            && Contenders(s.folded, |s.links|) == StillInCount(t.hand.g.players)
  {
    hide Played, Good, FromDeck, Read, Feed, Contenders, StillInCount;
    PlayedGood(e, u, script);
    var t := Played(e, u, script);
    GoodRecord(e, u, t);
    forall k | 0 <= k < |t.hand.log| ensures !t.hand.log[k].HandEnded? { NoEndYet(t.hand.log, k); }
    SinkSees(Sink(table, {}, 0, links, []), t.hand.log);
    var s := SinkAfter(table, links, t);
    forall i | 0 <= i < |u.stacks|
      ensures t.hand.g.players[i].status.Folded? <==> i in s.folded
      ensures t.hand.g.players[i].StillIn() <==> i !in s.folded
    {
      GoodOut(e, u, t, i);
    }
    ContendersCount(s.folded, t.hand.g.players, |u.stacks|);
    assert t.hand.g.players[..|u.stacks|] == t.hand.g.players;
  }

  lemma {:induction false} StartsOnce(log: seq<Event>, k: nat)
    requires 1 <= k < |log| && Read(log).Some?
    ensures !log[k].HandStarted?
  {
    var n := |log| - 1;
    if k < n {
      StartsOnce(log[..n], k);
    } else {
      NotBlank(log[..n]);
    }
  }

  lemma NotBlank(log: seq<Event>)
    requires log != [] && Read(log).Some?
    ensures Read(log) != Some(Blank)
  {
  }

  lemma PlayedUnderWay(e: Engine, u: Setup, script: seq<Action>)
    requires Playable(u)
    ensures UnderWay(Played(e, u, script).hand.log)
    ensures Played(e, u, script).hand.log[0] == HandStarted(u.handId, u.dealer, u.seed)
  {
    hide Played, Good, FromDeck, Read, Seen;
    PlayedGood(e, u, script);
    PlayedIdentity(e, u, script);
    var log := Played(e, u, script).hand.log;
    GoodRecord(e, u, Played(e, u, script));
    forall k | 1 <= k < |log| ensures !log[k].HandStarted? && !log[k].HandEnded? {
      StartsOnce(log, k);
      NoEndYet(log, k);
    }
  }

  /** At every point of every hand: what each seat has been sent of it, and what its buffer holds
      under the hand's number, is the engine's stream without the others' hole cards, in order. */
  lemma EverySeatIsTold(e: Engine, u: Setup, script: seq<Action>, table: nat, links: seq<Link>, i: nat)
    requires Playable(u) && i < |links|
    ensures var log := Played(e, u, script).hand.log; var s := SinkAfter(table, links, Played(e, u, script));
            && |s.links| == |links| && s.links[i].conn == links[i].conn
            && s.links[i].sent == links[i].sent + Visible(table, i, log)
            && s.links[i].replay == Replay(Some(u.handId), Visible(table, i, log))
  {
    hide Played, Feed, Visible;
    PlayedUnderWay(e, u, script);
    SinkTells(Sink(table, {}, 0, links, []), i, Played(e, u, script).hand.log);
  }

  lemma EndRoute(e: Engine, u: Setup, t: Node)
    requires Good(e, u, t) && t.phase.Terminal? && TwoLive(u)
    ensures t.hand.g.street == Street.Showdown ==> |t.hand.g.board| == 5 && StillInCount(t.hand.g.players) >= 2
    ensures t.hand.g.street != Street.Showdown ==> |t.hand.g.board| < 5 || StillInCount(t.hand.g.players) < 2
  {
    hide Table, Read, Even, ActivePaid, Told, Level, Paying, Bounded, ResolveShowdown,
      AwardUncontested, TwoLive;
    if ShownDown(e, u, t) {
      var h :| AtShowdown(e.rules, u, h) && t == ResolveShowdown(e, h);
      ResolvedSame(e, h);
      ResolveKeepsRecord(e, h);
      SumSame(h.g.players, StillInOf, t.hand.g.players, StillInOf);
    } else {
      var h, w: nat :| LastStanding(e.rules, u, h, w) && t == AwardUncontested(h, w);
      AwardKeepsRecord(h, w);
      SumSame(h.g.players, StillInOf, t.hand.g.players, StillInOf);
    }
  }

  /** The sink takes a hand for a showdown exactly when the engine paid it through one. */
  lemma SinkKnowsShowdowns(e: Engine, u: Setup, script: seq<Action>, table: nat, links: seq<Link>)
    requires ServerHand(u) && Playable(u) && |links| == |u.stacks| && Played(e, u, script).phase.Terminal?
    ensures var t := Played(e, u, script);
            LooksLikeShowdown(SinkAfter(table, links, t)) <==> t.hand.g.street == Street.Showdown
  {
    hide Played, Good, Feed, Contenders, StillInCount, SinkAfter, TwoLive;
    ServerHandPlayable(u);
    SinkAgrees(e, u, script, table, links);
    PlayedGood(e, u, script);
    EndRoute(e, u, Played(e, u, script));
  }

  /** What the masked result shows seat `i`: its own cards always, another seat's exactly when
      the hand was shown down and that seat had not folded. */
  lemma MaskedResult(e: Engine, u: Setup, script: seq<Action>, table: nat, links: seq<Link>, i: nat,
      result: HandResult, k: nat)
    requires ServerHand(u) && Playable(u) && |links| == |u.stacks| && Played(e, u, script).phase.Terminal?
    requires k < |result.seats| && result.seats[k].seat < |u.stacks|
    ensures var t := Played(e, u, script); var o := result.seats[k]; var shown := Filtered(SinkAfter(table, links,
            t), i, result).seats[k];
            && |t.hand.g.players| == |u.stacks|
            && shown == o.(hole := if o.seat == i || (t.hand.g.street == Street.Showdown &&
               t.hand.g.players[o.seat].StillIn()) then o.hole else None)
  {
    hide Played, Feed, Contenders, StillInCount, SinkAfter, LooksLikeShowdown;
    SinkKnowsShowdowns(e, u, script, table, links);
    SinkAgrees(e, u, script, table, links);
  }
}
