/** Asking a remote player for an action: the prompt's one-shot responder, the slot of each
    connection it may wait in, reconnects that carry it over, cancellation, timeouts. Every
    lock-sized step of every participant is one move; any number of agents, connections and
    reconnects run at once. */
module Prompts {
  import opened Types

  /** `PendingAction`: the responder of prompt number `p`, the question it answers, and the seat
      link the question was asked over. */
  datatype Pending = Pending(p: nat, link: nat, table: nat, hand: nat, seat: nat, legal: LegalActions)
  {
    /** The tests of `deliver_action`. */
    predicate Accepts(t: nat, h: nat, a: Action) { table == t && hand == h && legal.IsLegal(a) }
  }

  /** The sending half of a one-shot channel: unspent, spent on an action, or dropped. */
  datatype Sender = Open | Used(action: Action) | Dropped

  /** A channel, with the legal actions its prompt was asked with; `closed` once the asking
      agent has stopped listening. */
  datatype Channel = Channel(legal: LegalActions, sender: Sender, closed: bool)

  /** Where a responder can be: with the agent that made it, in a connection's slot, or lifted
      out by a reconnect. */
  datatype Place = Local(agent: nat) | Slot(conn: nat) | Carried(reconnect: nat)

  datatype Agent =
    | Idle
    | Looking(p: nat, legal: LegalActions, link: nat, conn: nat)
    | Ready(p: nat, legal: LegalActions, link: nat, conn: nat)
    | Listening(p: nat, legal: LegalActions, link: nat)
    | Folding(p: nat, legal: LegalActions, link: nat)
    | Sweeping(p: nat, legal: LegalActions, conn: nat)

  datatype Reconnect =
    | Done
    | Found(link: nat, from: nat, conn: nat)
    | Lifted(link: nat, conn: nat)
    | Bound(link: nat, conn: nat)

  /** What `act` returned for a prompt. */
  datatype Answer = Answer(p: nat, legal: LegalActions, action: Action)

  datatype State = State(
    links: map<nat, nat>, departed: set<nat>, held: map<Place, Pending>, channels: seq<Channel>,
    agents: map<nat, Agent>, reconnects: map<nat, Reconnect>, spent: seq<nat>, answers: seq<Answer>)

  datatype Move =
    | Ask(agent: nat, link: nat, table: nat, hand: nat, seat: nat, legal: LegalActions)
    | CheckDeparted(agent: nat)
    | PlacePending(agent: nat)
    | Receive(agent: nat)
    | NoticeDrop(agent: nat)
    | Timeout(agent: nat)
    | Resolve(agent: nat)
    | Sweep(agent: nat)
    | Deliver(conn: nat, table: nat, hand: nat, action: Action)
    | Depart(conn: nat)
    | DropSlot(conn: nat)
    | FindSeat(reconnect: nat, link: nat, conn: nat)
    | Lift(reconnect: nat)
    | Rebind(reconnect: nat)
    | Put(reconnect: nat)

  // ---------------------------------------------------------------------------
  // What can happen to a responder
  // ---------------------------------------------------------------------------

  function Resolved(cs: seq<Channel>, p: nat, to: Sender): seq<Channel> {
    if p < |cs| then cs[p := cs[p].(sender := to)] else cs
  }

  /** Dropped where it is, if anything is there. */
  function Drop(s: State, x: Place): State {
    if x !in s.held then s
    else s.(held := s.held - {x}, channels := Resolved(s.channels, s.held[x].p, Dropped))
  }

  /** Moved to an empty place. */
  function Moved(held: map<Place, Pending>, x: Place, y: Place): map<Place, Pending>
    requires x in held
  {
    (held - {x})[y := held[x]]
  }

  /** Moved to another place, dropping what was there. */
  function Shift(s: State, x: Place, y: Place): State {
    if x !in s.held || x == y then s
    else
      var r := Drop(s, y);
      r.(held := Moved(r.held, x, y))
  }

  /** Spent on an action; the send fails if nobody listens any more. */
  function Spend(s: State, x: Place, a: Action): State {
    if x !in s.held || s.held[x].p >= |s.channels| then s
    else
      var p := s.held[x].p;
      s.(held := s.held - {x}, spent := s.spent + [p],
         channels := Resolved(s.channels, p, if s.channels[p].closed then Dropped else Used(a)))
  }

  // ---------------------------------------------------------------------------
  // Moves
  // ---------------------------------------------------------------------------

  function AgentOf(s: State, i: nat): Agent { if i in s.agents then s.agents[i] else Idle }
  function ReconnectOf(s: State, r: nat): Reconnect { if r in s.reconnects then s.reconnects[r] else Done }

  function SetAgent(s: State, i: nat, g: Agent): State { s.(agents := s.agents[i := g]) }
  function SetReconnect(s: State, r: nat, x: Reconnect): State { s.(reconnects := s.reconnects[r := x]) }

  /** `act` returns; the receiving half goes with it. */
  function Return(s: State, i: nat, p: nat, legal: LegalActions, a: Action): State {
    s.(agents := s.agents[i := Idle], answers := s.answers + [Answer(p, legal, a)],
       channels := if p < |s.channels| then s.channels[p := s.channels[p].(closed := true)] else s.channels)
  }

  function Stopped(s: State, i: nat, g: Agent): State
    requires g.Listening?
  {
    s.(agents := s.agents[i := Folding(g.p, g.legal, g.link)],
       channels := if g.p < |s.channels| then s.channels[g.p := s.channels[g.p].(closed := true)] else s.channels)
  }

  function DeliverTo(s: State, c: nat, table: nat, hand: nat, a: Action): State {
    if Slot(c) in s.held && s.held[Slot(c)].Accepts(table, hand, a) then Spend(s, Slot(c), a) else s
  }

  /** Whether `deliver_action` reports success. */
  predicate Delivers(s: State, c: nat, table: nat, hand: nat, a: Action) {
    && Slot(c) in s.held && s.held[Slot(c)].Accepts(table, hand, a)
    && s.held[Slot(c)].p < |s.channels| && !s.channels[s.held[Slot(c)].p].closed
  }

  function StartAsk(s: State, i: nat, link: nat, table: nat, hand: nat, seat: nat, legal: LegalActions): State {
    if !AgentOf(s, i).Idle? || link !in s.links then s
    else
      var p := |s.channels|;
      s.(channels := s.channels + [Channel(legal, Open, false)],
         held := s.held[Local(i) := Pending(p, link, table, hand, seat, legal)],
         agents := s.agents[i := Looking(p, legal, link, s.links[link])])
  }

  function Next(s: State, m: Move): State {
    match m
    case Ask(i, link, table, hand, seat, legal) => StartAsk(s, i, link, table, hand, seat, legal)
    case CheckDeparted(i) =>
      var g := AgentOf(s, i);
      if !g.Looking? then s
      else if g.conn in s.departed then Return(Drop(s, Local(i)), i, g.p, g.legal, Fold)
      else SetAgent(s, i, Ready(g.p, g.legal, g.link, g.conn))
    case PlacePending(i) =>
      var g := AgentOf(s, i);
      if !g.Ready? then s else SetAgent(Shift(s, Local(i), Slot(g.conn)), i, Listening(g.p, g.legal, g.link))
    case Receive(i) =>
      var g := AgentOf(s, i);
      if g.Listening? && g.p < |s.channels| && s.channels[g.p].sender.Used?
      then Return(s, i, g.p, g.legal, s.channels[g.p].sender.action) else s
    case NoticeDrop(i) =>
      var g := AgentOf(s, i);
      if g.Listening? && g.p < |s.channels| && s.channels[g.p].sender.Dropped? then Stopped(s, i, g) else s
    case Timeout(i) =>
      var g := AgentOf(s, i);
      if g.Listening? then Stopped(s, i, g) else s
    case Resolve(i) =>
      var g := AgentOf(s, i);
      if g.Folding? && g.link in s.links then SetAgent(s, i, Sweeping(g.p, g.legal, s.links[g.link])) else s
    case Sweep(i) =>
      var g := AgentOf(s, i);
      if g.Sweeping? then Return(Drop(s, Slot(g.conn)), i, g.p, g.legal, Fold) else s
    case Deliver(c, table, hand, a) => DeliverTo(s, c, table, hand, a)
    case Depart(c) => s.(departed := s.departed + {c})
    case DropSlot(c) => Drop(s, Slot(c))
    case FindSeat(r, link, conn) =>
      if ReconnectOf(s, r).Done? && link in s.links then SetReconnect(s, r, Found(link, s.links[link], conn)) else s
    case Lift(r) =>
      var x := ReconnectOf(s, r);
      if x.Found? then SetReconnect(Shift(s, Slot(x.from), Carried(r)), r, Lifted(x.link, x.conn)) else s
    case Rebind(r) =>
      var x := ReconnectOf(s, r);
      if x.Lifted? then SetReconnect(s, r, Bound(x.link, x.conn)).(links := s.links[x.link := x.conn]) else s
    case Put(r) =>
      var x := ReconnectOf(s, r);
      if x.Bound? then SetReconnect(Shift(s, Carried(r), Slot(x.conn)), r, Done) else s
  }

  function Run(s: State, moves: seq<Move>): State {
    if moves == [] then s else Next(Run(s, moves[..|moves| - 1]), moves[|moves| - 1])
  }

  function Fresh(links: map<nat, nat>): State { State(links, {}, map[], [], map[], map[], [], []) }

  // ---------------------------------------------------------------------------
  // Linearity
  // ---------------------------------------------------------------------------

  /** No responder is in two places. */
  ghost predicate NoCopies(held: map<Place, Pending>) {
    forall x, y :: x in held && y in held && held[x].p == held[y].p ==> x == y
  }

  ghost predicate HeldSomewhere(held: map<Place, Pending>, p: nat) {
    exists x :: x in held && held[x].p == p
  }

  /** A responder is somewhere exactly as long as it is unspent. */
  ghost predicate Tracked(s: State) {
    && (forall x :: x in s.held ==>
          && s.held[x].p < |s.channels| && s.channels[s.held[x].p].sender.Open?
          && s.channels[s.held[x].p].legal == s.held[x].legal)
    && (forall p :: 0 <= p < |s.channels| && s.channels[p].sender.Open? ==> HeldSomewhere(s.held, p))
  }

  /** A spent responder is spent once, and on a legal action. */
  ghost predicate SpentOnce(s: State) {
    && (forall i, j :: 0 <= i < j < |s.spent| ==> s.spent[i] != s.spent[j])
    && (forall i :: 0 <= i < |s.spent| ==> s.spent[i] < |s.channels| && !s.channels[s.spent[i]].sender.Open?)
    && (forall p :: 0 <= p < |s.channels| && s.channels[p].sender.Used? ==>
          s.channels[p].legal.IsLegal(s.channels[p].sender.action) && p in s.spent)
  }

  ghost predicate Linear(s: State) { NoCopies(s.held) && Tracked(s) && SpentOnce(s) }

  /** An agent at work knows the question its own channel was made for. */
  predicate AgentOk(cs: seq<Channel>, g: Agent) {
    g.Idle? || (g.p < |cs| && cs[g.p].legal == g.legal)
  }

  ghost predicate AgentsOk(s: State) {
    forall i :: i in s.agents ==> AgentOk(s.channels, s.agents[i])
  }

  /** Every answer is legal for the very question it answers (folding always is). */
  ghost predicate AnswersOk(s: State) {
    forall k :: 0 <= k < |s.answers| ==>
      && s.answers[k].p < |s.channels| && s.channels[s.answers[k].p].legal == s.answers[k].legal
      && s.answers[k].legal.IsLegal(s.answers[k].action)
      && (s.answers[k].action == Fold || s.channels[s.answers[k].p].sender == Used(s.answers[k].action))
  }

  /** An agent keeps a responder to itself only until it has placed it. */
  ghost predicate PlacesOk(s: State) {
    forall i :: Local(i) in s.held ==> i in s.agents && (s.agents[i].Looking? || s.agents[i].Ready?)
  }

  ghost predicate Inv(s: State) { Linear(s) && AgentsOk(s) && PlacesOk(s) && AnswersOk(s) }

  lemma DropLinear(s: State, x: Place)
    requires Linear(s)
    ensures Linear(Drop(s, x)) && x !in Drop(s, x).held
  {
    var r := Drop(s, x);
    if x in s.held {
      assert NoCopies(r.held);
      assert SpentOnce(r) by { hide NoCopies; }
      forall p | 0 <= p < |r.channels| && r.channels[p].sender.Open? ensures HeldSomewhere(r.held, p) {
        assert HeldSomewhere(s.held, p);
        var y :| y in s.held && s.held[y].p == p;
        assert y in r.held;
      }
    }
  }

  lemma MovedNoCopies(held: map<Place, Pending>, x: Place, y: Place)
    requires NoCopies(held) && x in held && y !in held
    ensures NoCopies(Moved(held, x, y))
    ensures forall p :: HeldSomewhere(held, p) ==> HeldSomewhere(Moved(held, x, y), p)
  {
    var r := Moved(held, x, y);
    forall p | HeldSomewhere(held, p) ensures HeldSomewhere(r, p) {
      var z :| z in held && held[z].p == p;
      assert r[if z == x then y else z].p == p;
    }
  }

  lemma MoveLinear(s: State, x: Place, y: Place)
    requires Linear(s) && x in s.held && y !in s.held
    ensures Linear(s.(held := Moved(s.held, x, y)))
  {
    hide NoCopies, SpentOnce, HeldSomewhere;
    MovedNoCopies(s.held, x, y);
    SameSpending(s, s.(held := Moved(s.held, x, y)));
  }

  lemma ShiftLinear(s: State, x: Place, y: Place)
    requires Linear(s)
    ensures Linear(Shift(s, x, y))
  {
    hide Linear;
    if x in s.held && x != y {
      DropLinear(s, y);
      MoveLinear(Drop(s, y), x, y);
    }
  }

  lemma SameSpending(s: State, r: State)
    requires r.channels == s.channels && r.spent == s.spent
    ensures SpentOnce(s) ==> SpentOnce(r)
  {
  }

  lemma SpendLinear(s: State, x: Place, a: Action)
    requires Linear(s) && x in s.held && s.held[x].legal.IsLegal(a)
    ensures Linear(Spend(s, x, a))
  {
    var r := Spend(s, x, a);
    forall p | 0 <= p < |r.channels| && r.channels[p].sender.Open? ensures HeldSomewhere(r.held, p) {
      assert HeldSomewhere(s.held, p);
      var y :| y in s.held && s.held[y].p == p;
      assert y in r.held;
    }
  }

  lemma AskLinear(s: State, i: nat, link: nat, table: nat, hand: nat, seat: nat, legal: LegalActions)
    requires Linear(s) && Local(i) !in s.held
    ensures Linear(StartAsk(s, i, link, table, hand, seat, legal))
  {
    var r := StartAsk(s, i, link, table, hand, seat, legal);
    if r != s {
      forall p | 0 <= p < |r.channels| && r.channels[p].sender.Open? ensures HeldSomewhere(r.held, p) {
        if p == |s.channels| {
          assert r.held[Local(i)].p == p;
        } else {
          assert HeldSomewhere(s.held, p);
          var y :| y in s.held && s.held[y].p == p;
          assert r.held[y].p == p;
        }
      }
    }
  }

  // ---------------------------------------------------------------------------
  // Every interleaving
  // ---------------------------------------------------------------------------

  /** Channels are only added, and each keeps its question. */
  ghost predicate Extends(s: State, r: State) {
    && |s.channels| <= |r.channels| && |s.spent| <= |r.spent| && r.spent[..|s.spent|] == s.spent
    && forall p :: 0 <= p < |s.channels| ==>
         && r.channels[p].legal == s.channels[p].legal
         && (!s.channels[p].sender.Open? ==> r.channels[p].sender == s.channels[p].sender)
         && (s.channels[p].closed ==> r.channels[p].closed)
  }

  lemma AnswersKept(s: State, r: State)
    requires Extends(s, r) && AnswersOk(s) && r.answers == s.answers
    ensures AnswersOk(r)
  {
  }

  lemma DropExtends(s: State, x: Place)
    requires Linear(s)
    ensures Extends(s, Drop(s, x)) && Drop(s, x).spent == s.spent
  {
  }

  lemma ShiftExtends(s: State, x: Place, y: Place)
    requires Linear(s)
    ensures Extends(s, Shift(s, x, y)) && Shift(s, x, y).spent == s.spent
  {
    DropExtends(s, y);
  }

  lemma SpendExtends(s: State, x: Place, a: Action)
    requires Linear(s)
    ensures Extends(s, Spend(s, x, a))
  {
  }

  /** An agent's step that hands in an answer. */
  lemma ReturnKeeps(s: State, i: nat, p: nat, legal: LegalActions, a: Action)
    requires Linear(s) && AgentsOk(s) && AnswersOk(s) && p < |s.channels| && s.channels[p].legal == legal
    requires a == Fold || (s.channels[p].sender == Used(a))
    requires forall j :: Local(j) in s.held ==> j != i && j in s.agents && (s.agents[j].Looking? || s.agents[j].Ready?)
    ensures Inv(Return(s, i, p, legal, a))
  {
    var r := Return(s, i, p, legal, a);
    assert Linear(r) by {
      forall q | 0 <= q < |r.channels| && r.channels[q].sender.Open? ensures HeldSomewhere(r.held, q) {
        assert HeldSomewhere(s.held, q);
      }
    }
  }

  lemma AgentKeeps(s: State, m: Move)
    requires Inv(s) && (m.CheckDeparted? || m.Sweep? || m.Receive?)
    ensures Inv(Next(s, m))
  {
    hide Linear, HeldSomewhere;
    var i := m.agent;
    var g := AgentOf(s, i);
    match m
    case CheckDeparted(_) =>
      if g.Looking? && g.conn in s.departed {
        var r := Drop(s, Local(i));
        DropLinear(s, Local(i));
        DropExtends(s, Local(i));
        AnswersKept(s, r);
        ReturnKeeps(r, i, g.p, g.legal, Fold);
      } else {
        SameCore(s, Next(s, m));
      }
    case Sweep(_) =>
      if g.Sweeping? {
        var r := Drop(s, Slot(g.conn));
        DropLinear(s, Slot(g.conn));
        DropExtends(s, Slot(g.conn));
        AnswersKept(s, r);
        ReturnKeeps(r, i, g.p, g.legal, Fold);
      }
    case Receive(_) =>
      if g.Listening? && g.p < |s.channels| && s.channels[g.p].sender.Used? {
        ReturnKeeps(s, i, g.p, g.legal, s.channels[g.p].sender.action);
      }
  }

  /** Linearity looks at responders, channels and what was spent. */
  lemma SameCore(s: State, r: State)
    requires r.held == s.held && r.channels == s.channels && r.spent == s.spent
    ensures Linear(s) ==> Linear(r)
  {
  }

  lemma PlaceKeeps(s: State, i: nat)
    requires Inv(s)
    ensures Inv(Next(s, PlacePending(i)))
  {
    hide Linear;
    var g := AgentOf(s, i);
    if g.Ready? {
      var r := Shift(s, Local(i), Slot(g.conn));
      ShiftLinear(s, Local(i), Slot(g.conn));
      ShiftExtends(s, Local(i), Slot(g.conn));
      AnswersKept(s, r);
      hide Shift;
      SameCore(r, Next(s, PlacePending(i)));
    }
  }

  lemma StopKeeps(s: State, i: nat, g: Agent)
    requires Inv(s) && g.Listening? && AgentOf(s, i) == g
    ensures Inv(Stopped(s, i, g))
  {
    var r := Stopped(s, i, g);
    assert Linear(r) by {
      forall q | 0 <= q < |r.channels| && r.channels[q].sender.Open? ensures HeldSomewhere(r.held, q) {
        assert HeldSomewhere(s.held, q);
      }
    }
  }

  lemma AskKeeps(s: State, i: nat, link: nat, table: nat, hand: nat, seat: nat, legal: LegalActions)
    requires Inv(s)
    ensures Inv(StartAsk(s, i, link, table, hand, seat, legal))
  {
    hide Linear;
    if AgentOf(s, i).Idle? && link in s.links {
      AskLinear(s, i, link, table, hand, seat, legal);
      AnswersKept(s, StartAsk(s, i, link, table, hand, seat, legal));
    }
  }

  lemma DeliverKeeps(s: State, c: nat, table: nat, hand: nat, a: Action)
    requires Inv(s)
    ensures Inv(DeliverTo(s, c, table, hand, a))
  {
    hide Linear;
    if Slot(c) in s.held && s.held[Slot(c)].Accepts(table, hand, a) {
      SpendLinear(s, Slot(c), a);
      SpendExtends(s, Slot(c), a);
      AnswersKept(s, DeliverTo(s, c, table, hand, a));
    }
  }

  lemma DropKeeps(s: State, x: Place)
    requires Inv(s)
    ensures Inv(Drop(s, x))
  {
    hide Linear;
    DropLinear(s, x);
    DropExtends(s, x);
    AnswersKept(s, Drop(s, x));
  }

  lemma CarryKeeps(s: State, x: Place, y: Place)
    requires Inv(s) && !y.Local?
    ensures Inv(Shift(s, x, y))
  {
    hide Linear;
    ShiftLinear(s, x, y);
    ShiftExtends(s, x, y);
    AnswersKept(s, Shift(s, x, y));
  }

  /** Nothing the invariant looks at. */
  lemma Elsewhere(s: State, r: State)
    requires r.held == s.held && r.channels == s.channels && r.spent == s.spent && r.agents == s.agents &&
             r.answers == s.answers
    ensures Inv(s) ==> Inv(r)
  {
  }

  lemma NextKeeps(s: State, m: Move)
    requires Inv(s)
    ensures Inv(Next(s, m))
  {
    hide Linear, AnswersOk, Drop, Shift, DeliverTo, StartAsk, Return, Stopped;
    match m
    case Ask(i, link, table, hand, seat, legal) => AskKeeps(s, i, link, table, hand, seat, legal);
    case CheckDeparted(i) => AgentKeeps(s, m);
    case PlacePending(i) => PlaceKeeps(s, i);
    case Receive(i) => AgentKeeps(s, m);
    case NoticeDrop(i) => if AgentOf(s, i).Listening? { StopKeeps(s, i, AgentOf(s, i)); }
    case Timeout(i) => if AgentOf(s, i).Listening? { StopKeeps(s, i, AgentOf(s, i)); }
    case Resolve(i) => SameCore(s, Next(s, m)); AnswersKept(s, Next(s, m));
    case Sweep(i) => AgentKeeps(s, m);
    case Deliver(c, table, hand, a) => DeliverKeeps(s, c, table, hand, a);
    case Depart(c) => Elsewhere(s, Next(s, m));
    case DropSlot(c) => DropKeeps(s, Slot(c));
    case FindSeat(r, link, conn) => Elsewhere(s, Next(s, m));
    case Lift(r) =>
      var x := ReconnectOf(s, r);
      if x.Found? {
        CarryKeeps(s, Slot(x.from), Carried(r));
        Elsewhere(Shift(s, Slot(x.from), Carried(r)), Next(s, m));
      }
    case Rebind(r) => Elsewhere(s, Next(s, m));
    case Put(r) =>
      var x := ReconnectOf(s, r);
      if x.Bound? {
        CarryKeeps(s, Carried(r), Slot(x.conn));
        Elsewhere(Shift(s, Carried(r), Slot(x.conn)), Next(s, m));
      }
  }

  lemma {:induction false} RunKeeps(links: map<nat, nat>, moves: seq<Move>)
    ensures Inv(Run(Fresh(links), moves))
  {
    if moves != [] {
      hide Inv, Next;
      RunKeeps(links, moves[..|moves| - 1]);
      NextKeeps(Run(Fresh(links), moves[..|moves| - 1]), moves[|moves| - 1]);
    }
  }

  /** However agents, sessions, reconnects and timeouts interleave: each prompt's responder is in
      at most one place and in none once spent or dropped; it is spent at most once. */
  lemma RespondersAreLinear(links: map<nat, nat>, moves: seq<Move>, p: nat)
    ensures var s := Run(Fresh(links), moves);
            && (forall x, y :: x in s.held && y in s.held && s.held[x].p == p && s.held[y].p == p ==> x == y)
            && (p < |s.channels| ==> (s.channels[p].sender.Open? <==> HeldSomewhere(s.held, p)))
            && (p in s.spent ==> !HeldSomewhere(s.held, p))
            && (forall i, j :: 0 <= i < j < |s.spent| ==> s.spent[i] != s.spent[j])
  {
    hide Run;
    RunKeeps(links, moves);
  }

  /** ... and `act` answers every question with an action legal for that question: a fold, or
      what the one responder of that prompt was spent on. */
  lemma AnswersAreLegal(links: map<nat, nat>, moves: seq<Move>, k: nat)
    ensures var s := Run(Fresh(links), moves);
            k < |s.answers| ==>
              && s.answers[k].p < |s.channels| && s.channels[s.answers[k].p].legal == s.answers[k].legal
              && s.answers[k].legal.IsLegal(s.answers[k].action)
              && (s.answers[k].action == Fold ||
                  (s.answers[k].p in s.spent && s.channels[s.answers[k].p].sender == Used(s.answers[k].action)))
  {
    hide Run;
    RunKeeps(links, moves);
  }

  lemma RunOn(s: State, moves: seq<Move>, m: Move)
    ensures Run(s, moves + [m]) == Next(Run(s, moves), m)
  {
    assert (moves + [m])[..|moves|] == moves;
  }

  // ---------------------------------------------------------------------------
  // The connection as an object
  // ---------------------------------------------------------------------------

  /** The channels' shared ends. */
  class Oneshots {
    var channels: seq<Channel>

    constructor ()
      ensures channels == []
    {
      channels := [];
    }
  }

  class Connection {
    const id: nat
    const wires: Oneshots
    var pending: Option<Pending>
    var departed: bool

    constructor (i: nat, w: Oneshots)
      ensures id == i && wires == w && pending == None && !departed
    {
      id, wires, pending, departed := i, w, None, false;
    }

    /** This connection is connection `id` of the machine's state. */
    ghost predicate Shows(s: State)
      reads this, wires
    {
      && wires.channels == s.channels && (departed <==> id in s.departed)
      && pending == (if Slot(id) in s.held then Some(s.held[Slot(id)]) else None)
    }

    method DeliverAction(table: nat, hand: nat, a: Action, ghost s: State) returns (ok: bool)
      requires Shows(s) && Tracked(s)
      modifies this`pending, wires
      ensures Shows(DeliverTo(s, id, table, hand, a))
      ensures ok <==> Delivers(s, id, table, hand, a)
    {
      if pending.None? { return false; }
      var p := pending.value;
      if p.table != table || p.hand != hand { return false; }
      if !p.legal.IsLegal(a) { return false; }
      pending := None;
      ok := !wires.channels[p.p].closed;
      wires.channels := wires.channels[p.p := wires.channels[p.p].(sender := if ok then Used(a) else Dropped)];
    }

    method CancelPending(ghost s: State)
      requires Shows(s) && Tracked(s)
      modifies this`pending, this`departed, wires
      ensures Shows(Drop(s.(departed := s.departed + {id}), Slot(id)))
    {
      departed := true;
      if pending.Some? {
        var p := pending.value.p;
        pending := None;
        wires.channels := wires.channels[p := wires.channels[p].(sender := Dropped)];
      }
    }
  }
}
