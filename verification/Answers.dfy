/** Where the answers of `RemoteAgent::act` come from: a delivered action is what the asking agent
    returns, unless the agent ran out of time, over every interleaving. */
module Answers {
  import opened Types
  import opened Prompts

  // ---------------------------------------------------------------------------
  // From delivery to answer
  // ---------------------------------------------------------------------------

  /** Agent `i` is listening for prompt `p`, whose responder was spent on `a`. */
  ghost predicate Delivered(s: State, i: nat, p: nat, legal: LegalActions, a: Action) {
    && AgentOf(s, i).Listening? && AgentOf(s, i).p == p && AgentOf(s, i).legal == legal
    && p < |s.channels| && s.channels[p].sender == Used(a)
  }

  /** An action naming the table and the hand of the prompt waiting with a connection, and legal
      for it, reaches the agent listening for it. */
  lemma DeliveryReaches(s: State, c: nat, a: Action, i: nat)
    requires Slot(c) in s.held && s.held[Slot(c)].legal.IsLegal(a)
    requires AgentOf(s, i).Listening? && AgentOf(s, i).p == s.held[Slot(c)].p < |s.channels|
    requires !s.channels[s.held[Slot(c)].p].closed
    ensures var q := s.held[Slot(c)];
            && Delivers(s, c, q.table, q.hand, a)
            && Delivered(Next(s, Deliver(c, q.table, q.hand, a)), i, q.p, AgentOf(s, i).legal, a)
  {
  }

  lemma ListenerStays(s: State, m: Move, i: nat)
    requires AgentOf(s, i).Listening? && m != Timeout(i) && m != Receive(i) && m != NoticeDrop(i)
    ensures AgentOf(Next(s, m), i) == AgentOf(s, i)
  {
    hide Resolved, Moved;
  }

  /** The responder of prompt `p` was spent on `a`. */
  predicate SpentOn(s: State, p: nat, a: Action) { p < |s.channels| && s.channels[p].sender == Used(a) }

  lemma ExtendsSpent(s: State, r: State, p: nat, a: Action)
    requires Extends(s, r) && SpentOn(s, p, a)
    ensures SpentOn(r, p, a)
  {
  }

  lemma DropSpent(s: State, x: Place, p: nat, a: Action)
    requires Linear(s) && SpentOn(s, p, a)
    ensures SpentOn(Drop(s, x), p, a)
  {
    hide Linear, Drop;
    DropExtends(s, x);
    ExtendsSpent(s, Drop(s, x), p, a);
  }

  lemma ShiftSpent(s: State, x: Place, y: Place, p: nat, a: Action)
    requires Linear(s) && SpentOn(s, p, a)
    ensures SpentOn(Shift(s, x, y), p, a)
  {
    hide Linear, Shift;
    ShiftExtends(s, x, y);
    ExtendsSpent(s, Shift(s, x, y), p, a);
  }

  lemma SpendSpent(s: State, x: Place, b: Action, p: nat, a: Action)
    requires Linear(s) && SpentOn(s, p, a)
    ensures SpentOn(Spend(s, x, b), p, a)
  {
    hide Linear, Spend;
    SpendExtends(s, x, b);
    ExtendsSpent(s, Spend(s, x, b), p, a);
  }

  /** A responder once spent stays spent. */
  lemma SpentStays(s: State, m: Move, p: nat, a: Action)
    requires Linear(s) && SpentOn(s, p, a)
    ensures SpentOn(Next(s, m), p, a)
  {
    hide Linear, Drop, Shift, Spend;
    match m
    case CheckDeparted(i) => DropSpent(s, Local(i), p, a);
    case PlacePending(i) =>
      var g := AgentOf(s, i);
      if g.Ready? { ShiftSpent(s, Local(i), Slot(g.conn), p, a); }
    case Sweep(i) =>
      var g := AgentOf(s, i);
      if g.Sweeping? { DropSpent(s, Slot(g.conn), p, a); }
    case Deliver(c, _, _, b) => SpendSpent(s, Slot(c), b, p, a);
    case DropSlot(c) => DropSpent(s, Slot(c), p, a);
    case Lift(r) =>
      var x := ReconnectOf(s, r);
      if x.Found? { ShiftSpent(s, Slot(x.from), Carried(r), p, a); }
    case Put(r) =>
      var x := ReconnectOf(s, r);
      if x.Bound? { ShiftSpent(s, Carried(r), Slot(x.conn), p, a); }
    case _ =>
  }

  /** Nothing but running out of time keeps a delivered action from being returned. */
  lemma DeliveredStays(s: State, m: Move, i: nat, p: nat, legal: LegalActions, a: Action)
    requires Linear(s) && Delivered(s, i, p, legal, a) && m != Timeout(i) && m != Receive(i)
    ensures Delivered(Next(s, m), i, p, legal, a)
  {
    if m != NoticeDrop(i) {
      hide Next, Linear;
      ListenerStays(s, m, i);
      SpentStays(s, m, p, a);
    }
  }

  lemma {:induction false} DeliveredWaits(s: State, moves: seq<Move>, i: nat, p: nat, legal: LegalActions, a: Action)
    requires Inv(s) && Delivered(s, i, p, legal, a)
    requires forall k :: 0 <= k < |moves| ==> moves[k] != Timeout(i) && moves[k] != Receive(i)
    ensures Inv(Run(s, moves)) && Delivered(Run(s, moves), i, p, legal, a)
  {
    hide Next, Delivered, Linear, AgentsOk, PlacesOk, AnswersOk;
    if moves != [] {
      var n := |moves| - 1;
      DeliveredWaits(s, moves[..n], i, p, legal, a);
      NextKeeps(Run(s, moves[..n]), moves[n]);
      DeliveredStays(Run(s, moves[..n]), moves[n], i, p, legal, a);
    }
  }

  /** Whatever happens between delivery and receipt, short of the agent's own timeout, `act`
      returns exactly the delivered action. */
  lemma {:induction false} DeliveredIsReturned(links: map<nat, nat>, before: seq<Move>, moves: seq<Move>, i: nat,
      p: nat, legal: LegalActions, a: Action)
    requires Delivered(Run(Fresh(links), before), i, p, legal, a)
    requires forall k :: 0 <= k < |moves| ==> moves[k] != Timeout(i) && moves[k] != Receive(i)
    ensures var s := Run(Run(Fresh(links), before), moves);
            && Next(s, Receive(i)).answers == s.answers + [Answer(p, legal, a)]
            && AgentOf(Next(s, Receive(i)), i).Idle?
  {
    hide Run, Inv;
    RunKeeps(links, before);
    DeliveredWaits(Run(Fresh(links), before), moves, i, p, legal, a);
  }

  // ---------------------------------------------------------------------------
  // When nothing is delivered
  // ---------------------------------------------------------------------------

  /** An agent that runs out of time folds, and leaves no prompt waiting with the connection its
      seat is bound to by then. */
  lemma TimedOutFolds(s: State, i: nat)
    requires AgentOf(s, i).Listening? && AgentOf(s, i).link in s.links
    ensures var g := AgentOf(s, i); var r := Next(Next(Next(s, Timeout(i)), Resolve(i)), Sweep(i));
            && r.answers == s.answers + [Answer(g.p, g.legal, Fold)] && AgentOf(r, i).Idle?
            && Slot(s.links[g.link]) !in r.held
  {
  }

  /** A player who leaves before the prompt is placed folds at once, unasked. */
  lemma DepartedFolds(s: State, i: nat)
    requires AgentOf(s, i).Looking?
    ensures var g := AgentOf(s, i); var r := Next(Next(s, Depart(g.conn)), CheckDeparted(i));
            && r.answers == s.answers + [Answer(g.p, g.legal, Fold)] && AgentOf(r, i).Idle?
            && Local(i) !in r.held
  {
  }

  /** One who leaves while the prompt waits has it dropped, and the agent folds. */
  lemma CancelledFolds(s: State, c: nat, i: nat)
    requires Slot(c) in s.held && AgentOf(s, i).Listening? && AgentOf(s, i).p == s.held[Slot(c)].p < |s.channels|
    requires AgentOf(s, i).link in s.links
    ensures var g := AgentOf(s, i); var dropped := Next(Next(s, Depart(c)), DropSlot(c));
            var r := Next(Next(Next(dropped, NoticeDrop(i)), Resolve(i)), Sweep(i));
            && c in dropped.departed && Slot(c) !in dropped.held
            && r.answers == s.answers + [Answer(g.p, g.legal, Fold)] && AgentOf(r, i).Idle?
  {
  }

  lemma DropHeld(s: State, x: Place)
    ensures Drop(s, x).held == s.held - {x}
  {
  }

  lemma FindFinds(s: State, r: nat, link: nat, conn: nat)
    requires ReconnectOf(s, r).Done? && link in s.links
    ensures var t := Next(s, FindSeat(r, link, conn));
            t.held == s.held && t.links == s.links && ReconnectOf(t, r) == Found(link, s.links[link], conn)
  {
  }

  lemma LiftLifts(s: State, r: nat)
    requires ReconnectOf(s, r).Found? && Slot(ReconnectOf(s, r).from) in s.held
    ensures var x, t := ReconnectOf(s, r), Next(s, Lift(r));
            && Carried(r) in t.held && t.held[Carried(r)] == s.held[Slot(x.from)] && Slot(x.from) !in t.held
            && t.links == s.links && ReconnectOf(t, r) == Lifted(x.link, x.conn)
  {
    hide Drop;
    DropHeld(s, Carried(r));
    DropLinks(s, Carried(r));
  }

  lemma DropLinks(s: State, x: Place)
    ensures Drop(s, x).links == s.links
  {
  }

  lemma RebindRebinds(s: State, r: nat)
    requires ReconnectOf(s, r).Lifted?
    ensures var x, t := ReconnectOf(s, r), Next(s, Rebind(r));
            t.held == s.held && t.links == s.links[x.link := x.conn] && ReconnectOf(t, r) == Bound(x.link, x.conn)
  {
  }

  lemma PutPuts(s: State, r: nat)
    requires ReconnectOf(s, r).Bound? && Carried(r) in s.held
    ensures var x, t := ReconnectOf(s, r), Next(s, Put(r));
            && Slot(x.conn) in t.held && t.held[Slot(x.conn)] == s.held[Carried(r)]
            && (forall c :: Slot(c) !in s.held && c != x.conn ==> Slot(c) !in t.held)
            && t.links == s.links && ReconnectOf(t, r).Done?
  {
    hide Drop;
    DropHeld(s, Slot(ReconnectOf(s, r).conn));
    DropLinks(s, Slot(ReconnectOf(s, r).conn));
  }

  /** A reconnect that nothing interrupts takes the waiting prompt along to the new connection. */
  lemma ReconnectCarries(s: State, r: nat, link: nat, conn: nat)
    requires ReconnectOf(s, r).Done? && link in s.links && Slot(s.links[link]) in s.held && s.links[link] != conn
    ensures var t := Next(Next(Next(Next(s, FindSeat(r, link, conn)), Lift(r)), Rebind(r)), Put(r));
            && t.links == s.links[link := conn]
            && Slot(conn) in t.held && t.held[Slot(conn)] == s.held[Slot(s.links[link])]
            && Slot(s.links[link]) !in t.held && ReconnectOf(t, r).Done?
  {
    hide Next, ReconnectOf;
    FindFinds(s, r, link, conn);
    var s1 := Next(s, FindSeat(r, link, conn));
    LiftLifts(s1, r);
    var s2 := Next(s1, Lift(r));
    RebindRebinds(s2, r);
    PutPuts(Next(s2, Rebind(r)), r);
  }

  // ---------------------------------------------------------------------------
  // Why an answer can differ from what was delivered
  // ---------------------------------------------------------------------------

  /** At move `k` the agent listening for prompt `p` ran out of time. */
  ghost predicate TimeoutAt(links: map<nat, nat>, moves: seq<Move>, k: nat, p: nat) {
    k < |moves| && moves[k].Timeout? &&
    var g := AgentOf(Run(Fresh(links), moves[..k]), moves[k].agent); g.Listening? && g.p == p
  }

  /** The prompt whose agent runs out of time in this move. */
  function Expired(s: State, m: Move): set<nat> {
    if m.Timeout? && AgentOf(s, m.agent).Listening? then {AgentOf(s, m.agent).p} else {}
  }

  function Late(links: map<nat, nat>, moves: seq<Move>): set<nat> {
    if moves == [] then {}
    else
      var n := |moves| - 1;
      Late(links, moves[..n]) + Expired(Run(Fresh(links), moves[..n]), moves[n])
  }

  lemma {:induction false} LateTimedOut(links: map<nat, nat>, moves: seq<Move>, p: nat)
    requires p in Late(links, moves)
    ensures exists k: nat :: TimeoutAt(links, moves, k, p)
  {
    hide Run;
    var n := |moves| - 1;
    if p in Late(links, moves[..n]) {
      LateTimedOut(links, moves[..n], p);
      var k: nat :| TimeoutAt(links, moves[..n], k, p);
      assert moves[..n][..k] == moves[..k];
      assert TimeoutAt(links, moves, k, p);
    } else {
      assert TimeoutAt(links, moves, n, p);
    }
  }

  /** Until an agent has placed its prompt it holds the responder itself. */
  ghost predicate HoldsOwn(s: State) {
    forall i :: i in s.agents && (s.agents[i].Looking? || s.agents[i].Ready?) ==>
      Local(i) in s.held && s.held[Local(i)].p == s.agents[i].p
  }

  /** A prompt given up on: its responder is gone, or the agent ran out of time. */
  ghost predicate GivenUp(s: State, late: set<nat>, p: nat) {
    p < |s.channels| && (s.channels[p].sender.Dropped? || p in late)
  }

  /** Agents about to fold have given up, and so has whoever answered something else than what
      its responder was spent on. */
  ghost predicate Explained(s: State, late: set<nat>) {
    && (forall i :: i in s.agents && (s.agents[i].Folding? || s.agents[i].Sweeping?) ==>
          GivenUp(s, late, s.agents[i].p))
    && (forall k :: 0 <= k < |s.answers| ==>
          GivenUp(s, late, s.answers[k].p) ||
          (s.answers[k].p < |s.channels| && s.channels[s.answers[k].p].sender == Used(s.answers[k].action)))
  }

  /** Prompts only get closer to being given up. */
  lemma ExplainedFrame(s: State, r: State, late: set<nat>)
    requires Explained(s, late) && Extends(s, r) && r.agents == s.agents && r.answers == s.answers
    ensures Explained(r, late)
  {
  }

  lemma MoreLate(s: State, late: set<nat>, more: set<nat>)
    requires Explained(s, late)
    ensures Explained(s, late + more)
  {
  }

  /** `act` returns a fold for a prompt that was given up, or what its responder was spent on. */
  lemma ReturnExplained(s: State, i: nat, p: nat, legal: LegalActions, a: Action, late: set<nat>)
    requires Explained(s, late) && p < |s.channels|
    requires GivenUp(s, late, p) || s.channels[p].sender == Used(a)
    ensures Explained(Return(s, i, p, legal, a), late)
  {
  }

  lemma SetAgentExplained(s: State, i: nat, g: Agent, late: set<nat>)
    requires Explained(s, late) && (g.Folding? || g.Sweeping? ==> GivenUp(s, late, g.p))
    ensures Explained(SetAgent(s, i, g), late)
  {
  }

  lemma StoppedExplained(s: State, i: nat, g: Agent, late: set<nat>)
    requires Explained(s, late) && g.Listening? && GivenUp(s, late, g.p)
    ensures Explained(Stopped(s, i, g), late)
  {
  }

  lemma FoldingGaveUp(s: State, i: nat, late: set<nat>)
    requires Explained(s, late) && i in s.agents && (s.agents[i].Folding? || s.agents[i].Sweeping?)
    ensures GivenUp(s, late, s.agents[i].p)
  {
  }

  lemma AgentExplained(s: State, m: Move, late: set<nat>)
    requires Inv(s) && HoldsOwn(s) && Explained(s, late)
    requires m.CheckDeparted? || m.Receive? || m.NoticeDrop? || m.Timeout? || m.Resolve? || m.Sweep?
    ensures Explained(Next(s, m), late + Expired(s, m))
  {
    hide NoCopies, SpentOnce, HeldSomewhere, Explained;
    var i := m.agent;
    var g := AgentOf(s, i);
    MoreLate(s, late, Expired(s, m));
    var all := late + Expired(s, m);
    if m.CheckDeparted? && g.Looking? {
      if g.conn in s.departed {
        var r := Drop(s, Local(i));
        DropExtends(s, Local(i));
        ExplainedFrame(s, r, all);
        ReturnExplained(r, i, g.p, g.legal, Fold, all);
      } else {
        SetAgentExplained(s, i, Ready(g.p, g.legal, g.link, g.conn), all);
      }
    } else if m.Sweep? && g.Sweeping? {
      var r := Drop(s, Slot(g.conn));
      DropExtends(s, Slot(g.conn));
      FoldingGaveUp(s, i, all);
      ExplainedFrame(s, r, all);
      ReturnExplained(r, i, g.p, g.legal, Fold, all);
    } else if m.Receive? && g.Listening? && s.channels[g.p].sender.Used? {
      ReturnExplained(s, i, g.p, g.legal, s.channels[g.p].sender.action, all);
    } else if (m.NoticeDrop? && g.Listening? && s.channels[g.p].sender.Dropped?) || (m.Timeout? && g.Listening?) {
      StoppedExplained(s, i, g, all);
    } else if m.Resolve? && g.Folding? && g.link in s.links {
      FoldingGaveUp(s, i, all);
      SetAgentExplained(s, i, Sweeping(g.p, g.legal, s.links[g.link]), all);
    }
  }

  lemma AskExplained(s: State, i: nat, link: nat, table: nat, hand: nat, seat: nat, legal: LegalActions, late: set<nat>)
    requires Explained(s, late)
    ensures Explained(StartAsk(s, i, link, table, hand, seat, legal), late)
  {
  }

  lemma PlaceExplained(s: State, i: nat, late: set<nat>)
    requires Inv(s) && Explained(s, late)
    ensures Explained(Next(s, PlacePending(i)), late)
  {
    hide Linear, Explained, Shift;
    var g := AgentOf(s, i);
    if g.Ready? {
      var r := Shift(s, Local(i), Slot(g.conn));
      ShiftExtends(s, Local(i), Slot(g.conn));
      ShiftKeepsAgents(s, Local(i), Slot(g.conn));
      ExplainedFrame(s, r, late);
      SetAgentExplained(r, i, Listening(g.p, g.legal, g.link), late);
    }
  }

  lemma ShiftKeepsAgents(s: State, x: Place, y: Place)
    ensures Shift(s, x, y).agents == s.agents && Shift(s, x, y).answers == s.answers
  {
  }

  /** Nothing an explanation looks at. */
  lemma ExplainedElsewhere(s: State, r: State, late: set<nat>)
    requires r.channels == s.channels && r.agents == s.agents && r.answers == s.answers
    ensures Explained(s, late) ==> Explained(r, late)
  {
  }

  lemma CarryExplained(s: State, x: Place, y: Place, late: set<nat>)
    requires Inv(s) && Explained(s, late)
    ensures Explained(Shift(s, x, y), late)
  {
    hide Linear, Explained, Shift;
    ShiftExtends(s, x, y);
    ShiftKeepsAgents(s, x, y);
    ExplainedFrame(s, Shift(s, x, y), late);
  }

  lemma SpendExplained(s: State, x: Place, a: Action, late: set<nat>)
    requires Inv(s) && Explained(s, late)
    ensures Explained(Spend(s, x, a), late)
  {
    hide Linear, Explained;
    SpendExtends(s, x, a);
    ExplainedFrame(s, Spend(s, x, a), late);
  }

  lemma DropExplained(s: State, x: Place, late: set<nat>)
    requires Inv(s) && Explained(s, late)
    ensures Explained(Drop(s, x), late)
  {
    hide Linear, Explained;
    DropExtends(s, x);
    ExplainedFrame(s, Drop(s, x), late);
  }

  lemma NextExplained(s: State, m: Move, late: set<nat>)
    requires Inv(s) && HoldsOwn(s) && Explained(s, late)
    ensures Explained(Next(s, m), late + Expired(s, m))
  {
    hide Inv, HoldsOwn, Explained, Drop, Shift, Spend, StartAsk, Return, Stopped;
    MoreLate(s, late, Expired(s, m));
    var all := late + Expired(s, m);
    match m
    case Ask(i, link, table, hand, seat, legal) => AskExplained(s, i, link, table, hand, seat, legal, all);
    case PlacePending(i) => PlaceExplained(s, i, all);
    case Deliver(c, table, hand, a) => SpendExplained(s, Slot(c), a, all);
    case Depart(c) => ExplainedElsewhere(s, Next(s, m), all);
    case DropSlot(c) => DropExplained(s, Slot(c), all);
    case FindSeat(r, link, conn) => ExplainedElsewhere(s, Next(s, m), all);
    case Lift(r) =>
      var x := ReconnectOf(s, r);
      if x.Found? {
        CarryExplained(s, Slot(x.from), Carried(r), all);
        ExplainedElsewhere(Shift(s, Slot(x.from), Carried(r)), Next(s, m), all);
      }
    case Rebind(r) => ExplainedElsewhere(s, Next(s, m), all);
    case Put(r) =>
      var x := ReconnectOf(s, r);
      if x.Bound? {
        CarryExplained(s, Carried(r), Slot(x.conn), all);
        ExplainedElsewhere(Shift(s, Carried(r), Slot(x.conn)), Next(s, m), all);
      }
    case _ => AgentExplained(s, m, late);
  }

  // ---------------------------------------------------------------------------
  // Responders not yet placed
  // ---------------------------------------------------------------------------

  lemma DropHoldsOwn(s: State, x: Place)
    requires HoldsOwn(s) && !x.Local?
    ensures HoldsOwn(Drop(s, x))
  {
  }

  lemma ShiftHoldsOwn(s: State, x: Place, y: Place)
    requires HoldsOwn(s) && !x.Local? && !y.Local?
    ensures HoldsOwn(Shift(s, x, y))
  {
    DropHoldsOwn(s, y);
  }

  lemma PlaceHoldsOwn(s: State, i: nat)
    requires HoldsOwn(s)
    ensures HoldsOwn(Next(s, PlacePending(i)))
  {
    var g := AgentOf(s, i);
    if g.Ready? { DropHoldsOwn(s, Slot(g.conn)); }
  }

  lemma SameHoldsOwn(s: State, r: State)
    requires r.held == s.held && r.agents == s.agents
    ensures HoldsOwn(s) ==> HoldsOwn(r)
  {
  }

  lemma AgentHoldsOwn(s: State, m: Move)
    requires HoldsOwn(s)
    requires m.Ask? || m.CheckDeparted? || m.Receive? || m.NoticeDrop? || m.Timeout? || m.Resolve? || m.Deliver?
    ensures HoldsOwn(Next(s, m))
  {
    hide Resolved;
  }

  lemma NextHoldsOwn(s: State, m: Move)
    requires HoldsOwn(s)
    ensures HoldsOwn(Next(s, m))
  {
    hide HoldsOwn, Drop, Shift, Spend, StartAsk, Stopped;
    match m
    case PlacePending(i) => PlaceHoldsOwn(s, i);
    case Sweep(i) =>
      var g := AgentOf(s, i);
      if g.Sweeping? {
        DropHoldsOwn(s, Slot(g.conn));
        ReturnHoldsOwn(Drop(s, Slot(g.conn)), i, g.p, g.legal);
      }
    case Depart(_) => SameHoldsOwn(s, Next(s, m));
    case DropSlot(c) => DropHoldsOwn(s, Slot(c));
    case FindSeat(_, _, _) => SameHoldsOwn(s, Next(s, m));
    case Lift(r) =>
      var x := ReconnectOf(s, r);
      if x.Found? {
        ShiftHoldsOwn(s, Slot(x.from), Carried(r));
        SameHoldsOwn(Shift(s, Slot(x.from), Carried(r)), Next(s, m));
      }
    case Rebind(_) => SameHoldsOwn(s, Next(s, m));
    case Put(r) =>
      var x := ReconnectOf(s, r);
      if x.Bound? {
        ShiftHoldsOwn(s, Carried(r), Slot(x.conn));
        SameHoldsOwn(Shift(s, Carried(r), Slot(x.conn)), Next(s, m));
      }
    case _ => AgentHoldsOwn(s, m);
  }

  lemma ReturnHoldsOwn(s: State, i: nat, p: nat, legal: LegalActions)
    requires HoldsOwn(s)
    ensures HoldsOwn(Return(s, i, p, legal, Fold))
  {
  }

  lemma {:induction false} RunExplained(links: map<nat, nat>, moves: seq<Move>)
    ensures var s := Run(Fresh(links), moves); Inv(s) && HoldsOwn(s) && Explained(s, Late(links, moves))
  {
    hide Inv, HoldsOwn, Explained, Next, Expired;
    RunKeeps(links, moves);
    if moves == [] {
      FreshExplained(links);
    } else {
      var n := |moves| - 1;
      var s := Run(Fresh(links), moves[..n]);
      RunExplained(links, moves[..n]);
      NextExplained(s, moves[n], Late(links, moves[..n]));
      NextHoldsOwn(s, moves[n]);
    }
  }

  lemma FreshExplained(links: map<nat, nat>)
    ensures HoldsOwn(Fresh(links)) && Explained(Fresh(links), {})
  {
  }

  /** Over every run: `act` answers a prompt with anything else than the action its responder was
      spent on only if the agent listening for it ran out of time; otherwise a delivered action is
      always the answer. */
  lemma AnswersAreDelivered(links: map<nat, nat>, moves: seq<Move>, k: nat, a: Action)
    requires k < |Run(Fresh(links), moves).answers|
    ensures var s := Run(Fresh(links), moves); var p := s.answers[k].p;
            p < |s.channels| && (s.channels[p].sender == Used(a) && s.answers[k].action != a ==>
              exists j: nat :: TimeoutAt(links, moves, j, p))
  {
    hide Run, Inv, HoldsOwn;
    RunExplained(links, moves);
    var s := Run(Fresh(links), moves);
    var p := s.answers[k].p;
    if p in Late(links, moves) { LateTimedOut(links, moves, p); }
  }

  // ---------------------------------------------------------------------------
  // Where an answer comes from
  // ---------------------------------------------------------------------------

  /** Move `i` asks the question that becomes prompt `q.p`. */
  ghost predicate AskAt(links: map<nat, nat>, moves: seq<Move>, i: nat, q: Pending) {
    i < |moves| && moves[i].Ask? &&
    var s := Run(Fresh(links), moves[..i]);
    && AgentOf(s, moves[i].agent).Idle? && moves[i].link in s.links
    && q == Pending(|s.channels|, moves[i].link, moves[i].table, moves[i].hand, moves[i].seat, moves[i].legal)
  }

  ghost predicate Asked(links: map<nat, nat>, moves: seq<Move>, q: Pending) {
    exists i: nat :: AskAt(links, moves, i, q)
  }

  /** Prompt `p` was asked, and later `a` was delivered naming its table and its hand. */
  ghost predicate Traced(links: map<nat, nat>, moves: seq<Move>, p: nat, a: Action, i: nat, j: nat, q: Pending,
      c: nat)
  {
    && AskAt(links, moves, i, q) && q.p == p
    && i < j < |moves| && moves[j] == Deliver(c, q.table, q.hand, a)
  }

  ghost predicate FromDelivery(links: map<nat, nat>, moves: seq<Move>, p: nat, a: Action) {
    exists i: nat, j: nat, q, c: nat :: Traced(links, moves, p, a, i, j, q, c)
  }

  ghost predicate Origins(links: map<nat, nat>, moves: seq<Move>) {
    var s := Run(Fresh(links), moves);
    && (forall x :: x in s.held ==> Asked(links, moves, s.held[x]))
    && (forall p, a :: SpentOn(s, p, a) ==> FromDelivery(links, moves, p, a))
  }

  lemma AskedStays(links: map<nat, nat>, moves: seq<Move>, m: Move, q: Pending)
    requires Asked(links, moves, q)
    ensures Asked(links, moves + [m], q)
  {
    hide Run;
    var i: nat :| AskAt(links, moves, i, q);
    assert (moves + [m])[..i] == moves[..i];
    assert AskAt(links, moves + [m], i, q);
  }

  lemma DeliveryStays(links: map<nat, nat>, moves: seq<Move>, m: Move, p: nat, a: Action)
    requires FromDelivery(links, moves, p, a)
    ensures FromDelivery(links, moves + [m], p, a)
  {
    hide Run;
    var i: nat, j: nat, q, c: nat :| Traced(links, moves, p, a, i, j, q, c);
    assert (moves + [m])[..i] == moves[..i];
    assert Traced(links, moves + [m], p, a, i, j, q, c);
  }

  ghost predicate HeldAt(s: State, q: Pending) { exists y :: y in s.held && s.held[y] == q }

  lemma DropFrom(s: State, x: Place, z: Place)
    requires z in Drop(s, x).held
    ensures HeldAt(s, Drop(s, x).held[z])
  {
    assert z in s.held;
  }

  lemma ShiftFrom(s: State, x: Place, y: Place, z: Place)
    requires z in Shift(s, x, y).held
    ensures HeldAt(s, Shift(s, x, y).held[z])
  {
    hide Drop;
    DropHeld(s, y);
    var w := if x in s.held && z == y then x else z;
    assert w in s.held;
    assert s.held[w] == Shift(s, x, y).held[z];
  }

  /** A responder anywhere was somewhere before the move, or is the one just made. */
  lemma HeldFrom(s: State, m: Move, x: Place)
    requires x in Next(s, m).held
    ensures HeldAt(s, Next(s, m).held[x]) ||
            (m.Ask? && AgentOf(s, m.agent).Idle? && m.link in s.links &&
             Next(s, m).held[x] == Pending(|s.channels|, m.link, m.table, m.hand, m.seat, m.legal))
  {
    hide Drop, Shift, Resolved;
    match m
    case CheckDeparted(i) => if x !in s.held || s.held[x] != Next(s, m).held[x] { DropFrom(s, Local(i), x); }
    case Sweep(i) =>
      var g := AgentOf(s, i);
      if g.Sweeping? { DropFrom(s, Slot(g.conn), x); }
    case DropSlot(c) => DropFrom(s, Slot(c), x);
    case PlacePending(i) =>
      var g := AgentOf(s, i);
      if g.Ready? { ShiftFrom(s, Local(i), Slot(g.conn), x); }
    case Lift(r) =>
      var y := ReconnectOf(s, r);
      if y.Found? { ShiftFrom(s, Slot(y.from), Carried(r), x); }
    case Put(r) =>
      var y := ReconnectOf(s, r);
      if y.Bound? { ShiftFrom(s, Carried(r), Slot(y.conn), x); }
    case Ask(i, _, _, _, _, _) => assert x in s.held || x == Local(i);
    case _ => assert x in s.held;
  }

  /** A responder is spent by a delivery naming the table and hand of its prompt. */
  lemma SpentBy(s: State, m: Move, p: nat, a: Action)
    requires SpentOn(Next(s, m), p, a) && !SpentOn(s, p, a)
    ensures m.Deliver? && m.action == a && Slot(m.conn) in s.held
    ensures var q := s.held[Slot(m.conn)]; q.p == p && q.table == m.table && q.hand == m.hand
  {
    hide Moved;
    if !m.Deliver? { NotDelivered(s, m, p, a); }
  }

  lemma ShiftSender(s: State, x: Place, y: Place, p: nat, a: Action)
    ensures SpentOn(Shift(s, x, y), p, a) ==> SpentOn(s, p, a)
  {
  }

  lemma DropSender(s: State, x: Place, p: nat, a: Action)
    ensures SpentOn(Drop(s, x), p, a) ==> SpentOn(s, p, a)
  {
  }

  lemma NotDelivered(s: State, m: Move, p: nat, a: Action)
    requires SpentOn(Next(s, m), p, a) && !m.Deliver?
    ensures SpentOn(s, p, a)
  {
    hide Moved, Drop, Shift;
    match m
    case CheckDeparted(i) => DropSender(s, Local(i), p, a);
    case Sweep(i) =>
      var g := AgentOf(s, i);
      if g.Sweeping? { DropSender(s, Slot(g.conn), p, a); }
    case DropSlot(c) => DropSender(s, Slot(c), p, a);
    case PlacePending(i) =>
      var g := AgentOf(s, i);
      if g.Ready? { ShiftSender(s, Local(i), Slot(g.conn), p, a); }
    case Lift(r) =>
      var x := ReconnectOf(s, r);
      if x.Found? { ShiftSender(s, Slot(x.from), Carried(r), p, a); }
    case Put(r) =>
      var x := ReconnectOf(s, r);
      if x.Bound? { ShiftSender(s, Carried(r), Slot(x.conn), p, a); }
    case _ =>
  }

  lemma {:induction false} RunOrigins(links: map<nat, nat>, moves: seq<Move>)
    ensures Origins(links, moves)
  {
    hide Run, Next, Asked, FromDelivery, SpentOn;
    if moves == [] {
      NothingYet(links);
    } else {
      var n := |moves| - 1;
      var before, m := moves[..n], moves[n];
      var s := Run(Fresh(links), before);
      assert moves == before + [m];
      RunOn(Fresh(links), before, m);
      RunOrigins(links, before);
      forall x | x in Next(s, m).held ensures Asked(links, moves, Next(s, m).held[x]) {
        HeldAsked(links, before, m, x);
      }
      forall p, a | SpentOn(Next(s, m), p, a) ensures FromDelivery(links, moves, p, a) {
        SpentDelivered(links, before, m, p, a);
      }
    }
  }

  lemma NothingYet(links: map<nat, nat>)
    ensures Origins(links, [])
  {
  }

  lemma HeldAsked(links: map<nat, nat>, before: seq<Move>, m: Move, x: Place)
    requires Origins(links, before) && x in Next(Run(Fresh(links), before), m).held
    ensures Asked(links, before + [m], Next(Run(Fresh(links), before), m).held[x])
  {
    hide Run, Next;
    var s := Run(Fresh(links), before);
    var q := Next(s, m).held[x];
    HeldFrom(s, m, x);
    if HeldAt(s, q) {
      AskedStays(links, before, m, q);
    } else {
      assert (before + [m])[..|before|] == before;
      assert AskAt(links, before + [m], |before|, q);
    }
  }

  lemma SpentDelivered(links: map<nat, nat>, before: seq<Move>, m: Move, p: nat, a: Action)
    requires Origins(links, before) && SpentOn(Next(Run(Fresh(links), before), m), p, a)
    ensures FromDelivery(links, before + [m], p, a)
  {
    hide Run, Next, SpentOn;
    var s := Run(Fresh(links), before);
    if SpentOn(s, p, a) {
      DeliveryStays(links, before, m, p, a);
    } else {
      SpentBy(s, m, p, a);
      var q := s.held[Slot(m.conn)];
      var i: nat :| AskAt(links, before, i, q);
      assert (before + [m])[..i] == before[..i];
      assert Traced(links, before + [m], p, a, i, |before|, q, m.conn);
    }
  }

  /** Every answer but a fold was delivered for that very question: it was asked at some move, and
      at a later one a connection delivered the action, naming the table and the hand of the
      question, for which it is legal. */
  lemma AnswersTraceBack(links: map<nat, nat>, moves: seq<Move>, k: nat)
    requires k < |Run(Fresh(links), moves).answers|
    ensures var x := Run(Fresh(links), moves).answers[k];
            x.action == Fold || (x.legal.IsLegal(x.action) && FromDelivery(links, moves, x.p, x.action))
  {
    hide Run, FromDelivery;
    AnswersAreLegal(links, moves, k);
    RunOrigins(links, moves);
    var s := Run(Fresh(links), moves);
    if s.answers[k].action != Fold { assert SpentOn(s, s.answers[k].p, s.answers[k].action); }
  }
}
