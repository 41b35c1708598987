/** Whether the player can answer: the open responder of a prompt against the connection its
    seat is bound to, over every interleaving. */
module Reach {
  import opened Types
  import opened Prompts

  // ---------------------------------------------------------------------------
  // Where responders and their owners are
  // ---------------------------------------------------------------------------

  /** A reconnect that has taken what was in the old slot and not yet put it down. */
  predicate Moving(x: Reconnect) { x.Lifted? || x.Bound? }

  ghost predicate WhereOk(s: State) {
    && (forall x :: x in s.held ==> s.held[x].link in s.links)
    && (forall i :: Local(i) in s.held ==>
          && i in s.agents && (s.agents[i].Looking? || s.agents[i].Ready?)
          && s.agents[i].p == s.held[Local(i)].p && s.agents[i].link == s.held[Local(i)].link)
    && (forall r :: Carried(r) in s.held ==> r in s.reconnects && Moving(s.reconnects[r]))
    && (forall r :: r in s.reconnects && !s.reconnects[r].Done? ==> s.reconnects[r].link in s.links)
  }

  lemma DropWhere(s: State, x: Place)
    requires WhereOk(s)
    ensures WhereOk(Drop(s, x))
  {
  }

  lemma ReturnWhere(s: State, i: nat, p: nat, legal: LegalActions, a: Action)
    requires WhereOk(s) && Local(i) !in s.held
    ensures WhereOk(Return(s, i, p, legal, a))
  {
  }

  lemma AgentWhere(s: State, m: Move)
    requires WhereOk(s) && (m.CheckDeparted? || m.Receive? || m.NoticeDrop? || m.Timeout? || m.Resolve? || m.Sweep?)
    ensures WhereOk(Next(s, m))
  {
    var i := m.agent;
    var g := AgentOf(s, i);
    if m.CheckDeparted? && g.Looking? && g.conn in s.departed {
      DropWhere(s, Local(i));
      ReturnWhere(Drop(s, Local(i)), i, g.p, g.legal, Fold);
    } else if m.Sweep? && g.Sweeping? {
      DropWhere(s, Slot(g.conn));
      ReturnWhere(Drop(s, Slot(g.conn)), i, g.p, g.legal, Fold);
    }
  }

  lemma PlaceWhere(s: State, i: nat)
    requires WhereOk(s)
    ensures WhereOk(Next(s, PlacePending(i)))
  {
    var g := AgentOf(s, i);
    if g.Ready? { DropWhere(s, Slot(g.conn)); }
  }

  lemma ReconnectWhere(s: State, m: Move)
    requires WhereOk(s) && (m.FindSeat? || m.Rebind?)
    ensures WhereOk(Next(s, m))
  {
  }

  lemma LiftWhere(s: State, r: nat)
    requires WhereOk(s)
    ensures WhereOk(Next(s, Lift(r)))
  {
    DropWhere(s, Carried(r));
  }

  lemma PutWhere(s: State, r: nat)
    requires WhereOk(s)
    ensures WhereOk(Next(s, Put(r)))
  {
    var x := ReconnectOf(s, r);
    if x.Bound? { DropWhere(s, Slot(x.conn)); }
  }

  lemma OtherWhere(s: State, m: Move)
    requires WhereOk(s) && (m.Ask? || m.Deliver? || m.Depart? || m.DropSlot?)
    ensures WhereOk(Next(s, m))
  {
    if m.DropSlot? { DropWhere(s, Slot(m.conn)); }
  }

  lemma NextWhere(s: State, m: Move)
    requires WhereOk(s)
    ensures WhereOk(Next(s, m))
  {
    hide WhereOk, Next;
    match m
    case PlacePending(i) => PlaceWhere(s, i);
    case FindSeat(_, _, _) => ReconnectWhere(s, m);
    case Lift(r) => LiftWhere(s, r);
    case Rebind(_) => ReconnectWhere(s, m);
    case Put(r) => PutWhere(s, r);
    case Ask(_, _, _, _, _, _) => OtherWhere(s, m);
    case Deliver(_, _, _, _) => OtherWhere(s, m);
    case Depart(_) => OtherWhere(s, m);
    case DropSlot(_) => OtherWhere(s, m);
    case _ => AgentWhere(s, m);
  }

  /** The player's connection can answer it now, or the reconnect that is bringing the seat its
      connection has it. */
  predicate Reaches(s: State, x: Place)
    requires x in s.held
  {
    var link := s.held[x].link;
    match x
    case Local(_) => true
    case Slot(c) => link in s.links && s.links[link] == c
    case Carried(r) =>
      var y := ReconnectOf(s, r);
      match y
      case Lifted(l, _) => l == link
      case Bound(l, c) => l == link && link in s.links && s.links[link] == c
      case _ => false
  }

  /** The responder of prompt `p` waits where the player's connection is not. */
  ghost predicate Stranded(s: State, p: nat) {
    exists x :: x in s.held && s.held[x].p == p && !Reaches(s, x)
  }

  /** The moves that strand the responder at `x`: placing it with a connection the seat is no
      longer bound to; rebinding the seat while it waits with the connection bound now, or is
      being brought there by another reconnect; and lifting it for another seat. */
  predicate StrandsAt(s: State, m: Move, x: Place)
    requires x in s.held
  {
    var link := s.held[x].link;
    match m
    case PlacePending(i) =>
      var g := AgentOf(s, i);
      x == Local(i) && g.Ready? && link in s.links && s.links[link] != g.conn
    case Rebind(r) =>
      var y := ReconnectOf(s, r);
      y.Lifted? && y.link == link &&
      (match x
       case Local(_) => false
       case Slot(c) => c != y.conn
       case Carried(q) => q != r && ReconnectOf(s, q).Bound? && ReconnectOf(s, q).conn != y.conn)
    case Lift(r) =>
      var y := ReconnectOf(s, r);
      y.Found? && x == Slot(y.from) && y.link != link
    case _ => false
  }

  ghost predicate Strands(s: State, m: Move, p: nat) {
    exists x :: x in s.held && s.held[x].p == p && StrandsAt(s, m, x)
  }

  // ---------------------------------------------------------------------------
  // Exactly those moves
  // ---------------------------------------------------------------------------

  /** Responders only disappear, and nobody's binding changes. */
  ghost predicate OnlyDrops(s: State, r: State) {
    && r.links == s.links
    && (forall x :: x in r.held ==> x.Local? || (x in s.held && r.held[x] == s.held[x]))
    && (forall q :: Carried(q) in s.held ==> ReconnectOf(r, q) == ReconnectOf(s, q))
  }

  lemma DropsStrandNothing(s: State, r: State, p: nat)
    requires OnlyDrops(s, r) && !Stranded(s, p)
    ensures !Stranded(r, p)
  {
    forall x | x in r.held && r.held[x].p == p ensures Reaches(r, x) {
      if !x.Local? { assert Reaches(s, x); }
    }
  }

  lemma QuietMoves(s: State, m: Move)
    requires WhereOk(s) && !m.PlacePending? && !m.Lift? && !m.Rebind? && !m.Put?
    ensures OnlyDrops(s, Next(s, m))
  {
    if m.FindSeat? { FindsOnly(s, m); } else { SameReconnects(s, m); }
  }

  lemma FindsOnly(s: State, m: Move)
    requires WhereOk(s) && m.FindSeat?
    ensures OnlyDrops(s, Next(s, m))
  {
  }

  lemma SameReconnects(s: State, m: Move)
    requires !m.PlacePending? && !m.Lift? && !m.Rebind? && !m.Put? && !m.FindSeat?
    ensures OnlyDrops(s, Next(s, m)) && Next(s, m).reconnects == s.reconnects
  {
    hide Next, OnlyDrops;
    if m.Ask? || m.Deliver? || m.Depart? || m.DropSlot? { SessionDrops(s, m); } else { AgentDrops(s, m); }
  }

  lemma SessionDrops(s: State, m: Move)
    requires m.Ask? || m.Deliver? || m.Depart? || m.DropSlot?
    ensures OnlyDrops(s, Next(s, m)) && Next(s, m).reconnects == s.reconnects
  {
  }

  lemma AgentDrops(s: State, m: Move)
    requires m.CheckDeparted? || m.Receive? || m.NoticeDrop? || m.Timeout? || m.Resolve? || m.Sweep?
    ensures OnlyDrops(s, Next(s, m)) && Next(s, m).reconnects == s.reconnects
  {
  }

  /** A responder moved from `x` to `y`, with whatever was at `y` dropped. */
  lemma ShiftedStranded(s: State, r: State, x: Place, y: Place, p: nat)
    requires x in s.held && x != y && NoCopies(s.held) && !Stranded(s, p)
    requires r.held == Moved(Drop(s, y).held, x, y) && r.links == s.links
    requires forall q :: Carried(q) in s.held && Carried(q) != y ==> ReconnectOf(r, q) == ReconnectOf(s, q)
    requires y in r.held
    ensures Stranded(r, p) <==> s.held[x].p == p && !Reaches(r, y)
  {
    forall z | z in r.held && r.held[z].p == p && z != y ensures Reaches(r, z) {
      assert z in s.held && s.held[z] == r.held[z];
      assert Reaches(s, z);
    }
  }

  lemma PlaceExactly(s: State, i: nat, p: nat)
    requires WhereOk(s) && NoCopies(s.held) && !Stranded(s, p)
    ensures Stranded(Next(s, PlacePending(i)), p) <==> Strands(s, PlacePending(i), p)
  {
    var g := AgentOf(s, i);
    var r := Next(s, PlacePending(i));
    if g.Ready? && Local(i) in s.held {
      ShiftedStranded(s, r, Local(i), Slot(g.conn), p);
      assert r.held[Slot(g.conn)] == s.held[Local(i)];
      assert s.held[Local(i)].p == p && !Reaches(r, Slot(g.conn)) ==> StrandsAt(s, PlacePending(i), Local(i));
    } else {
      DropsStrandNothing(s, r, p);
    }
  }

  lemma LiftExactly(s: State, q: nat, p: nat)
    requires WhereOk(s) && NoCopies(s.held) && !Stranded(s, p)
    ensures Stranded(Next(s, Lift(q)), p) <==> Strands(s, Lift(q), p)
  {
    var y := ReconnectOf(s, q);
    var r := Next(s, Lift(q));
    if y.Found? && Slot(y.from) in s.held {
      assert Carried(q) !in s.held;
      ShiftedStranded(s, r, Slot(y.from), Carried(q), p);
      assert r.held[Carried(q)] == s.held[Slot(y.from)];
      assert s.held[Slot(y.from)].p == p && !Reaches(r, Carried(q)) ==> StrandsAt(s, Lift(q), Slot(y.from));
    } else {
      DropsStrandNothing(s, r, p);
    }
  }

  lemma PutExactly(s: State, q: nat, p: nat)
    requires WhereOk(s) && NoCopies(s.held) && !Stranded(s, p)
    ensures !Stranded(Next(s, Put(q)), p) && !Strands(s, Put(q), p)
  {
    var y := ReconnectOf(s, q);
    var r := Next(s, Put(q));
    if y.Bound? && Carried(q) in s.held {
      PutStranded(s, r, q, p);
    } else {
      DropsStrandNothing(s, r, p);
    }
  }

  lemma PutStranded(s: State, r: State, q: nat, p: nat)
    requires NoCopies(s.held) && !Stranded(s, p) && Carried(q) in s.held && ReconnectOf(s, q).Bound?
    requires r == SetReconnect(Shift(s, Carried(q), Slot(ReconnectOf(s, q).conn)), q, Done)
    ensures !Stranded(r, p)
  {
    var c := ReconnectOf(s, q).conn;
    forall z | z in r.held && r.held[z].p == p ensures Reaches(r, z) {
      if z == Slot(c) {
        assert r.held[z] == s.held[Carried(q)];
        assert Reaches(s, Carried(q));
      } else {
        assert z in s.held && s.held[z] == r.held[z] && z != Carried(q);
        assert Reaches(s, z);
      }
    }
  }

  lemma RebindExactly(s: State, q: nat, p: nat)
    requires WhereOk(s) && NoCopies(s.held) && !Stranded(s, p)
    ensures Stranded(Next(s, Rebind(q)), p) <==> Strands(s, Rebind(q), p)
  {
    var r := Next(s, Rebind(q));
    forall x | x in s.held && s.held[x].p == p ensures !Reaches(r, x) <==> StrandsAt(s, Rebind(q), x) {
      assert Reaches(s, x);
    }
  }

  /** Over every reachable state: a move takes a prompt out of its player's reach exactly when it
      is one of those. */
  lemma StrandedExactly(s: State, m: Move, p: nat)
    requires Inv(s) && WhereOk(s) && !Stranded(s, p)
    ensures Stranded(Next(s, m), p) <==> Strands(s, m, p)
  {
    hide Next, Stranded, WhereOk, NoCopies;
    match m
    case PlacePending(i) => PlaceExactly(s, i, p);
    case Lift(q) => LiftExactly(s, q, p);
    case Put(q) => PutExactly(s, q, p);
    case Rebind(q) => RebindExactly(s, q, p);
    case _ =>
      QuietMoves(s, m);
      DropsStrandNothing(s, Next(s, m), p);
  }

  lemma {:induction false} RunWhere(links: map<nat, nat>, moves: seq<Move>)
    ensures WhereOk(Run(Fresh(links), moves))
  {
    if moves != [] {
      hide WhereOk, Next;
      RunWhere(links, moves[..|moves| - 1]);
      NextWhere(Run(Fresh(links), moves[..|moves| - 1]), moves[|moves| - 1]);
    }
  }

  function After(links: map<nat, nat>, moves: seq<Move>, k: nat): State
    requires k <= |moves|
  {
    Run(Fresh(links), moves[..k])
  }

  lemma AfterStep(links: map<nat, nat>, moves: seq<Move>, n: nat)
    requires n < |moves|
    ensures Inv(After(links, moves, n)) && WhereOk(After(links, moves, n))
    ensures After(links, moves, n + 1) == Next(After(links, moves, n), moves[n])
  {
    hide Run, Next, Inv, WhereOk;
    assert moves[..n + 1] == moves[..n] + [moves[n]];
    RunOn(Fresh(links), moves[..n], moves[n]);
    Prompts.RunKeeps(links, moves[..n]);
    RunWhere(links, moves[..n]);
  }

  lemma NothingStranded(links: map<nat, nat>, moves: seq<Move>, p: nat)
    ensures !Stranded(After(links, moves, 0), p)
  {
  }

  /** Over every run: a prompt is within its player's reach all along exactly when no move of the
      run strands it. */
  lemma {:induction false} InReachExactlyWhen(links: map<nat, nat>, moves: seq<Move>, p: nat, n: nat)
    requires n <= |moves|
    ensures (forall k :: 0 <= k <= n ==> !Stranded(After(links, moves, k), p)) <==>
            (forall k :: 0 <= k < n ==> !Strands(After(links, moves, k), moves[k], p))
  {
    hide After, Next, Stranded, Strands, Inv, WhereOk;
    if n == 0 {
      NothingStranded(links, moves, p);
    } else {
      InReachExactlyWhen(links, moves, p, n - 1);
      AfterStep(links, moves, n - 1);
      var s := After(links, moves, n - 1);
      if !Stranded(s, p) { StrandedExactly(s, moves[n - 1], p); }
    }
  }

  // ---------------------------------------------------------------------------
  // Schedules without overlap
  // ---------------------------------------------------------------------------

  /** Another reconnect of the link is between lifting and putting down. */
  ghost predicate OtherMoving(s: State, link: nat, r: nat) {
    exists q :: q != r && Moving(ReconnectOf(s, q)) && ReconnectOf(s, q).link == link
  }

  ghost predicate BeingLifted(s: State, link: nat) {
    exists q :: ReconnectOf(s, q).Lifted? && ReconnectOf(s, q).link == link
  }

  /** No windows overlap at this move: a prompt is placed with the connection looked up only if
      the seat has not been rebound since and no reconnect of the seat stands between lifting and
      rebinding; a reconnect lifts only if the seat has not been rebound since it looked and no
      other reconnect of the seat is between lifting and putting down. */
  ghost predicate Calm(s: State, m: Move) {
    match m
    case PlacePending(i) =>
      var g := AgentOf(s, i);
      g.Ready? && g.link in s.links ==> s.links[g.link] == g.conn && !BeingLifted(s, g.link)
    case Lift(r) =>
      var y := ReconnectOf(s, r);
      y.Found? && y.link in s.links ==> s.links[y.link] == y.from && !OtherMoving(s, y.link, r)
    case _ => true
  }

  /** A connection serves one seat. */
  predicate Owned(owner: nat -> nat, m: Move) { m.FindSeat? ==> owner(m.conn) == m.link }

  ghost predicate OwnedLinks(owner: nat -> nat, links: map<nat, nat>) {
    forall l :: l in links ==> owner(links[l]) == l
  }

  /** Reconnects of a seat bring its own connections, and one at a time. */
  ghost predicate ReconnectsTidy(owner: nat -> nat, s: State) {
    && OwnedLinks(owner, s.links)
    && (forall r :: !ReconnectOf(s, r).Done? ==> owner(ReconnectOf(s, r).conn) == ReconnectOf(s, r).link)
    && (forall r :: ReconnectOf(s, r).Bound? && ReconnectOf(s, r).link in s.links ==>
          s.links[ReconnectOf(s, r).link] == ReconnectOf(s, r).conn)
    && (forall q, r :: Moving(ReconnectOf(s, q)) && Moving(ReconnectOf(s, r)) && q != r ==>
          ReconnectOf(s, q).link != ReconnectOf(s, r).link)
  }

  /** Responders wait with the bound connection or are carried for their own seat. */
  ghost predicate PlacesTidy(s: State) {
    && (forall c :: Slot(c) in s.held ==> s.held[Slot(c)].link in s.links && s.links[s.held[Slot(c)].link] == c)
    && (forall r :: Carried(r) in s.held ==>
          Moving(ReconnectOf(s, r)) && ReconnectOf(s, r).link == s.held[Carried(r)].link)
  }

  /** What is lifted leaves the slot empty until the seat is rebound. */
  ghost predicate LiftedTidy(s: State) {
    forall r :: ReconnectOf(s, r).Lifted? && ReconnectOf(s, r).link in s.links ==>
      Slot(s.links[ReconnectOf(s, r).link]) !in s.held
  }

  ghost predicate Tidy(owner: nat -> nat, s: State) { ReconnectsTidy(owner, s) && PlacesTidy(s) && LiftedTidy(s) }

  /** All reconnects but `r` stand where they stood. */
  ghost predicate OthersStand(s: State, t: State, r: nat) {
    forall q {:trigger ReconnectOf(t, q)} :: q != r ==> ReconnectOf(t, q) == ReconnectOf(s, q)
  }

  /** Nothing about responders but that some are gone or still local. */
  lemma TidyDrops(owner: nat -> nat, s: State, r: State)
    requires Tidy(owner, s) && r.links == s.links && r.reconnects == s.reconnects
    requires forall x :: x in r.held && !x.Local? ==> x in s.held && r.held[x] == s.held[x]
    ensures Tidy(owner, r)
  {
    assert forall q {:trigger ReconnectOf(r, q)} :: ReconnectOf(r, q) == ReconnectOf(s, q);
  }

  lemma TidyQuiet(owner: nat -> nat, s: State, m: Move)
    requires Tidy(owner, s) && !m.PlacePending? && !m.Lift? && !m.Rebind? && !m.Put? && !m.FindSeat?
    ensures Tidy(owner, Next(s, m))
  {
    hide Tidy, Next;
    SameReconnects(s, m);
    TidyDrops(owner, s, Next(s, m));
  }

  lemma TidyPlace(owner: nat -> nat, s: State, i: nat)
    requires Tidy(owner, s) && WhereOk(s) && Calm(s, PlacePending(i))
    ensures Tidy(owner, Next(s, PlacePending(i)))
  {
    var g := AgentOf(s, i);
    if g.Ready? && Local(i) in s.held {
      var r := Next(s, PlacePending(i));
      assert forall q {:trigger ReconnectOf(r, q)} :: ReconnectOf(r, q) == ReconnectOf(s, q);
      assert r.held[Slot(g.conn)] == s.held[Local(i)];
      forall q | ReconnectOf(s, q).Lifted? && ReconnectOf(s, q).link in s.links
        ensures s.links[ReconnectOf(s, q).link] != g.conn
      {
        assert owner(s.links[ReconnectOf(s, q).link]) == ReconnectOf(s, q).link;
        assert owner(s.links[g.link]) == g.link;
      }
    } else {
      TidyDrops(owner, s, Next(s, PlacePending(i)));
    }
  }

  lemma TidyFind(owner: nat -> nat, s: State, m: Move)
    requires Tidy(owner, s) && WhereOk(s) && m.FindSeat? && Owned(owner, m)
    ensures Tidy(owner, Next(s, m))
  {
    assert OthersStand(s, Next(s, m), m.reconnect);
  }

  lemma TidyLift(owner: nat -> nat, s: State, r: nat)
    requires Tidy(owner, s) && WhereOk(s) && Calm(s, Lift(r))
    ensures Tidy(owner, Next(s, Lift(r)))
  {
    var y := ReconnectOf(s, r);
    if y.Found? {
      var t := Next(s, Lift(r));
      assert OthersStand(s, t, r);
      assert Carried(r) !in s.held;
      if Slot(y.from) in s.held {
        assert t.held[Carried(r)] == s.held[Slot(y.from)];
        assert owner(s.links[s.held[Slot(y.from)].link]) == s.held[Slot(y.from)].link;
      }
    }
  }

  lemma TidyRebind(owner: nat -> nat, s: State, r: nat)
    requires Tidy(owner, s) && WhereOk(s)
    ensures Tidy(owner, Next(s, Rebind(r)))
  {
    var y := ReconnectOf(s, r);
    if y.Lifted? {
      var t := Next(s, Rebind(r));
      assert OthersStand(s, t, r);
      forall q | ReconnectOf(t, q).Lifted? && ReconnectOf(t, q).link in t.links
        ensures Slot(t.links[ReconnectOf(t, q).link]) !in t.held
      {
        assert ReconnectOf(t, q) == ReconnectOf(s, q) && ReconnectOf(s, q).link != y.link;
      }
    }
  }

  lemma TidyPut(owner: nat -> nat, s: State, r: nat)
    requires Tidy(owner, s) && WhereOk(s)
    ensures Tidy(owner, Next(s, Put(r)))
  {
    hide PlacesTidy, LiftedTidy;
    PutPlaces(s, r);
    PutLifted(owner, s, r);
    assert OthersStand(s, Next(s, Put(r)), r);
  }

  lemma PutPlaces(s: State, r: nat)
    requires PlacesTidy(s) && WhereOk(s)
    requires forall q :: ReconnectOf(s, q).Bound? && ReconnectOf(s, q).link in s.links ==>
               s.links[ReconnectOf(s, q).link] == ReconnectOf(s, q).conn
    ensures PlacesTidy(Next(s, Put(r)))
  {
    var y := ReconnectOf(s, r);
    var t := Next(s, Put(r));
    assert OthersStand(s, t, r);
    if y.Bound? && Carried(r) in s.held { assert t.held[Slot(y.conn)] == s.held[Carried(r)]; }
  }

  lemma PutLifted(owner: nat -> nat, s: State, r: nat)
    requires ReconnectsTidy(owner, s) && LiftedTidy(s) && WhereOk(s)
    ensures LiftedTidy(Next(s, Put(r)))
  {
    var y := ReconnectOf(s, r);
    var t := Next(s, Put(r));
    assert OthersStand(s, t, r);
    forall q | ReconnectOf(t, q).Lifted? && ReconnectOf(t, q).link in t.links
      ensures Slot(t.links[ReconnectOf(t, q).link]) !in t.held
    {
      var l := ReconnectOf(s, q).link;
      assert Slot(s.links[l]) !in s.held;
      if y.Bound? && Carried(r) in s.held {
        assert y.link in s.links && l != y.link;
        assert owner(s.links[l]) == l && owner(s.links[y.link]) == y.link;
      }
    }
  }

  lemma TidyNext(owner: nat -> nat, s: State, m: Move)
    requires Tidy(owner, s) && WhereOk(s) && Calm(s, m) && Owned(owner, m)
    ensures Tidy(owner, Next(s, m))
  {
    hide Tidy, WhereOk, Next, Calm;
    match m
    case PlacePending(i) => TidyPlace(owner, s, i);
    case FindSeat(_, _, _) => TidyFind(owner, s, m);
    case Lift(r) => TidyLift(owner, s, r);
    case Rebind(r) => TidyRebind(owner, s, r);
    case Put(r) => TidyPut(owner, s, r);
    case _ => TidyQuiet(owner, s, m);
  }

  lemma TidyReaches(owner: nat -> nat, s: State, p: nat)
    requires Tidy(owner, s) && WhereOk(s)
    ensures !Stranded(s, p)
  {
    forall x | x in s.held && s.held[x].p == p ensures Reaches(s, x) { }
  }

  /** A run in which no windows overlap. */
  ghost predicate CalmRun(owner: nat -> nat, links: map<nat, nat>, moves: seq<Move>) {
    && OwnedLinks(owner, links)
    && forall k :: 0 <= k < |moves| ==> Calm(After(links, moves, k), moves[k]) && Owned(owner, moves[k])
  }

  lemma FreshTidy(owner: nat -> nat, links: map<nat, nat>, moves: seq<Move>)
    requires OwnedLinks(owner, links)
    ensures Tidy(owner, After(links, moves, 0))
  {
    assert moves[..0] == [];
  }

  lemma {:induction false} CalmTidy(owner: nat -> nat, links: map<nat, nat>, moves: seq<Move>, n: nat)
    requires CalmRun(owner, links, moves) && n <= |moves|
    ensures Tidy(owner, After(links, moves, n))
  {
    hide Tidy, After, Next, WhereOk, Calm, Owned;
    if n == 0 {
      FreshTidy(owner, links, moves);
    } else {
      CalmTidy(owner, links, moves, n - 1);
      AfterStep(links, moves, n - 1);
      TidyNext(owner, After(links, moves, n - 1), moves[n - 1]);
    }
  }

  /** Without overlap the responder of every open prompt is, at every point of every run, with
      its agent, with the connection its seat is bound to, or in the hands of the seat's one
      reconnect under way. */
  lemma CalmRunsReach(owner: nat -> nat, links: map<nat, nat>, moves: seq<Move>, p: nat)
    requires CalmRun(owner, links, moves)
    ensures !Stranded(Run(Fresh(links), moves), p)
  {
    hide Tidy, Stranded, CalmRun, WhereOk, Run;
    CalmTidy(owner, links, moves, |moves|);
    assert moves[..|moves|] == moves;
    RunWhere(links, moves);
    TidyReaches(owner, Run(Fresh(links), moves), p);
  }

  // ---------------------------------------------------------------------------
  // What reach is worth
  // ---------------------------------------------------------------------------

  /** Agents at work have prompts of their own, keep listening until they give up, and ask over
      the link their responder is marked with. */
  ghost predicate Known(s: State) {
    && (forall i, j :: i in s.agents && j in s.agents && i != j && !s.agents[i].Idle? && !s.agents[j].Idle? ==>
          s.agents[i].p != s.agents[j].p)
    && (forall i :: i in s.agents && !s.agents[i].Idle? ==> s.agents[i].p < |s.channels|)
    && (forall i :: i in s.agents && Asking(s.agents[i]) ==> !s.channels[s.agents[i].p].closed)
    && (forall i, x :: i in s.agents && Asking(s.agents[i]) && x in s.held && s.held[x].p == s.agents[i].p ==>
          s.held[x].link == s.agents[i].link)
    && (forall x :: x in s.held ==> s.held[x].p < |s.channels|)
  }

  predicate Asking(g: Agent) { g.Looking? || g.Ready? || g.Listening? }

  ghost predicate Comes(held: map<Place, Pending>, q: Pending) { exists y :: y in held && held[y] == q }

  /** Responders only move or go, and channels are none more and none closed. */
  ghost predicate Handles(s: State, r: State) {
    && |r.channels| == |s.channels|
    && (forall p :: 0 <= p < |s.channels| ==> r.channels[p].closed == s.channels[p].closed)
    && (forall x :: x in r.held ==> Comes(s.held, r.held[x]))
  }

  lemma HandlesKnown(s: State, r: State)
    requires Known(s) && Handles(s, r) && r.agents == s.agents
    ensures Known(r)
  {
    forall x | x in r.held ensures exists y :: y in s.held && r.held[x] == s.held[y] {
      assert Comes(s.held, r.held[x]);
    }
  }

  lemma DropHandles(s: State, x: Place)
    ensures Handles(s, Drop(s, x))
  {
    forall z | z in Drop(s, x).held ensures Comes(s.held, Drop(s, x).held[z]) { assert s.held[z] ==
      Drop(s, x).held[z]; }
  }

  lemma ShiftHandles(s: State, x: Place, y: Place)
    ensures Handles(s, Shift(s, x, y))
  {
    var r := Shift(s, x, y);
    DropHandles(s, y);
    forall z | z in r.held ensures Comes(s.held, r.held[z]) {
      if x in s.held && x != y && z == y {
        assert s.held[x] == r.held[z];
      } else {
        assert z in s.held && s.held[z] == r.held[z];
      }
    }
  }

  lemma SpendHandles(s: State, x: Place, a: Action)
    ensures Handles(s, Spend(s, x, a))
  {
    forall z | z in Spend(s, x, a).held ensures Comes(s.held, Spend(s, x, a).held[z]) {
      assert s.held[z] == Spend(s, x, a).held[z];
    }
  }

  /** An agent that goes on asking with the same prompt, or stops asking. */
  lemma StepKnown(s: State, i: nat, g: Agent)
    requires Known(s) && i in s.agents && !s.agents[i].Idle?
    requires g.Idle? || (g.p == s.agents[i].p && (Asking(g) ==> Asking(s.agents[i]) && g.link == s.agents[i].link))
    ensures Known(s.(agents := s.agents[i := g]))
  {
  }

  lemma ReturnKnown(s: State, i: nat, a: Action)
    requires Known(s) && i in s.agents && !s.agents[i].Idle?
    ensures Known(Return(s, i, s.agents[i].p, s.agents[i].legal, a))
  {
    var p := s.agents[i].p;
    StepKnown(s, i, Idle);
    var r := s.(agents := s.agents[i := Idle]);
    CloseKnown(r, p);
    AnswersKnown(r.(channels := r.channels[p := r.channels[p].(closed := true)]),
                 Return(s, i, p, s.agents[i].legal, a));
  }

  /** A channel nobody asks over may close. */
  lemma CloseKnown(s: State, p: nat)
    requires Known(s) && p < |s.channels|
    requires forall i :: i in s.agents && Asking(s.agents[i]) ==> s.agents[i].p != p
    ensures Known(s.(channels := s.channels[p := s.channels[p].(closed := true)]))
  {
  }

  lemma AnswersKnown(s: State, r: State)
    requires Known(s) && r.agents == s.agents && r.channels == s.channels && r.held == s.held
    ensures Known(r)
  {
  }

  lemma StoppedKnown(s: State, i: nat)
    requires Known(s) && i in s.agents && s.agents[i].Listening?
    ensures Known(Stopped(s, i, s.agents[i]))
  {
  }

  lemma AgentKnown(s: State, m: Move)
    requires Known(s) && (m.CheckDeparted? || m.PlacePending? || m.Sweep?)
    ensures Known(Next(s, m))
  {
    hide Known, Drop, Shift;
    var i := m.agent;
    var g := AgentOf(s, i);
    match m
    case CheckDeparted(_) =>
      if g.Looking? {
        if g.conn in s.departed {
          var r := Drop(s, Local(i));
          DropHandles(s, Local(i));
          DropAgents(s, Local(i));
          HandlesKnown(s, r);
          ReturnKnown(r, i, Fold);
        } else {
          StepKnown(s, i, Ready(g.p, g.legal, g.link, g.conn));
        }
      }
    case PlacePending(_) =>
      if g.Ready? {
        var r := Shift(s, Local(i), Slot(g.conn));
        ShiftHandles(s, Local(i), Slot(g.conn));
        ShiftAgents(s, Local(i), Slot(g.conn));
        HandlesKnown(s, r);
        StepKnown(r, i, Listening(g.p, g.legal, g.link));
      }
    case Sweep(_) =>
      if g.Sweeping? {
        var r := Drop(s, Slot(g.conn));
        DropHandles(s, Slot(g.conn));
        DropAgents(s, Slot(g.conn));
        HandlesKnown(s, r);
        ReturnKnown(r, i, Fold);
      }
  }

  lemma DropAgents(s: State, x: Place)
    ensures Drop(s, x).agents == s.agents
  {
  }

  lemma ShiftAgents(s: State, x: Place, y: Place)
    ensures Shift(s, x, y).agents == s.agents
  {
  }

  lemma WaitingKnown(s: State, m: Move)
    requires Known(s) && (m.Receive? || m.NoticeDrop? || m.Timeout? || m.Resolve?)
    ensures Known(Next(s, m))
  {
    hide Known;
    var i := m.agent;
    var g := AgentOf(s, i);
    if g.Listening? {
      StoppedKnown(s, i);
      if g.p < |s.channels| && s.channels[g.p].sender.Used? { ReturnKnown(s, i, s.channels[g.p].sender.action); }
    }
    if g.Folding? && g.link in s.links { StepKnown(s, i, Sweeping(g.p, g.legal, s.links[g.link])); }
  }

  lemma AskKnown(s: State, m: Move)
    requires Known(s) && m.Ask?
    ensures Known(Next(s, m))
  {
    var r := Next(s, m);
    if r != s {
      var p := |s.channels|;
      assert r.agents == s.agents[m.agent := Looking(p, m.legal, m.link, s.links[m.link])];
      forall i, x | i in r.agents && Asking(r.agents[i]) && x in r.held && r.held[x].p == r.agents[i].p
        ensures r.held[x].link == r.agents[i].link
      {
        if x != Local(m.agent) { assert s.held[x].p < p; }
        if i != m.agent { assert s.agents[i].p < p; }
      }
    }
  }

  lemma OtherKnown(s: State, m: Move)
    requires Known(s) && (m.Deliver? || m.Depart? || m.DropSlot? || m.FindSeat? || m.Lift? || m.Rebind? || m.Put?)
    ensures Known(Next(s, m))
  {
    hide Known;
    NextHandles(s, m);
    HandlesKnown(s, Next(s, m));
  }

  lemma NextHandles(s: State, m: Move)
    requires m.Deliver? || m.Depart? || m.DropSlot? || m.FindSeat? || m.Lift? || m.Rebind? || m.Put?
    ensures Handles(s, Next(s, m)) && Next(s, m).agents == s.agents
  {
    forall x | x in s.held ensures Comes(s.held, s.held[x]) { }
    match m
    case Deliver(c, _, _, a) => SpendHandles(s, Slot(c), a);
    case DropSlot(c) => DropHandles(s, Slot(c));
    case Lift(r) => if ReconnectOf(s, r).Found? { ShiftHandles(s, Slot(ReconnectOf(s, r).from), Carried(r)); }
    case Put(r) => if ReconnectOf(s, r).Bound? { ShiftHandles(s, Carried(r), Slot(ReconnectOf(s, r).conn)); }
    case _ =>
  }

  lemma {:induction false} RunKnown(links: map<nat, nat>, moves: seq<Move>)
    ensures Known(Run(Fresh(links), moves))
  {
    if moves != [] {
      hide Known, Next;
      var n := |moves| - 1;
      RunKnown(links, moves[..n]);
      var s, m := Run(Fresh(links), moves[..n]), moves[n];
      match m {
        case Ask(_, _, _, _, _, _) => AskKnown(s, m);
        case Deliver(_, _, _, _) => OtherKnown(s, m);
        case Depart(_) => OtherKnown(s, m);
        case DropSlot(_) => OtherKnown(s, m);
        case FindSeat(_, _, _) => OtherKnown(s, m);
        case Lift(_) => OtherKnown(s, m);
        case Rebind(_) => OtherKnown(s, m);
        case Put(_) => OtherKnown(s, m);
        case CheckDeparted(_) => AgentKnown(s, m);
        case PlacePending(_) => AgentKnown(s, m);
        case Sweep(_) => AgentKnown(s, m);
        case _ => WaitingKnown(s, m);
      }
    }
  }

  /** A listening agent's open prompt that is not stranded is on its way with a reconnect of the
      seat, or the bound connection can answer it, with exactly the legal actions. */
  lemma InReachIsAnswerable(links: map<nat, nat>, moves: seq<Move>, i: nat, a: Action)
    ensures var s := Run(Fresh(links), moves); var g := AgentOf(s, i);
            g.Listening? && g.p < |s.channels| && s.channels[g.p].sender.Open? && !Stranded(s, g.p) ==>
              || (exists r :: Carried(r) in s.held && s.held[Carried(r)].p == g.p && ReconnectOf(s, r).link == g.link)
              || (&& g.link in s.links && Slot(s.links[g.link]) in s.held
                  && var q := s.held[Slot(s.links[g.link])];
                     q.p == g.p && (Delivers(s, s.links[g.link], q.table, q.hand, a) <==> q.legal.IsLegal(a)))
  {
    hide Run;
    Prompts.RunKeeps(links, moves);
    RunWhere(links, moves);
    RunKnown(links, moves);
    var s := Run(Fresh(links), moves);
    var g := AgentOf(s, i);
    if g.Listening? && g.p < |s.channels| && s.channels[g.p].sender.Open? && !Stranded(s, g.p) {
      assert HeldSomewhere(s.held, g.p);
      var x :| x in s.held && s.held[x].p == g.p;
      assert Reaches(s, x) && s.held[x].link == g.link;
    }
  }

  // ---------------------------------------------------------------------------
  // Each kind of overlap strands
  // ---------------------------------------------------------------------------

  /** A responder still with its agent is within reach. */
  lemma LocalReaches(s: State, i: nat)
    requires NoCopies(s.held) && Local(i) in s.held
    ensures !Stranded(s, s.held[Local(i)].p)
  {
  }

  /** The seat was rebound between the agent's look-up and its placing. */
  lemma ReboundBeforePlacing(s: State, i: nat)
    requires Inv(s) && WhereOk(s) && Local(i) in s.held && AgentOf(s, i).Ready?
    requires s.links[s.held[Local(i)].link] != AgentOf(s, i).conn
    ensures Stranded(Next(s, PlacePending(i)), s.held[Local(i)].p)
  {
    hide Next;
    var p := s.held[Local(i)].p;
    LocalReaches(s, i);
    StrandedExactly(s, PlacePending(i), p);
    assert StrandsAt(s, PlacePending(i), Local(i));
  }

  /** A prompt waits with the bound connection when a reconnect that has already lifted rebinds
      the seat: it was placed in between, or put there by another reconnect. */
  lemma ReboundOverWaiting(s: State, r: nat)
    requires Inv(s) && WhereOk(s) && ReconnectOf(s, r).Lifted?
    requires var y := ReconnectOf(s, r); var c := s.links[y.link];
             Slot(c) in s.held && s.held[Slot(c)].link == y.link && y.conn != c
    ensures var p := s.held[Slot(s.links[ReconnectOf(s, r).link])].p; Stranded(Next(s, Rebind(r)), p)
  {
    var y := ReconnectOf(s, r);
    var c := s.links[y.link];
    var t := Next(s, Rebind(r));
    assert t.held[Slot(c)] == s.held[Slot(c)] && t.links[y.link] == y.conn;
    assert !Reaches(t, Slot(c));
  }

  /** Placing between another party's lifting and rebinding comes to that. */
  lemma PlacedWhileLifted(s: State, i: nat, r: nat)
    requires Inv(s) && WhereOk(s) && Local(i) in s.held && AgentOf(s, i).Ready? && ReconnectOf(s, r).Lifted?
    requires var g, y := AgentOf(s, i), ReconnectOf(s, r);
             y.link == g.link && s.links[g.link] == g.conn && y.conn != g.conn
    ensures Stranded(Next(Next(s, PlacePending(i)), Rebind(r)), s.held[Local(i)].p)
  {
    var g := AgentOf(s, i);
    var t := Next(s, PlacePending(i));
    assert t.held[Slot(g.conn)] == s.held[Local(i)] && t.links == s.links && ReconnectOf(t, r) == ReconnectOf(s, r);
    hide Next;
    Prompts.NextKeeps(s, PlacePending(i));
    NextWhere(s, PlacePending(i));
    ReboundOverWaiting(t, r);
  }

  /** A second reconnect of the seat rebinds it before the first has put the prompt down. */
  lemma ReboundOverCarried(s: State, q: nat, r: nat)
    requires Inv(s) && WhereOk(s) && ReconnectOf(s, r).Lifted? && ReconnectOf(s, q).Bound? && Carried(q) in s.held
    requires var x, y := ReconnectOf(s, q), ReconnectOf(s, r);
             x.link == y.link == s.held[Carried(q)].link && x.conn != y.conn
    ensures Stranded(Next(s, Rebind(r)), s.held[Carried(q)].p)
  {
    var t := Next(s, Rebind(r));
    assert t.held[Carried(q)] == s.held[Carried(q)] && ReconnectOf(t, q) == ReconnectOf(s, q);
    assert !Reaches(t, Carried(q));
  }

  // ---------------------------------------------------------------------------
  // Three schedules
  // ---------------------------------------------------------------------------

  /** One prompt at `at`, one seat bound to `bound`, one agent, some reconnects. */
  function One(q: Pending, bound: nat, at: Place, g: Agent, recs: map<nat, Reconnect>): State {
    State(map[0 := bound], {}, map[at := q], [Channel(q.legal, Open, false)], map[0 := g], recs, [], [])
  }

  function Ready0(q: Pending): Agent { Ready(0, q.legal, 0, 1) }
  function Listening0(q: Pending): Agent { Listening(0, q.legal, 0) }

  /** The prompt as asked over link 0, bound to connection 1. */
  lemma AskedAndReady(q: Pending)
    requires q.p == 0 && q.link == 0
    ensures Next(Next(Fresh(map[0 := 1]), Ask(0, 0, q.table, q.hand, q.seat, q.legal)), CheckDeparted(0)) ==
            One(q, 1, Local(0), Ready0(q), map[])
  {
    var s := Next(Fresh(map[0 := 1]), Ask(0, 0, q.table, q.hand, q.seat, q.legal));
    assert s.held == map[Local(0) := q];
    assert Next(s, CheckDeparted(0)).agents == map[0 := Ready0(q)];
  }

  lemma FindOne(q: Pending, b: nat, at: Place, g: Agent, recs: map<nat, Reconnect>, r: nat, c: nat)
    requires r in recs ==> recs[r].Done?
    ensures Next(One(q, b, at, g, recs), FindSeat(r, 0, c)) == One(q, b, at, g, recs[r := Found(0, b, c)])
  {
  }

  lemma LiftNothing(q: Pending, b: nat, at: Place, g: Agent, recs: map<nat, Reconnect>, r: nat)
    requires r in recs && recs[r].Found? && at != Slot(recs[r].from)
    ensures Next(One(q, b, at, g, recs), Lift(r)) == One(q, b, at, g, recs[r := Lifted(recs[r].link, recs[r].conn)])
  {
  }

  lemma LiftOne(q: Pending, b: nat, g: Agent, recs: map<nat, Reconnect>, r: nat)
    requires r in recs && recs[r].Found?
    ensures Next(One(q, b, Slot(recs[r].from), g, recs), Lift(r)) ==
            One(q, b, Carried(r), g, recs[r := Lifted(recs[r].link, recs[r].conn)])
  {
    assert Next(One(q, b, Slot(recs[r].from), g, recs), Lift(r)).held == map[Carried(r) := q];
  }

  lemma RebindOne(q: Pending, b: nat, at: Place, g: Agent, recs: map<nat, Reconnect>, r: nat, c: nat)
    requires r in recs && recs[r] == Lifted(0, c)
    ensures Next(One(q, b, at, g, recs), Rebind(r)) == One(q, c, at, g, recs[r := Bound(0, c)])
  {
    assert Next(One(q, b, at, g, recs), Rebind(r)).links == map[0 := c];
  }

  lemma PutNothing(q: Pending, b: nat, at: Place, g: Agent, recs: map<nat, Reconnect>, r: nat)
    requires r in recs && recs[r].Bound? && at != Carried(r)
    ensures Next(One(q, b, at, g, recs), Put(r)) == One(q, b, at, g, recs[r := Done])
  {
  }

  lemma PutOne(q: Pending, b: nat, g: Agent, recs: map<nat, Reconnect>, r: nat)
    requires r in recs && recs[r].Bound?
    ensures Next(One(q, b, Carried(r), g, recs), Put(r)) == One(q, b, Slot(recs[r].conn), g, recs[r := Done])
  {
    assert Next(One(q, b, Carried(r), g, recs), Put(r)).held == map[Slot(recs[r].conn) := q];
  }

  lemma PlaceOne(q: Pending, b: nat, recs: map<nat, Reconnect>)
    requires q.p == 0
    ensures Next(One(q, b, Local(0), Ready0(q), recs), PlacePending(0)) == One(q, b, Slot(1), Listening0(q), recs)
  {
    var s := Next(One(q, b, Local(0), Ready0(q), recs), PlacePending(0));
    assert s.held == map[Slot(1) := q] && s.agents == map[0 := Listening0(q)];
  }

  /** The bound connection is 2 and can deliver nothing. */
  ghost predicate Unanswerable(s: State, q: Pending) {
    Stranded(s, 0) && s.links == map[0 := 2] && forall a :: !Delivers(s, 2, q.table, q.hand, a)
  }

  lemma OneUnanswerable(q: Pending, c: nat, recs: map<nat, Reconnect>)
    requires q.p == 0 && q.link == 0 && c != 2
    ensures Unanswerable(One(q, 2, Slot(c), Listening0(q), recs), q)
  {
    var s := One(q, 2, Slot(c), Listening0(q), recs);
    assert Slot(c) in s.held && !Reaches(s, Slot(c));
  }

  /** A whole reconnect between look-up and placing. */
  lemma StrandedByReconnect(q: Pending)
    requires q.p == 0 && q.link == 0
    ensures var s := Next(Next(Fresh(map[0 := 1]), Ask(0, 0, q.table, q.hand, q.seat, q.legal)), CheckDeparted(0));
            var t := Next(Next(Next(Next(s, FindSeat(0, 0, 2)), Lift(0)), Rebind(0)), Put(0));
            Unanswerable(Next(t, PlacePending(0)), q)
  {
    hide Next, One, Unanswerable;
    var g, recs := Ready0(q), map[0 := Found(0, 1, 2)];
    AskedAndReady(q);
    FindOne(q, 1, Local(0), g, map[], 0, 2);
    assert map[][0 := Found(0, 1, 2)] == recs;
    LiftNothing(q, 1, Local(0), g, recs, 0);
    RebindOne(q, 1, Local(0), g, recs[0 := Lifted(0, 2)], 0, 2);
    PutNothing(q, 2, Local(0), g, recs[0 := Lifted(0, 2)][0 := Bound(0, 2)], 0);
    PlaceOne(q, 2, recs[0 := Lifted(0, 2)][0 := Bound(0, 2)][0 := Done]);
    OneUnanswerable(q, 1, recs[0 := Lifted(0, 2)][0 := Bound(0, 2)][0 := Done]);
  }

  /** Placing within a reconnect, between its lifting and its rebinding. */
  lemma StrandedWithinReconnect(q: Pending)
    requires q.p == 0 && q.link == 0
    ensures var s := Next(Next(Fresh(map[0 := 1]), Ask(0, 0, q.table, q.hand, q.seat, q.legal)), CheckDeparted(0));
            var t := Next(Next(Next(s, FindSeat(0, 0, 2)), Lift(0)), PlacePending(0));
            Unanswerable(Next(Next(t, Rebind(0)), Put(0)), q)
  {
    hide Next, One, Unanswerable;
    var recs := map[0 := Found(0, 1, 2)];
    AskedAndReady(q);
    FindOne(q, 1, Local(0), Ready0(q), map[], 0, 2);
    assert map[][0 := Found(0, 1, 2)] == recs;
    LiftNothing(q, 1, Local(0), Ready0(q), recs, 0);
    PlaceOne(q, 1, recs[0 := Lifted(0, 2)]);
    RebindOne(q, 1, Slot(1), Listening0(q), recs[0 := Lifted(0, 2)], 0, 2);
    PutNothing(q, 2, Slot(1), Listening0(q), recs[0 := Lifted(0, 2)][0 := Bound(0, 2)], 0);
    OneUnanswerable(q, 1, recs[0 := Lifted(0, 2)][0 := Bound(0, 2)][0 := Done]);
  }

  /** Two reconnects of one seat, the second to look being the first to finish. */
  lemma StrandedByTwo(q: Pending)
    requires q.p == 0 && q.link == 0
    ensures var s := Next(Next(Fresh(map[0 := 1]), Ask(0, 0, q.table, q.hand, q.seat, q.legal)), CheckDeparted(0));
            var t := Next(Next(Next(s, PlacePending(0)), FindSeat(0, 0, 2)), FindSeat(1, 0, 3));
            var v := Next(Next(Next(t, Lift(1)), Rebind(1)), Put(1));
            Unanswerable(Next(Next(Next(v, Lift(0)), Rebind(0)), Put(0)), q)
  {
    hide Next, One, Unanswerable;
    var g := Listening0(q);
    AskedAndReady(q);
    PlaceOne(q, 1, map[]);
    FindOne(q, 1, Slot(1), g, map[], 0, 2);
    FindOne(q, 1, Slot(1), g, map[][0 := Found(0, 1, 2)], 1, 3);
    SecondThenFirst(q, map[][0 := Found(0, 1, 2)][1 := Found(0, 1, 3)]);
  }

  lemma SecondThenFirst(q: Pending, recs: map<nat, Reconnect>)
    requires q.p == 0 && q.link == 0
    requires 0 in recs && recs[0] == Found(0, 1, 2) && 1 in recs && recs[1] == Found(0, 1, 3)
    ensures var s := One(q, 1, Slot(1), Listening0(q), recs);
            var v := Next(Next(Next(s, Lift(1)), Rebind(1)), Put(1));
            Unanswerable(Next(Next(Next(v, Lift(0)), Rebind(0)), Put(0)), q)
  {
    hide Next, One, Unanswerable;
    var g := Listening0(q);
    LiftOne(q, 1, g, recs, 1);
    var r1 := recs[1 := Lifted(0, 3)];
    RebindOne(q, 1, Carried(1), g, r1, 1, 3);
    var r2 := r1[1 := Bound(0, 3)];
    PutOne(q, 3, g, r2, 1);
    var r3 := r2[1 := Done];
    LiftNothing(q, 3, Slot(3), g, r3, 0);
    var r4 := r3[0 := Lifted(0, 2)];
    RebindOne(q, 3, Slot(3), g, r4, 0, 2);
    var r5 := r4[0 := Bound(0, 2)];
    PutNothing(q, 2, Slot(3), g, r5, 0);
    OneUnanswerable(q, 3, r5[0 := Done]);
  }
}
