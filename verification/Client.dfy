/** The client's state machine (`ClientCore`): what each user intent and each server message
    does to its state, and what it sends. Log lines, session keys, lobby listings and player
    statistics are left out: nothing below depends on them. */
module Clients {
  import opened Types
  import opened Protocol

  datatype Phase =
    | Disconnected | Connecting | Authenticating | Lobby | Seated(table: nat, seat: nat) | Ended(reason: string)

  datatype CurrentHand = CurrentHand(
    id: nat, dealer: nat, street: Street, hole: Option<(Card, Card)>, board: seq<Card>, pot: nat,
    folded: seq<nat>, allIn: seq<nat>, awaiting: bool, legal: Option<LegalActions>, deadline: Option<nat>,
    bets: seq<(nat, nat)>)

  datatype View = View(
    phase: Phase, player: Option<nat>, seats: seq<SeatInfo>, button: Option<nat>,
    hand: Option<CurrentHand>, rejection: Option<string>)

  datatype ActivePrompt = ActivePrompt(table: nat, hand: nat, seat: nat, legal: LegalActions)

  /** `Handshake` stands for a register or authenticate message, whatever it says. */
  datatype ClientMessage =
    | Handshake(credentials: string)
    | ListTables
    | JoinTable(table: nat, buyIn: nat)
    | LeaveTable(table: nat)
    | SubmitAction(table: nat, hand: nat, action: Action)
    | Heartbeat
    | Disconnect

  datatype Effect = OpenConnection | Send(message: ClientMessage) | CloseConnection

  datatype Intent =
    | Connect
    | ConnectionOpened
    | Login(credentials: string)
    | WantTables
    | Join(table: nat, buyIn: nat)
    | Leave(table: nat)
    | Submit(action: Action)
    | Beat
    | Quit
    | ConnectionLost(reason: string)

  datatype Core = Core(view: View, open: bool, handshake: Option<ClientMessage>, prompt: Option<ActivePrompt>)

  datatype Reply = Reply(core: Core, effects: seq<Effect>)

  function EmptyView(phase: Phase): View { View(phase, None, [], None, None, None) }

  function Fresh(): Core { Core(EmptyView(Disconnected), false, None, None) }

  function Started(id: nat, dealer: nat): CurrentHand {
    CurrentHand(id, dealer, Preflop, None, [], 0, [], [], false, None, None, [])
  }

  function OurSeat(v: View): Option<nat> { if v.phase.Seated? then Some(v.phase.seat) else None }

  // ---------------------------------------------------------------------------
  // Intents
  // ---------------------------------------------------------------------------

  function Disarm(h: CurrentHand): CurrentHand { h.(awaiting := false, legal := None, deadline := None) }

  function WithHand(c: Core, h: Option<CurrentHand>): Core { c.(view := c.view.(hand := h)) }

  /** Sent only against an open prompt, only once, and only if legal for it. The prompt itself is
      kept, so that a rejection can open it again. */
  function OnSubmit(c: Core, a: Action): Reply {
    if c.view.hand.None? || !c.view.hand.value.awaiting || c.prompt.None? ||
      !c.prompt.value.legal.IsLegal(a) then Reply(c, [])
    else Reply(WithHand(c, Some(Disarm(c.view.hand.value))),
               [Send(SubmitAction(c.prompt.value.table, c.prompt.value.hand, a))])
  }

  function OnIntent(c: Core, i: Intent): Reply {
    match i
    case Connect => Reply(c.(view := c.view.(phase := Connecting)), [OpenConnection])
    case ConnectionOpened =>
      if c.handshake.Some?
      then Reply(c.(open := true, handshake := None, view := c.view.(phase := Authenticating)),
        [Send(c.handshake.value)])
      else Reply(c.(open := true), [])
    case Login(what) =>
      if c.open then Reply(c.(view := c.view.(phase := Authenticating)), [Send(Handshake(what))])
      else Reply(c.(handshake := Some(Handshake(what))), [])
    case WantTables => Reply(c, [Send(ListTables)])
    case Join(t, buyIn) => Reply(c, [Send(JoinTable(t, buyIn))])
    case Leave(t) => Reply(c, [Send(LeaveTable(t))])
    case Submit(a) => OnSubmit(c, a)
    case Beat => Reply(c, [Send(ClientMessage.Heartbeat)])
    case Quit => Reply(Fresh(), [Send(Disconnect), CloseConnection])
    case ConnectionLost(reason) => Reply(Core(EmptyView(Ended(reason)), false, None, None), [])
  }

  // ---------------------------------------------------------------------------
  // Projecting engine events
  // ---------------------------------------------------------------------------

  /** Where a seat's bet is listed, or the length of the list. */
  function BetAt(bets: seq<(nat, nat)>, seat: nat): (i: nat)
    ensures i <= |bets| && (i < |bets| ==> bets[i].0 == seat)
    ensures forall j :: 0 <= j < i ==> bets[j].0 != seat
  {
    if bets == [] then 0
    else if bets[0].0 == seat then 0
    else
      var i := BetAt(bets[1..], seat);
      assert forall j :: 1 <= j < 1 + i ==> bets[j] == bets[1..][j - 1];
      1 + i
  }

  function UpdateBet(bets: seq<(nat, nat)>, seat: nat, amount: nat): seq<(nat, nat)> {
    var i := BetAt(bets, seat);
    if i < |bets| then bets[i := (seat, amount)] else bets + [(seat, amount)]
  }

  function MaxBet(bets: seq<(nat, nat)>): (m: nat)
    ensures forall i :: 0 <= i < |bets| ==> bets[i].1 <= m
  {
    if bets == [] then 0 else Max(MaxBet(bets[..|bets| - 1]), bets[|bets| - 1].1)
  }

  function AddSeat(seats: seq<nat>, seat: nat): seq<nat> { if seat in seats then seats else seats + [seat] }

  function BetAfter(bets: seq<(nat, nat)>, seat: nat, a: Action): seq<(nat, nat)> {
    match a
    case Fold => bets
    case Check => UpdateBet(bets, seat, MaxBet(bets))
    case Call => UpdateBet(bets, seat, MaxBet(bets))
    case Raise(to) => UpdateBet(bets, seat, to)
    case AllIn => bets
  }

  /** Each seat is listed at most once. */
  ghost predicate OnePerSeat(bets: seq<(nat, nat)>) {
    forall i, j :: 0 <= i < j < |bets| ==> bets[i].0 != bets[j].0
  }

  /** What is shown in front of a seat. */
  function ShownBet(bets: seq<(nat, nat)>, seat: nat): nat {
    var i := BetAt(bets, seat);
    if i < |bets| then bets[i].1 else 0
  }

  lemma ListedOnce(bets: seq<(nat, nat)>, i: nat)
    requires OnePerSeat(bets) && i < |bets|
    ensures BetAt(bets, bets[i].0) == i
  {
  }

  lemma UpdateShows(bets: seq<(nat, nat)>, seat: nat, amount: nat, s: nat)
    requires OnePerSeat(bets)
    ensures var r := UpdateBet(bets, seat, amount);
            OnePerSeat(r) && ShownBet(r, s) == if s == seat then amount else ShownBet(bets, s)
  {
    var r, i := UpdateBet(bets, seat, amount), BetAt(bets, seat);
    ListedOnce(r, i);
    var j := BetAt(r, s);
    if s != seat {
      if j < |r| { assert j < |bets| && bets[j].0 == s; ListedOnce(bets, j); }
      if BetAt(bets, s) < |bets| { ListedOnce(r, BetAt(bets, s)); }
    }
  }

  lemma {:induction false} HighestShown(bets: seq<(nat, nat)>)
    ensures MaxBet(bets) == 0 || exists i :: 0 <= i < |bets| && bets[i].1 == MaxBet(bets)
  {
    if bets != [] && bets[|bets| - 1].1 != MaxBet(bets) {
      HighestShown(bets[..|bets| - 1]);
      var n := |bets| - 1;
      if MaxBet(bets[..n]) != 0 {
        var i :| 0 <= i < n && bets[..n][i].1 == MaxBet(bets[..n]);
        assert bets[i].1 == MaxBet(bets);
      }
    }
  }

  /** What is shown after an action, seat by seat: a raise shows its total, a check or a call the
      most anybody is shown to have bet, a fold or an all-in what was there; nobody else changes. */
  lemma BetsShown(bets: seq<(nat, nat)>, seat: nat, a: Action, s: nat, most: nat)
    requires OnePerSeat(bets)
    requires forall t: nat :: ShownBet(bets, t) <= most
    requires most == 0 || exists t: nat :: ShownBet(bets, t) == most
    ensures var r := BetAfter(bets, seat, a);
            && OnePerSeat(r)
            && ShownBet(r, s) == if s != seat || a.Fold? || a.AllIn? then ShownBet(bets, s)
                                 else if a.Raise? then a.amount else most
  {
    HighestShown(bets);
    if most > 0 {
      var t: nat :| ShownBet(bets, t) == most;
      assert bets[BetAt(bets, t)].1 == most;
    }
    if MaxBet(bets) > 0 {
      var i :| 0 <= i < |bets| && bets[i].1 == MaxBet(bets);
      ListedOnce(bets, i);
      assert ShownBet(bets, bets[i].0) == MaxBet(bets);
    }
    UpdateShows(bets, seat, if a.Raise? then a.amount else MaxBet(bets), s);
  }

  function Project(c: Core, e: Event): Core {
    match e
    case HandStarted(id, dealer, _) =>
      c.(view := c.view.(hand := Some(Started(id, dealer)), rejection := None), prompt := None)
    case HandEnded(_, _) => WithHand(c, None).(prompt := None)
    case _ =>
      if c.view.hand.None? then c
      else
        var h := c.view.hand.value;
        match e
        case HoleCardsDealt(seat, cards) =>
          if OurSeat(c.view) == Some(seat) then WithHand(c, Some(h.(hole := Some(cards)))) else c
        case BoardDealt(street, cards) =>
          WithHand(c, Some(h.(street := street, board := h.board + cards, bets := [])))
        case ActionTaken(seat, a, pot) =>
          WithHand(c, Some(h.(pot := pot, folded := if a.Fold? then AddSeat(h.folded, seat) else h.folded,
                              bets := BetAfter(h.bets, seat, a))))
        case PlayerAllIn(seat, total) =>
          WithHand(c, Some(h.(allIn := AddSeat(h.allIn, seat), bets := UpdateBet(h.bets, seat, total))))
        case _ => c
  }

  predicate AtTable(c: Core, table: nat) { c.view.phase.Seated? && c.view.phase.table == table }

  // ---------------------------------------------------------------------------
  // Messages
  // ---------------------------------------------------------------------------

  /** A message other than a replay. */
  function OnPlain(c: Core, m: ServerMessage): Reply {
    match m
    case Welcome(p) => Reply(c.(view := c.view.(phase := Lobby, player := Some(p))), [])
    case Rejected(reason) => Reply(c.(view := c.view.(phase := Ended(reason))), [CloseConnection])
    case Goodbye(reason) => Reply(Core(EmptyView(Ended(reason)), false, None, None), [CloseConnection])
    case JoinedTable(t, seat, seats) =>
      Reply(c.(view := c.view.(phase := Seated(t, seat), seats := seats, button := None, hand := None,
        rejection := None),
               prompt := None), [])
    case LeftTable(t) =>
      Reply(c.(view := c.view.(phase := Lobby, seats := [], button := None, hand := None), prompt := None), [])
    case TableState(t, seats, button) =>
      Reply(if AtTable(c, t) then c.(view := c.view.(seats := seats, button := Some(button))) else c, [])
    case TableEvent(t, e) => Reply(if AtTable(c, t) then Project(c, e) else c, [])
    case Prompt(t, hand, seat, legal, deadline) =>
      var h := if c.view.hand.None? then None
               else Some(c.view.hand.value.(awaiting := true, legal := Some(legal), deadline := Some(deadline)));
      Reply(c.(view := c.view.(hand := h, rejection := None), prompt := Some(ActivePrompt(t, hand, seat, legal))), [])
    case ActionRejected(reason) =>
      var h := if c.prompt.None? || c.view.hand.None? then c.view.hand
               else Some(c.view.hand.value.(awaiting := true, legal := Some(c.prompt.value.legal)));
      Reply(c.(view := c.view.(hand := h, rejection := Some(reason))), [])
    case _ => Reply(c, [])
  }

  /** Where the client sits and who else does: joining seats it with nothing on the table yet, news
      of its own table replaces seats and button, news of another changes nothing. */
  lemma SeatNews(c: Core, t: nat, seat: nat, seats: seq<SeatInfo>, button: nat)
    ensures var j := OnPlain(c, JoinedTable(t, seat, seats)).core;
            var n := OnPlain(j, TableState(t, seats, button)).core;
            && OurSeat(j.view) == Some(seat) && AtTable(j, t) && j.view.seats == seats
            && j.view.hand.None? && j.prompt.None? && j.view.button.None?
            && n == j.(view := j.view.(seats := seats, button := Some(button)))
            && (forall other: nat :: other != t ==> OnPlain(j, TableState(other, seats, button)).core == j)
  {
  }

  function Nested(m: ServerMessage): nat { if m.ReplayEvents? then |m.events| + 1 else 0 }

  /** A replay feeds every message it holds back in, in order. */
  function OnMessage(c: Core, m: ServerMessage): Reply
    decreases m, Nested(m)
  {
    if m.ReplayEvents? then OnReplayed(c, m, |m.events|) else OnPlain(c, m)
  }

  function OnReplayed(c: Core, m: ServerMessage, k: nat): Reply
    requires m.ReplayEvents? && k <= |m.events|
    decreases m, k
  {
    if k == 0 then Reply(c, [])
    else
      var r := OnReplayed(c, m, k - 1);
      var n := OnMessage(r.core, m.events[k - 1]);
      Reply(n.core, r.effects + n.effects)
  }

  // ---------------------------------------------------------------------------
  // Runs
  // ---------------------------------------------------------------------------

  datatype Input = Did(intent: Intent) | Got(message: ServerMessage)

  function OnInput(c: Core, x: Input): Reply {
    match x
    case Did(i) => OnIntent(c, i)
    case Got(m) => OnMessage(c, m)
  }

  function Play(c: Core, xs: seq<Input>): Reply {
    if xs == [] then Reply(c, [])
    else
      var r := Play(c, xs[..|xs| - 1]);
      var n := OnInput(r.core, xs[|xs| - 1]);
      Reply(n.core, r.effects + n.effects)
  }

  lemma PlayOn(c: Core, xs: seq<Input>, x: Input)
    ensures var r := Play(c, xs); var n := OnInput(r.core, x);
            Play(c, xs + [x]) == Reply(n.core, r.effects + n.effects)
  {
    assert (xs + [x])[..|xs|] == xs;
  }

  lemma {:induction false} PlayConcat(c: Core, xs: seq<Input>, ys: seq<Input>)
    ensures var r := Play(c, xs); var n := Play(r.core, ys);
            Play(c, xs + ys) == Reply(n.core, r.effects + n.effects)
  {
    hide OnInput;
    if ys == [] {
      assert xs + ys == xs;
    } else {
      var k := |ys| - 1;
      PlayConcat(c, xs, ys[..k]);
      assert xs + ys == xs + ys[..k] + [ys[k]];
      PlayOn(c, xs + ys[..k], ys[k]);
    }
  }

  /** The plain messages a message amounts to. */
  function Flat(m: ServerMessage): seq<Input>
    decreases m, Nested(m)
  {
    if m.ReplayEvents? then FlatReplayed(m, |m.events|) else [Got(m)]
  }

  function FlatReplayed(m: ServerMessage, k: nat): seq<Input>
    requires m.ReplayEvents? && k <= |m.events|
    decreases m, k
  {
    if k == 0 then [] else FlatReplayed(m, k - 1) + Flat(m.events[k - 1])
  }

  function Flattened(xs: seq<Input>): seq<Input> {
    if xs == [] then []
    else Flattened(xs[..|xs| - 1]) + if xs[|xs| - 1].Got? then Flat(xs[|xs| - 1].message) else [xs[|xs| - 1]]
  }

  lemma One(c: Core, x: Input)
    ensures Play(c, [x]) == OnInput(c, x)
  {
    PlayOn(c, [], x);
    assert [] + [x] == [x];
  }

  lemma {:induction false} OnMessageFlat(c: Core, m: ServerMessage)
    ensures OnMessage(c, m) == Play(c, Flat(m))
    decreases m, Nested(m)
  {
    if m.ReplayEvents? { OnReplayedFlat(c, m, |m.events|); } else { One(c, Got(m)); }
  }

  lemma {:induction false} OnReplayedFlat(c: Core, m: ServerMessage, k: nat)
    requires m.ReplayEvents? && k <= |m.events|
    ensures OnReplayed(c, m, k) == Play(c, FlatReplayed(m, k))
    decreases m, k
  {
    if k > 0 {
      OnReplayedFlat(c, m, k - 1);
      OnMessageFlat(OnReplayed(c, m, k - 1).core, m.events[k - 1]);
      PlayConcat(c, FlatReplayed(m, k - 1), Flat(m.events[k - 1]));
    }
  }

  /** A run is the run of its plain messages. */
  lemma {:induction false} PlayFlat(c: Core, xs: seq<Input>)
    ensures Play(c, xs) == Play(c, Flattened(xs))
  {
    if xs != [] {
      var n := |xs| - 1;
      PlayFlat(c, xs[..n]);
      var r := Play(c, xs[..n]);
      if xs[n].Got? {
        OnMessageFlat(r.core, xs[n].message);
        PlayConcat(c, Flattened(xs[..n]), Flat(xs[n].message));
      } else {
        PlayOn(c, Flattened(xs[..n]), xs[n]);
      }
    }
  }

  predicate Plain(xs: seq<Input>) { forall k :: 0 <= k < |xs| ==> xs[k].Got? ==> !xs[k].message.ReplayEvents? }

  lemma {:induction false} FlatPlain(m: ServerMessage)
    ensures Plain(Flat(m))
    decreases m, Nested(m)
  {
    if m.ReplayEvents? { FlatReplayedPlain(m, |m.events|); }
  }

  lemma {:induction false} FlatReplayedPlain(m: ServerMessage, k: nat)
    requires m.ReplayEvents? && k <= |m.events|
    ensures Plain(FlatReplayed(m, k))
    decreases m, k
  {
    if k > 0 {
      FlatReplayedPlain(m, k - 1);
      FlatPlain(m.events[k - 1]);
    }
  }

  lemma {:induction false} FlattenedPlain(xs: seq<Input>)
    ensures Plain(Flattened(xs))
  {
    if xs != [] {
      FlattenedPlain(xs[..|xs| - 1]);
      if xs[|xs| - 1].Got? { FlatPlain(xs[|xs| - 1].message); }
    }
  }
}
