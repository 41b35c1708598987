/** The client as an object that changes in place, step by step what `Clients` says. */
module ClientCores {
  import opened Types
  import opened Protocol
  import opened Clients

  /** `update_bet`. */
  method SetBet(bets: seq<(nat, nat)>, seat: nat, amount: nat) returns (r: seq<(nat, nat)>)
    ensures r == UpdateBet(bets, seat, amount)
  {
    for i := 0 to |bets|
      invariant i <= BetAt(bets, seat)
    {
      if bets[i].0 == seat { return bets[i := (seat, amount)]; }
    }
    return bets + [(seat, amount)];
  }

  method HighestBet(bets: seq<(nat, nat)>) returns (m: nat)
    ensures m == MaxBet(bets)
  {
    m := 0;
    for i := 0 to |bets|
      invariant m == MaxBet(bets[..i])
    {
      assert bets[..i + 1][..i] == bets[..i];
      if m < bets[i].1 { m := bets[i].1; }
    }
    assert bets[..|bets|] == bets;
  }

  class ClientCore {
    var view: View
    var connectionOpen: bool
    var pendingHandshake: Option<ClientMessage>
    var activePrompt: Option<ActivePrompt>

    ghost function Value(): Core
      reads this
    {
      Core(view, connectionOpen, pendingHandshake, activePrompt)
    }

    constructor ()
      ensures Value() == Fresh()
    {
      view, connectionOpen, pendingHandshake, activePrompt := EmptyView(Disconnected), false, None, None;
    }

    method Reset(phase: Phase)
      modifies this
      ensures Value() == Core(EmptyView(phase), false, None, None)
    {
      view, connectionOpen, pendingHandshake, activePrompt := EmptyView(phase), false, None, None;
    }

    method QueueOrSendHandshake(m: ClientMessage) returns (out: seq<Effect>)
      requires m.Handshake?
      modifies this
      ensures Reply(Value(), out) == OnIntent(old(Value()), Login(m.credentials))
    {
      if connectionOpen {
        view := view.(phase := Authenticating);
        return [Send(m)];
      }
      pendingHandshake := Some(m);
      return [];
    }

    method HandleSubmitAction(a: Action) returns (out: seq<Effect>)
      modifies this
      ensures Reply(Value(), out) == OnSubmit(old(Value()), a)
    {
      if view.hand.None? || !view.hand.value.awaiting { return []; }
      if activePrompt.None? { return []; }
      var prompt := activePrompt.value;
      if !prompt.legal.IsLegal(a) { return []; }
      view := view.(hand := Some(view.hand.value.(awaiting := false, legal := None, deadline := None)));
      return [Send(SubmitAction(prompt.table, prompt.hand, a))];
    }

    method HandleIntent(i: Intent) returns (out: seq<Effect>)
      modifies this
      ensures Reply(Value(), out) == OnIntent(old(Value()), i)
    {
      match i
      case Connect =>
        view := view.(phase := Connecting);
        return [OpenConnection];
      case ConnectionOpened =>
        connectionOpen := true;
        if pendingHandshake.Some? {
          var m := pendingHandshake.value;
          pendingHandshake := None;
          view := view.(phase := Authenticating);
          return [Send(m)];
        }
        return [];
      case Login(what) =>
        out := QueueOrSendHandshake(Handshake(what));
      case WantTables => return [Send(ListTables)];
      case Join(t, buyIn) => return [Send(JoinTable(t, buyIn))];
      case Leave(t) => return [Send(LeaveTable(t))];
      case Submit(a) =>
        out := HandleSubmitAction(a);
      case Beat => return [Send(ClientMessage.Heartbeat)];
      case Quit =>
        Reset(Disconnected);
        return [Send(Disconnect), CloseConnection];
      case ConnectionLost(reason) =>
        Reset(Ended(reason));
        return [];
    }

    method ProjectAction(seat: nat, a: Action, pot: nat)
      requires view.hand.Some?
      modifies this`view
      ensures Value() == Project(old(Value()), ActionTaken(seat, a, pot))
    {
      var h := view.hand.value.(pot := pot);
      if a.Fold? && seat !in h.folded { h := h.(folded := h.folded + [seat]); }
      match a {
        case Fold =>
        case Check =>
          var max := HighestBet(h.bets);
          var bets := SetBet(h.bets, seat, max);
          h := h.(bets := bets);
        case Call =>
          var max := HighestBet(h.bets);
          var bets := SetBet(h.bets, seat, max);
          h := h.(bets := bets);
        case Raise(to) =>
          var bets := SetBet(h.bets, seat, to);
          h := h.(bets := bets);
        case AllIn =>
      }
      view := view.(hand := Some(h));
    }

    method ProjectEngineEvent(table: nat, e: Event)
      modifies this
      ensures Reply(Value(), []) == OnPlain(old(Value()), TableEvent(table, e))
    {
      if !view.phase.Seated? || view.phase.table != table { return; }
      match e
      case HandStarted(id, dealer, _) =>
        view := view.(hand := Some(Started(id, dealer)), rejection := None);
        activePrompt := None;
      case HoleCardsDealt(seat, cards) =>
        if view.phase.seat == seat && view.hand.Some? {
          view := view.(hand := Some(view.hand.value.(hole := Some(cards))));
        }
      case BoardDealt(street, cards) =>
        if view.hand.Some? {
          var h := view.hand.value;
          view := view.(hand := Some(h.(street := street, board := h.board + cards, bets := [])));
        }
      case ActionTaken(seat, a, pot) =>
        if view.hand.Some? { ProjectAction(seat, a, pot); }
      case PlayerAllIn(seat, total) =>
        if view.hand.Some? {
          var h := view.hand.value;
          if seat !in h.allIn { h := h.(allIn := h.allIn + [seat]); }
          var bets := SetBet(h.bets, seat, total);
          view := view.(hand := Some(h.(bets := bets)));
        }
      case HandEnded(_, _) =>
        view := view.(hand := None);
        activePrompt := None;
    }

    method HandleInbound(m: ServerMessage) returns (out: seq<Effect>)
      modifies this
      ensures Reply(Value(), out) == OnMessage(old(Value()), m)
      decreases m
    {
      out := [];
      match m
      case Welcome(p) =>
        view := view.(phase := Lobby, player := Some(p));
      case Rejected(reason) =>
        view := view.(phase := Ended(reason));
        out := [CloseConnection];
      case Goodbye(reason) =>
        Reset(Ended(reason));
        out := [CloseConnection];
      case Heartbeat =>
      case TableList =>
      case JoinedTable(t, seat, seats) =>
        view := view.(phase := Seated(t, seat), seats := seats, button := None, hand := None, rejection := None);
        activePrompt := None;
      case LeftTable(t) =>
        view := view.(phase := Lobby, seats := [], button := None, hand := None);
        activePrompt := None;
      case TableState(t, seats, button) =>
        if view.phase.Seated? && view.phase.table == t { view := view.(seats := seats, button := Some(button)); }
      case TableEvent(t, e) =>
        ProjectEngineEvent(t, e);
      case Prompt(t, hand, seat, legal, deadline) =>
        activePrompt := Some(ActivePrompt(t, hand, seat, legal));
        if view.hand.Some? {
          view := view.(hand := Some(view.hand.value.(awaiting := true, legal := Some(legal),
            deadline := Some(deadline))));
        }
        view := view.(rejection := None);
      case ActionRejected(reason) =>
        if activePrompt.Some? && view.hand.Some? {
          view := view.(hand := Some(view.hand.value.(awaiting := true, legal := Some(activePrompt.value.legal))));
        }
        view := view.(rejection := Some(reason));
      case ReplayEvents(_, events) =>
        for k := 0 to |events|
          invariant Reply(Value(), out) == OnReplayed(old(Value()), m, k)
        {
          var nested := HandleInbound(events[k]);
          out := out + nested;
        }
    }
  }
}
