/** What a hand leaves behind: the shape of its event stream, what a listener can read off
    it, and where its cards came from. */
module Story {
  import opened Types
  import opened Sums
  import opened Seats
  import opened PotCalc
  import opened Betting
  import opened Tree
  import opened Ledger

  // ---------------------------------------------------------------------------
  // The grammar of an event stream
  // ---------------------------------------------------------------------------

  datatype Chapter = Blank | Posting | Dealing | Playing(street: Street, pot: nat) | Over

  /** One more event, if it may come here. */
  function ReadOne(c: Chapter, e: Event): Option<Chapter> {
    match (c, e)
    case (Blank, HandStarted(_, _, _)) => Some(Posting)
    case (Posting, PlayerAllIn(_, _)) => Some(Posting)
    case (Posting, HoleCardsDealt(_, _)) => Some(Dealing)
    case (Dealing, HoleCardsDealt(_, _)) => Some(Dealing)
    case (Dealing, PlayerAllIn(_, _)) => Some(Playing(Preflop, 0))
    case (Dealing, ActionTaken(_, _, pot)) => Some(Playing(Preflop, pot))
    case (Playing(s, p), PlayerAllIn(_, _)) => Some(c)
    case (Playing(s, p), ActionTaken(_, _, pot)) => if p <= pot then Some(Playing(s, pot)) else None
    case (Playing(s, p), BoardDealt(street, cards)) =>
      if NextStreet(s) == Some((street, |cards|)) then Some(Playing(street, p)) else None
    case (Dealing, HandEnded(_, _)) => Some(Over)
    case (Playing(_, _), HandEnded(_, _)) => Some(Over)
    case _ => None
  }

  /** Where a stream stands; nothing if it went off the grammar: one start, forced bets, hole
      cards, then actions with a pot that never shrinks between boards of 3, 1 and 1 cards in
      street order, and at most one end. */
  function Read(log: seq<Event>): Option<Chapter> {
    if log == [] then Some(Blank)
    else
      match Read(log[..|log| - 1])
      case None => None
      case Some(c) => ReadOne(c, log[|log| - 1])
  }

  lemma ReadOn(log: seq<Event>, e: Event)
    ensures Read(log + [e]) == match Read(log) case None => None case Some(c) => ReadOne(c, e)
  {
    assert (log + [e])[..|log|] == log;
  }

  /** Seats seen folding. */
  function FoldedIn(log: seq<Event>): set<nat> {
    if log == [] then {}
    else
      var e, seen := log[|log| - 1], FoldedIn(log[..|log| - 1]);
      if e.ActionTaken? && e.action.Fold? then seen + {e.seat} else seen
  }

  /** Board cards seen. */
  function BoardIn(log: seq<Event>): seq<Card> {
    if log == [] then []
    else
      var e, seen := log[|log| - 1], BoardIn(log[..|log| - 1]);
      if e.BoardDealt? then seen + e.cards else seen
  }

  /** The hole cards seen dealt to a seat. */
  function HoleIn(log: seq<Event>, i: nat): Option<(Card, Card)> {
    if log == [] then None
    else
      var e := log[|log| - 1];
      if e.HoleCardsDealt? && e.seat == i then Some(e.hole) else HoleIn(log[..|log| - 1], i)
  }

  /** Seats seen going all-in. */
  function AllInIn(log: seq<Event>): set<nat> {
    if log == [] then {}
    else
      var e, seen := log[|log| - 1], AllInIn(log[..|log| - 1]);
      if e.PlayerAllIn? then seen + {e.seat} else seen
  }

  lemma SeenOn(log: seq<Event>, e: Event)
    ensures FoldedIn(log + [e]) == if e.ActionTaken? && e.action.Fold? then FoldedIn(log) + {e.seat} else FoldedIn(log)
    ensures BoardIn(log + [e]) == if e.BoardDealt? then BoardIn(log) + e.cards else BoardIn(log)
    ensures AllInIn(log + [e]) == if e.PlayerAllIn? then AllInIn(log) + {e.seat} else AllInIn(log)
    ensures forall i :: HoleIn(log + [e], i) == if e.HoleCardsDealt? &&
            e.seat == i then Some(e.hole) else HoleIn(log, i)
  {
    assert (log + [e])[..|log|] == log;
  }

  /** The stream at a decision: the chapter, with a pot figure equal to the chips committed by
      now, the folded and all-in seats, the board and the hole cards, all as the game has them. */
  ghost predicate Told(kinds: Option<seq<SeatKind>>, start: seq<nat>, h: Hand) {
    && (Read(h.log) == Some(Playing(h.g.street, SumCommitted(h.g.players))) ||
        (Read(h.log) == Some(Dealing) && h.g.street == Preflop))
    && Seen(kinds, start, h)
  }

  ghost predicate Seen(kinds: Option<seq<SeatKind>>, start: seq<nat>, h: Hand) {
    && |h.g.players| == |start|
    && BoardIn(h.log) == h.g.board
    && (forall i :: 0 <= i < |h.g.players| ==> h.g.players[i].hole == HoleIn(h.log, i))
    && (forall i :: 0 <= i < |h.g.players| ==>
          && (h.g.players[i].status.AllIn? ==> i in AllInIn(h.log))
          && (i in AllInIn(h.log) ==> h.g.players[i].status.AllIn? || (IsDead(kinds, i) && start[i] > 0)))
    && (forall s :: s in FoldedIn(h.log) ==> s < |h.g.players|)
    && (forall i :: 0 <= i < |h.g.players| ==>
          (h.g.players[i].status.Folded? <==> i in FoldedIn(h.log) || (IsDead(kinds, i) && start[i] > 0)))
  }

  // ---------------------------------------------------------------------------
  // Opening
  // ---------------------------------------------------------------------------

  /** Before the cards: forced bets only. */
  ghost predicate Opening(h: Hand) {
    && Read(h.log) == Some(Posting) && FoldedIn(h.log) == {} && BoardIn(h.log) == []
    && forall i :: 0 <= i < |h.g.players| ==>
         && !h.g.players[i].status.Folded? && h.g.players[i].hole.None? && HoleIn(h.log, i).None?
         && (i in AllInIn(h.log) <==> h.g.players[i].status.AllIn?)
  }

  lemma StartedOpening(rules: Rules, u: Setup)
    ensures Opening(Started(rules, u))
  {
    ReadOn([], HandStarted(u.handId, u.dealer, u.seed));
    SeenOn([], HandStarted(u.handId, u.dealer, u.seed));
    assert [] + [HandStarted(u.handId, u.dealer, u.seed)] == Started(rules, u).log;
  }

  lemma PostOpening(h: Hand, seat: nat, amount: nat)
    requires Opening(h) && seat < |h.g.players|
    ensures Opening(Post(h, seat, amount))
  {
    var p := h.g.players[seat];
    var q := SpendOrShove(p, Min(amount, p.stack));
    ReadOn(h.log, PlayerAllIn(seat, q.committed));
    SeenOn(h.log, PlayerAllIn(seat, q.committed));
  }

  lemma {:induction false} AntesOpening(h: Hand, ante: nat, k: nat)
    requires Opening(h) && k <= |h.g.players|
    ensures Opening(PostAntes(h, ante, k))
  {
    hide Opening, Post;
    if k > 0 {
      AntesOpening(h, ante, k - 1);
      PostOpening(PostAntes(h, ante, k - 1), k - 1, ante);
    }
  }

  lemma BlindedOpening(rules: Rules, u: Setup)
    requires Playable(u)
    ensures Opening(Blinded(rules, u)) && SomeoneIn(Blinded(rules, u).g.players)
  {
    StartedOpening(rules, u);
    AntesOpening(Started(rules, u), rules.ante, |u.stacks|);
    AntedSomeone(rules, u);
    var h := Anted(rules, u);
    var sb, bb := SmallBlindSeat(h.g), BigBlindSeat(h.g);
    NextInListFinds(h.g.dealer, h.g.players);
    NextInListFinds(sb, h.g.players);
    PostOpening(h, sb, rules.smallBlind);
    PostOpening(Post(h, sb, rules.smallBlind), bb, rules.bigBlind);
    assert Blinded(rules, u).g.players[bb].StillIn();
  }

  lemma {:induction false} DealTold(h: Hand, k: nat)
    requires Opening(h) && k <= |h.g.players|
    ensures var r := DealHoles(h, k);
            && Read(r.log) == Some(if exists i :: 0 <= i < k && h.g.players[i].StillIn() then Dealing else Posting)
            && FoldedIn(r.log) == {} && BoardIn(r.log) == []
            && AllInIn(r.log) == AllInIn(h.log)
            && forall i :: 0 <= i < |h.g.players| ==> r.g.players[i].hole == HoleIn(r.log, i)
  {
    hide Read, FoldedIn, BoardIn, HoleIn, AllInIn;
    if k > 0 {
      DealTold(h, k - 1);
      DealKeepsChips(h, k - 1);
      var r := DealHoles(h, k - 1);
      assert r.g.players[k - 1].StillIn() == h.g.players[k - 1].StillIn();
      var cards := (r.deck.At(r.deck.cursor), r.deck.At(r.deck.cursor + 1));
      ReadOn(r.log, HoleCardsDealt(k - 1, cards));
      SeenOn(r.log, HoleCardsDealt(k - 1, cards));
    }
  }

  // ---------------------------------------------------------------------------
  // Cards
  // ---------------------------------------------------------------------------

  /** Hole cards in seat order. */
  function Holes(ps: seq<Player>): seq<Card> {
    if ps == [] then []
    else
      Holes(ps[..|ps| - 1]) +
      match ps[|ps| - 1].hole case None => [] case Some(c) => [c.0, c.1]
  }

  /** The first `k` cards of a deck. */
  function Cards(d: Deck, k: nat): (r: seq<Card>)
    ensures |r| == k && forall i :: 0 <= i < k ==> r[i] == d.At(i)
  {
    seq<Card>(k, (i: nat) => d.At(i))
  }

  /** Every card on the table came off the top of the deck, in order. */
  ghost predicate FromDeck(h: Hand) {
    Holes(h.g.players) + h.g.board == Cards(h.deck, h.deck.cursor)
  }

  lemma {:induction false} HolesSame(ps: seq<Player>, qs: seq<Player>)
    requires |ps| == |qs| && forall i :: 0 <= i < |ps| ==> ps[i].hole == qs[i].hole
    ensures Holes(ps) == Holes(qs)
  {
    if ps != [] { HolesSame(ps[..|ps| - 1], qs[..|qs| - 1]); }
  }

  lemma {:induction false} NoHoles(ps: seq<Player>)
    requires forall i :: 0 <= i < |ps| ==> ps[i].hole.None?
    ensures Holes(ps) == []
  {
    if ps != [] { NoHoles(ps[..|ps| - 1]); }
  }

  /** Dealing to a seat when no later seat has cards. */
  lemma {:induction false} HolesDealt(ps: seq<Player>, k: nat, cards: (Card, Card))
    requires k < |ps| && forall i :: k <= i < |ps| ==> ps[i].hole.None?
    ensures Holes(ps[k := ps[k].(hole := Some(cards))]) == Holes(ps) + [cards.0, cards.1]
  {
    var n := |ps| - 1;
    var qs := ps[k := ps[k].(hole := Some(cards))];
    if k == n {
      assert qs[..n] == ps[..n];
    } else {
      HolesDealt(ps[..n], k, cards);
      assert qs[..n] == ps[..n][k := ps[k].(hole := Some(cards))];
    }
  }

  lemma {:induction false} DealFromDeck(h: Hand, k: nat)
    requires k <= |h.g.players| && h.deck.cursor == 0 && h.g.board == []
    requires forall i :: 0 <= i < |h.g.players| ==> h.g.players[i].hole.None?
    ensures var r := DealHoles(h, k);
            && FromDeck(r) && r.g.board == [] && r.deck.cards == h.deck.cards && r.deck.cursor <= 2 * k
            && (forall i :: k <= i < |h.g.players| ==> r.g.players[i].hole.None?)
            && (forall i :: 0 <= i < k && h.g.players[i].StillIn() ==> r.g.players[i].hole.Some?)
  {
    hide FromDeck;
    if k == 0 {
      NothingFromDeck(h);
    } else {
      DealFromDeck(h, k - 1);
      DealKeepsChips(h, k - 1);
      var r := DealHoles(h, k - 1);
      if r.g.players[k - 1].StillIn() { TwoFromDeck(r, k - 1, DealHoles(h, k)); }
    }
  }

  lemma NothingFromDeck(h: Hand)
    requires h.deck.cursor == 0 && h.g.board == []
    requires forall i :: 0 <= i < |h.g.players| ==> h.g.players[i].hole.None?
    ensures FromDeck(h)
  {
    NoHoles(h.g.players);
  }

  lemma TwoFromDeck(r: Hand, k: nat, r': Hand)
    requires FromDeck(r) && r.g.board == [] && k < |r.g.players|
    requires forall i :: k <= i < |r.g.players| ==> r.g.players[i].hole.None?
    requires var cards := (r.deck.At(r.deck.cursor), r.deck.At(r.deck.cursor + 1));
             && r'.g.players == r.g.players[k := r.g.players[k].(hole := Some(cards))]
             && r'.g.board == [] && r'.deck == r.deck.(cursor := r.deck.cursor + 2)
    ensures FromDeck(r')
  {
    var c := r.deck.cursor;
    var cards := (r.deck.At(c), r.deck.At(c + 1));
    HolesDealt(r.g.players, k, cards);
    assert Cards(r.deck, c + 2) == Cards(r.deck, c) + [cards.0, cards.1];
    assert Cards(r'.deck, c + 2) == Cards(r.deck, c + 2);
  }

  lemma BoardFromDeck(h: Hand, street: Street, n: nat)
    requires FromDeck(h)
    ensures FromDeck(DealBoard(h, street, n))
  {
    var c := h.deck.cursor;
    assert Cards(h.deck, c + n) == Cards(h.deck, c) + Draw(h.deck, n);
    assert Cards(h.deck, c + n) == Cards(DealBoard(h, street, n).deck, c + n);
    assert Holes(h.g.players) + (h.g.board + Draw(h.deck, n)) == (Holes(h.g.players) + h.g.board) + Draw(h.deck, n);
  }

  /** No two cards of the deck are the same. */
  ghost predicate Distinct(cards: seq<Card>) {
    forall i, j :: 0 <= i < j < |cards| ==> cards[i] != cards[j]
  }

  lemma {:induction false} HolesAtMost(ps: seq<Player>)
    ensures |Holes(ps)| <= 2 * |ps|
  {
    if ps != [] { HolesAtMost(ps[..|ps| - 1]); }
  }

  /** With enough cards for the seats and a board, the deck is never exhausted and all cards
      on the table differ. */
  lemma DealSound(h: Hand)
    requires FromDeck(h) && |h.g.board| <= 5 && Distinct(h.deck.cards)
    requires 2 * |h.g.players| + 5 <= |h.deck.cards|
    ensures h.deck.cursor <= |h.deck.cards|
    ensures Distinct(Holes(h.g.players) + h.g.board)
  {
    HolesAtMost(h.g.players);
    var dealt := Holes(h.g.players) + h.g.board;
    assert |dealt| == h.deck.cursor;
    assert forall i :: 0 <= i < |dealt| ==> dealt[i] == h.deck.cards[i];
  }

  // ---------------------------------------------------------------------------
  // Steps
  // ---------------------------------------------------------------------------

  /** The figure an action reports is the chips committed once it is applied. */
  lemma ActionReportsPot(start: seq<nat>, h: Hand, seat: nat, a: Action)
    requires Balanced(start, h.g) && seat < |h.g.players| && h.g.players[seat].status.Active?
    ensures var b := Normalize(h.g, seat, a); var q := Actor(h.g, seat, b);
            h.g.pot + SumBets(h.g.players[seat := q]) == SumCommitted(ActHand(h, seat, a).g.players)
    ensures SumCommitted(h.g.players) <= SumCommitted(ActHand(h, seat, a).g.players)
  {
    ActBalanced(start, h, seat, a);
    SumUpdate(h.g.players, seat, Actor(h.g, seat, Normalize(h.g, seat, a)), CommittedOf);
  }

  lemma EventsRead(log: seq<Event>, g: Game, seat: nat, b: Action, street: Street, pot: nat)
    requires seat < |g.players|
    requires Read(log) == Some(Playing(street, pot)) || (Read(log) == Some(Dealing) && street == Preflop && pot == 0)
    requires pot <= g.pot + SumBets(g.players[seat := Actor(g, seat, b)])
    ensures Read(log + ActionEvents(g, seat, b)) ==
            Some(Playing(street, g.pot + SumBets(g.players[seat := Actor(g, seat, b)])))
    ensures FoldedIn(log + ActionEvents(g, seat, b)) == if b.Fold? then FoldedIn(log) + {seat} else FoldedIn(log)
    ensures BoardIn(log + ActionEvents(g, seat, b)) == BoardIn(log)
    ensures forall i :: HoleIn(log + ActionEvents(g, seat, b), i) == HoleIn(log, i)
    ensures AllInIn(log + ActionEvents(g, seat, b)) ==
            if b.AllIn? || (b.Call? && Actor(g, seat, b).stack == 0) then AllInIn(log) + {seat} else AllInIn(log)
  {
    hide Read, FoldedIn, BoardIn, HoleIn, AllInIn, Actor, SumBets;
    var q := Actor(g, seat, b);
    var taken := ActionTaken(seat, b, g.pot + SumBets(g.players[seat := q]));
    var shove := PlayerAllIn(seat, q.committed);
    if |ActionEvents(g, seat, b)| == 2 {
      ReadOn(log, shove);
      SeenOn(log, shove);
      ReadOn(log + [shove], taken);
      SeenOn(log + [shove], taken);
      assert log + ActionEvents(g, seat, b) == log + [shove] + [taken];
    } else {
      ReadOn(log, taken);
      SeenOn(log, taken);
      assert log + ActionEvents(g, seat, b) == log + [taken];
    }
  }

  lemma ActTold(kinds: Option<seq<SeatKind>>, start: seq<nat>, h: Hand, seat: nat, a: Action)
    requires Told(kinds, start, h) && Balanced(start, h.g)
    requires seat < |h.g.players| && h.g.players[seat].status.Active?
    ensures var r := ActHand(h, seat, a);
            Read(r.log) == Some(Playing(r.g.street, SumCommitted(r.g.players))) && Seen(kinds, start, r)
  {
    hide Read, FoldedIn, BoardIn, HoleIn, AllInIn, ActionEvents, SumBets, SumCommitted, Balanced;
    ActionReportsPot(start, h, seat, a);
    EventsRead(h.log, h.g, seat, Normalize(h.g, seat, a), h.g.street,
               if Read(h.log) == Some(Dealing) then 0 else SumCommitted(h.g.players));
  }

  lemma OpenTold(kinds: Option<seq<SeatKind>>, start: seq<nat>, rules: Rules, h: Hand, street: Street, n: nat)
    requires Read(h.log) == Some(Playing(h.g.street, SumCommitted(h.g.players))) && Seen(kinds, start, h)
    requires NextStreet(h.g.street) == Some((street, n))
    ensures var r := OpenStreet(rules, h, street, n);
            Read(r.log) == Some(Playing(r.g.street, SumCommitted(r.g.players))) && Seen(kinds, start, r)
  {
    var dealt := BoardDealt(street, Draw(h.deck, n));
    ReadOn(h.log, dealt);
    SeenOn(h.log, dealt);
    SumSame(h.g.players, CommittedOf, ZeroBets(h.g.players), CommittedOf);
  }
}
