/** The hand as a small-step machine: `GameTree` (game/tree.rs) over the engine's own
    operations. Each step takes one submitted action and runs to the next decision. */
module Tree {
  import opened Types
  import opened Sums
  import opened Seats
  import opened PotCalc
  import opened Showdown
  import opened Betting

  // ---------------------------------------------------------------------------
  // Opening a hand
  // ---------------------------------------------------------------------------

  function Seated(stack: nat): Player {
    Player(stack, None, 0, 0, if stack > 0 then Active else Out)
  }

  function InitGame(rules: Rules, u: Setup): Game {
    Game(u.handId, Preflop, [], seq(|u.stacks|, i requires 0 <= i < |u.stacks| => Seated(u.stacks[i])), 0,
         u.dealer, None, 0, rules.bigBlind, 0, seq(|u.stacks|, i => false))
  }

  /** A forced bet, capped by the stack. */
  function Post(h: Hand, seat: nat, amount: nat): Hand
    requires seat < |h.g.players|
  {
    var p := h.g.players[seat];
    var q := SpendOrShove(p, Min(amount, p.stack));
    Hand(h.g.(players := h.g.players[seat := q]), h.deck,
         if q.stack == 0 then h.log + [PlayerAllIn(seat, q.committed)] else h.log)
  }

  /** Antes of the first `k` seats. */
  function PostAntes(h: Hand, ante: nat, k: nat): (r: Hand)
    requires k <= |h.g.players|
    ensures |r.g.players| == |h.g.players|
  {
    if k == 0 then h
    else
      var r := PostAntes(h, ante, k - 1);
      if r.g.players[k - 1].status.Active? then Post(r, k - 1, ante) else r
  }

  /** First seat after `from` still in the hand, or `from` itself. The heads-up remark beside
      the source's `sb_seat` does not match its code: the seat after the button posts it. */
  function NextInList(from: nat, ps: seq<Player>): nat {
    match Scan(StillInMask(ps), from, 1)
    case Some(seat) => seat
    case None => from
  }

  function SmallBlindSeat(g: Game): nat { NextInList(g.dealer, g.players) }
  function BigBlindSeat(g: Game): nat { NextInList(SmallBlindSeat(g), g.players) }

  ghost predicate SomeoneIn(ps: seq<Player>) {
    exists i :: 0 <= i < |ps| && ps[i].StillIn()
  }

  lemma NextInListFinds(from: nat, ps: seq<Player>)
    requires SomeoneIn(ps)
    ensures NextInList(from, ps) < |ps| && ps[NextInList(from, ps)].StillIn()
  {
    ScanFinds(StillInMask(ps), from);
    var i :| 0 <= i < |ps| && ps[i].StillIn();
    assert StillInMask(ps)[i];
  }

  function PostBlinds(rules: Rules, h: Hand): (r: Hand)
    requires SomeoneIn(h.g.players)
    ensures |r.g.players| == |h.g.players|
  {
    NextInListFinds(h.g.dealer, h.g.players);
    NextInListFinds(SmallBlindSeat(h.g), h.g.players);
    var r := Post(Post(h, SmallBlindSeat(h.g), rules.smallBlind), BigBlindSeat(h.g), rules.bigBlind);
    r.(g := r.g.(currentBet := rules.bigBlind, minRaise := rules.bigBlind))
  }

  /** Two cards to each of the first `k` seats that is in the hand. */
  function DealHoles(h: Hand, k: nat): (r: Hand)
    requires k <= |h.g.players|
    ensures |r.g.players| == |h.g.players|
  {
    if k == 0 then h
    else
      var r := DealHoles(h, k - 1);
      var p := r.g.players[k - 1];
      if p.StillIn() then
        var cards := (r.deck.At(r.deck.cursor), r.deck.At(r.deck.cursor + 1));
        Hand(r.g.(players := r.g.players[k - 1 := p.(hole := Some(cards))]),
             r.deck.(cursor := r.deck.cursor + 2), r.log + [HoleCardsDealt(k - 1, cards)])
      else r
  }

  predicate IsDead(kinds: Option<seq<SeatKind>>, i: nat) {
    kinds.Some? && i < |kinds.value| && kinds.value[i].DeadHand?
  }

  /** Dead hands are folded before the first decision. */
  function MarkDead(g: Game, kinds: Option<seq<SeatKind>>): (r: Game)
    requires |g.satOut| == |g.players|
    ensures |r.players| == |g.players|
  {
    var n := |g.players|;
    g.(players := seq(n, i requires 0 <= i < n =>
                        if IsDead(kinds, i) && g.players[i].status != Out then g.players[i].(status := Folded)
                        else g.players[i]),
       satOut := seq(n, i requires 0 <= i < n =>
                       g.satOut[i] || (IsDead(kinds, i) && g.players[i].status != Out)))
  }

  /** What `run_hand` may be called with: some seat with chips holds a live hand. */
  ghost predicate Playable(u: Setup) {
    && (u.kinds.Some? ==> |u.kinds.value| == |u.stacks|)
    && exists i :: 0 <= i < |u.stacks| && u.stacks[i] > 0 && !IsDead(u.kinds, i)
  }

  function Started(rules: Rules, u: Setup): Hand {
    Hand(InitGame(rules, u), Deck(u.cards, 0), [HandStarted(u.handId, u.dealer, u.seed)])
  }

  function Anted(rules: Rules, u: Setup): (h: Hand)
    ensures |h.g.players| == |u.stacks|
  {
    var h := Started(rules, u);
    if rules.ante > 0 then PostAntes(h, rules.ante, |u.stacks|) else h
  }

  // ---------------------------------------------------------------------------
  // Streets
  // ---------------------------------------------------------------------------

  function Collect(h: Hand): Hand {
    h.(g := h.g.(pot := h.g.pot + SumBets(h.g.players), players := ZeroBets(h.g.players)))
  }

  function BeginStreet(rules: Rules, h: Hand, street: Street): Hand {
    h.(g := h.g.(street := street, currentBet := 0, minRaise := rules.bigBlind, shortSum := 0,
                 lastAggressor := None, players := ZeroBets(h.g.players)))
  }

  function Draw(d: Deck, n: nat): (cards: seq<Card>)
    ensures |cards| == n
  {
    seq<Card>(n, (i: nat) => d.At(d.cursor + i))
  }

  function DealBoard(h: Hand, street: Street, n: nat): Hand {
    var cards := Draw(h.deck, n);
    Hand(h.g.(board := h.g.board + cards), h.deck.(cursor := h.deck.cursor + n),
         h.log + [BoardDealt(street, cards)])
  }

  /** One turn of the run-out loop: `reach` is the board size after this street. */
  function RunOutStreet(h: Hand, street: Street, n: nat, reach: nat): Hand {
    if |h.g.board| >= 5 || |h.g.board| >= reach then h else DealBoard(h, street, Min(n, 5 - |h.g.board|))
  }

  /** Deal whatever is missing to five board cards. The source's last loop, which would fill a
      board still short without emitting events, has nothing left to do. */
  function DealRemaining(h: Hand): Hand {
    RunOutStreet(RunOutStreet(RunOutStreet(h, Flop, 3, 3), Turn, 1, 4), River, 1, 5)
  }

  lemma BoardIsFull(h: Hand)
    requires |h.g.board| <= 5
    ensures |DealRemaining(h).g.board| == 5
  {
  }

  // ---------------------------------------------------------------------------
  // Ends of a hand
  // ---------------------------------------------------------------------------

  datatype Phase = Decision(current: nat, responded: seq<bool>) | Terminal(deltas: seq<nat>)

  datatype Node = Node(hand: Hand, phase: Phase)

  /** The first seat still in the hand, the winner of an uncontested pot. */
  function FirstIn(ps: seq<Player>): (s: nat)
    ensures s <= |ps|
    ensures s < |ps| ==> ps[s].StillIn()
    ensures forall i :: 0 <= i < s ==> !ps[i].StillIn()
  {
    if ps == [] then 0
    else if ps[0].StillIn() then 0
    else
      var s := FirstIn(ps[1..]);
      assert forall i :: 1 <= i < 1 + s ==> ps[i] == ps[1..][i - 1];
      1 + s
  }

  function Only(n: nat, winner: nat, chips: nat): (v: seq<nat>)
    ensures |v| == n
    ensures forall i :: 0 <= i < n ==> v[i] == if i == winner then chips else 0
  {
    seq(n, i requires 0 <= i < n => if i == winner then chips else 0)
  }

  function AddStacks(ps: seq<Player>, deltas: seq<nat>): (r: seq<Player>)
    requires |deltas| == |ps|
    ensures |r| == |ps|
    ensures forall i :: 0 <= i < |ps| ==> r[i] == ps[i].(stack := ps[i].stack + deltas[i])
  {
    seq(|ps|, i requires 0 <= i < |ps| => ps[i].(stack := ps[i].stack + deltas[i]))
  }

  /** Everything goes to one seat. */
  function AwardUncontested(h: Hand, winner: nat): (t: Node)
    ensures t.phase.Terminal?
  {
    var c := Collect(h);
    var deltas := Only(|c.g.players|, winner, c.g.pot);
    Node(c.(g := c.g.(players := AddStacks(c.g.players, deltas), pot := 0)), Terminal(deltas))
  }

  /** The evaluated hands; a seat without cards is never eligible for a pot. */
  function Ranks(e: Engine, g: Game): (r: seq<int>)
    ensures |r| == |g.players|
  {
    seq(|g.players|, i requires 0 <= i < |g.players| =>
          match g.players[i].hole
          case None => 0
          case Some(hole) => e.rank7([hole.0, hole.1] + g.board))
  }

  function ResolveShowdown(e: Engine, h: Hand): (t: Node)
    ensures t.phase.Terminal?
  {
    var deltas := ShowdownDeltas(h.g.players, Ranks(e, h.g), h.g.dealer);
    Node(h.(g := h.g.(players := AddStacks(h.g.players, deltas))), Terminal(deltas))
  }

  function ToShowdown(e: Engine, h: Hand): (t: Node)
    ensures t.phase.Terminal?
  {
    var r := DealRemaining(h);
    ResolveShowdown(e, r.(g := r.g.(street := Street.Showdown)))
  }

  function Silent(n: nat): (v: seq<bool>)
    ensures |v| == n && forall i :: 0 <= i < n ==> !v[i]
  {
    seq(n, i => false)
  }

  // ---------------------------------------------------------------------------
  // Advancing
  // ---------------------------------------------------------------------------

  function NextStreet(s: Street): Option<(Street, nat)> {
    match s
    case Preflop => Some((Flop, 3))
    case Flop => Some((Turn, 1))
    case Turn => Some((River, 1))
    case _ => None
  }

  function StreetsLeft(s: Street): nat {
    match s case Preflop => 3 case Flop => 2 case Turn => 1 case _ => 0
  }

  function OpenStreet(rules: Rules, h: Hand, street: Street, n: nat): Hand {
    DealBoard(BeginStreet(rules, h, street), street, n)
  }

  lemma OpenStreetKeeps(rules: Rules, h: Hand, street: Street, n: nat)
    ensures var o := OpenStreet(rules, h, street, n);
            o.g.street == street && Collect(o).g.street == street
  {
  }

  /** Street by street until someone can bet again or the hand is shown down. */
  function NextStreets(e: Engine, h: Hand): Node
    decreases StreetsLeft(h.g.street)
  {
    match NextStreet(h.g.street)
    case None => ToShowdown(e, h)
    case Some((street, n)) =>
      var r := OpenStreet(e.rules, h, street, n);
      var first := NextActiveAfter(r.g.dealer, r.g.players);
      if ActiveCount(r.g.players) >= 2 && first.Some?
      then Node(r, Decision(first.value, Silent(|r.g.players|)))
      else NextStreets(e, Collect(r))
  }

  /** Next unsettled seat clockwise from `start`, or the next street. */
  function Settle(e: Engine, h: Hand, start: nat, responded: seq<bool>): Node
    requires |responded| == |h.g.players|
  {
    match Scan(UnsettledMask(h.g, responded), start, 1)
    case Some(next) => Node(h, Decision(next, responded))
    case None => NextStreets(e, Collect(h))
  }

  function Advance(e: Engine, h: Hand, seat: nat, responded: seq<bool>): Node
    requires |responded| == |h.g.players|
  {
    if StillInCount(h.g.players) == 1 then AwardUncontested(h, FirstIn(h.g.players))
    else Settle(e, h, seat, responded)
  }

  function ActHand(h: Hand, seat: nat, a: Action): Hand
    requires seat < |h.g.players|
  {
    var b := Normalize(h.g, seat, a);
    Hand(ApplyAction(h.g, seat, b), h.deck, h.log + ActionEvents(h.g, seat, b))
  }

  function ActResponded(g: Game, responded: seq<bool>, seat: nat, a: Action): seq<bool>
    requires seat < |g.players| == |responded|
  {
    Respond(responded, seat, Aggression(g, seat, Normalize(g, seat, a)))
  }

  lemma ActLengths(h: Hand, responded: seq<bool>, seat: nat, a: Action)
    requires seat < |h.g.players| == |responded|
    ensures |ActHand(h, seat, a).g.players| == |ActResponded(h.g, responded, seat, a)| == |h.g.players|
  {
  }

  /** A node whose decision names a seat and has one response flag per seat. */
  ghost predicate WellFormed(t: Node) {
    match t.phase
    case Decision(current, responded) => current < |t.hand.g.players| == |responded|
    case Terminal(deltas) => |deltas| == |t.hand.g.players|
  }

  /** `GameTree::apply_action` at a decision. */
  function Step(e: Engine, t: Node, a: Action): (r: Node)
    requires WellFormed(t) && t.phase.Decision?
  {
    var seat := t.phase.current;
    Advance(e, ActHand(t.hand, seat, a), seat, ActResponded(t.hand.g, t.phase.responded, seat, a))
  }

  function LegalAt(e: Engine, t: Node): LegalActions
    requires WellFormed(t) && t.phase.Decision?
  {
    ComputeLegal(e.rules, t.hand.g, t.phase.current, !t.phase.responded[t.phase.current])
  }

  lemma {:induction false} NextStreetsWellFormed(e: Engine, h: Hand)
    ensures WellFormed(NextStreets(e, h))
    ensures |NextStreets(e, h).hand.g.players| == |h.g.players|
    decreases StreetsLeft(h.g.street)
  {
    match NextStreet(h.g.street)
    case None =>
    case Some((street, n)) =>
      var r := OpenStreet(e.rules, h, street, n);
      if !(ActiveCount(r.g.players) >= 2 && NextActiveAfter(r.g.dealer, r.g.players).Some?) {
        NextStreetsWellFormed(e, Collect(r));
      }
  }

  lemma SettleWellFormed(e: Engine, h: Hand, start: nat, responded: seq<bool>)
    requires |responded| == |h.g.players|
    ensures WellFormed(Settle(e, h, start, responded))
    ensures |Settle(e, h, start, responded).hand.g.players| == |h.g.players|
  {
    NextStreetsWellFormed(e, Collect(h));
  }

  lemma StepWellFormed(e: Engine, t: Node, a: Action)
    requires WellFormed(t) && t.phase.Decision?
    ensures WellFormed(Step(e, t, a))
    ensures |Step(e, t, a).hand.g.players| == |t.hand.g.players|
  {
    var seat := t.phase.current;
    SettleWellFormed(e, ActHand(t.hand, seat, a), seat, ActResponded(t.hand.g, t.phase.responded, seat, a));
  }

  // ---------------------------------------------------------------------------
  // A whole hand
  // ---------------------------------------------------------------------------

  lemma {:induction false} AntesKeepIn(h: Hand, ante: nat, k: nat, i: nat)
    requires k <= |h.g.players| && i < |h.g.players|
    ensures PostAntes(h, ante, k).g.players[i].StillIn() == h.g.players[i].StillIn()
  {
    if k > 0 { AntesKeepIn(h, ante, k - 1, i); }
  }

  lemma AntedIn(rules: Rules, u: Setup, i: nat)
    requires i < |u.stacks|
    ensures Anted(rules, u).g.players[i].StillIn() == (u.stacks[i] > 0)
  {
    AntesKeepIn(Started(rules, u), rules.ante, |u.stacks|, i);
  }

  lemma AntedSomeone(rules: Rules, u: Setup)
    requires Playable(u)
    ensures SomeoneIn(Anted(rules, u).g.players)
  {
    var i :| 0 <= i < |u.stacks| && u.stacks[i] > 0;
    AntedIn(rules, u, i);
  }

  function Blinded(rules: Rules, u: Setup): (h: Hand)
    requires Playable(u)
    ensures |h.g.players| == |u.stacks|
  {
    AntedSomeone(rules, u);
    PostBlinds(rules, Anted(rules, u))
  }

  /** Blinds posted, cards dealt, dead hands folded: the hand before the first decision. */
  function Opened(rules: Rules, u: Setup): (h: Hand)
    requires Playable(u)
    ensures |h.g.players| == |u.stacks|
  {
    var h := DealHoles(Blinded(rules, u), |u.stacks|);
    assert |h.g.satOut| == |h.g.players| by { SatOutLength(rules, u); }
    h.(g := MarkDead(h.g, u.kinds))
  }

  lemma {:induction false} SatOutUnchanged(h: Hand, ante: nat, k: nat)
    requires k <= |h.g.players|
    ensures PostAntes(h, ante, k).g.satOut == h.g.satOut
    ensures DealHoles(h, k).g.satOut == h.g.satOut
  {
    if k > 0 { SatOutUnchanged(h, ante, k - 1); }
  }

  lemma SatOutLength(rules: Rules, u: Setup)
    requires Playable(u)
    ensures |DealHoles(Blinded(rules, u), |u.stacks|).g.satOut| == |u.stacks|
  {
    SatOutUnchanged(Started(rules, u), rules.ante, |u.stacks|);
    SatOutUnchanged(Blinded(rules, u), rules.ante, |u.stacks|);
  }

  /** `GameTree::new`. With no active seat left after the blinds the whole pot goes to the
      first seat still in, cards unseen. */
  function New(e: Engine, u: Setup): (t: Node)
    requires Playable(u)
    ensures WellFormed(t) && |t.hand.g.players| == |u.stacks|
  {
    var h := Opened(e.rules, u);
    match NextActiveAfter(BigBlindSeat(Blinded(e.rules, u).g), h.g.players)
    case None => AwardUncontested(h, FirstIn(h.g.players))
    case Some(first) => Node(h, Decision(first, Silent(|h.g.players|)))
  }

  /** A decision that was put to a seat and answered. */
  datatype Asked = Asked(seat: nat, legal: LegalActions)

  datatype Run = Run(node: Node, asked: seq<Asked>, rest: seq<Action>)

  /** Feed submitted actions, legal or not, until the hand ends or they run out. */
  function Drive(e: Engine, t: Node, script: seq<Action>, asked: seq<Asked>): (r: Run)
    requires WellFormed(t)
    ensures WellFormed(r.node)
    decreases |script|
  {
    if t.phase.Terminal? || script == [] then Run(t, asked, script)
    else
      StepWellFormed(e, t, script[0]);
      Drive(e, Step(e, t, script[0]), script[1..], asked + [Asked(t.phase.current, LegalAt(e, t))])
  }

  function Outcomes(ps: seq<Player>, satOut: seq<bool>, deltas: seq<nat>): seq<SeatOutcome>
    requires |ps| == |satOut| == |deltas|
  {
    if ps == [] then []
    else
      var n := |ps| - 1;
      var rest := Outcomes(ps[..n], satOut[..n], deltas[..n]);
      if ps[n].status.Out? then rest
      else rest + [SeatOutcome(n, ps[n].hole, deltas[n] - ps[n].committed, satOut[n])]
  }
}
