/** Every interleaving of players sitting, leaving, dropping and reconnecting with the actor
    that runs the table's hands. One move is one critical section. */
module TableRuns {
  import opened Types
  import opened Sums
  import opened Seats
  import opened Betting
  import opened Tree
  import opened EngineRun
  import opened Ledger
  import opened Invariants
  import opened Theorems
  import opened Sinks
  import opened Tables

  /** `HandSeatRecord`. */
  datatype Row = Row(seat: nat, player: Option<nat>, delta: int)

  datatype Record = Record(handId: nat, rows: seq<Row>)

  datatype Entry = Entry(player: Option<nat>, amount: int)

  /** Who was dealt in, where, with how much. */
  datatype Dealt = Dealt(seat: nat, player: nat, stack: nat)

  /** What the source does not keep: every buy-in, everything carried away, every result
      applied, and who was dealt into each hand. */
  datatype Books = Books(bought: seq<Entry>, carried: seq<Entry>, won: seq<Entry>, dealt: map<nat, seq<Dealt>>)

  /** A reconnect between finding the seat's link and rebinding it. */
  datatype Lookup = Lookup(player: nat, session: int, link: nat)

  datatype Actor =
    | Idle
    | Claimed
    | Taken(snap: Snapshot)
    | Running(snap: Snapshot, ids: seq<nat>)
    | Finished(snap: Snapshot, ids: seq<nat>, results: seq<SeatOutcome>)
    | Settled(handId: nat, rows: seq<Row>)
    | Halted

  datatype State = State(t: Inner, actor: Actor, lookups: set<Lookup>, records: seq<Record>, books: Books)

  datatype Move =
    | Sit(player: nat, session: int, buyIn: nat)
    | Leave(player: nat)
    | ForceLeave(player: nat, only: Option<int>)
    | FindLink(player: nat, session: int)
    | Rebind(lookup: Lookup)
    | Claim
    | Take
    | Begin
    | Finish(seed: nat, cards: seq<Card>, script: seq<Action>)
    | Crash
    | Apply
    | Persist(stored: bool)
    | Halt

  /** The chips that leave with a seat taken before and empty after. */
  function Leaver(before: Option<Seat>, after: Option<Seat>): seq<Entry> {
    if before.Some? && after.None? then [Entry(Some(before.value.player), before.value.stack)] else []
  }

  /** ... over the first `n` seats. */
  function Gone(before: seq<Option<Seat>>, after: seq<Option<Seat>>, n: nat): seq<Entry>
    requires n <= |before| == |after|
  {
    if n == 0 then [] else Gone(before, after, n - 1) + Leaver(before[n - 1], after[n - 1])
  }

  /** `persist_hand` pairs results and player ids by position. */
  function RowsOf(ids: seq<nat>, os: seq<SeatOutcome>): (r: seq<Row>)
    ensures |r| == |os|
  {
    seq(|os|, k requires 0 <= k < |os| => Row(os[k].seat, if k < |ids| then Some(ids[k]) else None, os[k].chipDelta))
  }

  function Entries(rows: seq<Row>): (r: seq<Entry>)
    ensures |r| == |rows| && forall k :: 0 <= k < |rows| ==> r[k] == Entry(rows[k].player, rows[k].delta)
  {
    seq(|rows|, k requires 0 <= k < |rows| => Entry(rows[k].player, rows[k].delta))
  }

  function SetupOf(snap: Snapshot, seed: nat, cards: seq<Card>): Setup {
    Setup(snap.handId, seed, cards, seq(|snap.players|, k requires 0 <= k < |snap.players| => snap.players[k].stack),
          snap.dealer, None)
  }

  /** The engine's result for a hand played to its end. */
  function HandSeats(e: Engine, u: Setup, script: seq<Action>): seq<SeatOutcome>
    requires Playable(u) && Played(e, u, script).phase.Terminal?
  {
    OutcomeLengths(e, u, script);
    BuildResult(u.handId, OutcomeOf(Drive(e, New(e, u), script, []))).seats
  }

  function IdOf(t: Inner, link: nat): nat { if link < |t.links| then t.links[link].player else 0 }

  function IdsOf(t: Inner, ps: seq<SnapshotPlayer>): (r: seq<nat>)
    ensures |r| == |ps| && forall k :: 0 <= k < |ps| ==> r[k] == IdOf(t, ps[k].link)
  {
    seq(|ps|, k requires 0 <= k < |ps| => IdOf(t, ps[k].link))
  }

  function DealtIn(t: Inner, ps: seq<SnapshotPlayer>): (r: seq<Dealt>)
    requires forall k :: 0 <= k < |ps| ==> ps[k].tableSeat < |t.seats| && t.seats[ps[k].tableSeat].Some?
    ensures |r| == |ps|
    ensures forall k :: 0 <= k < |ps| ==>
               r[k] == Dealt(ps[k].tableSeat, t.seats[ps[k].tableSeat].value.player,
              t.seats[ps[k].tableSeat].value.stack)
  {
    seq(|ps|, k requires 0 <= k < |ps| => Dealt(ps[k].tableSeat, t.seats[ps[k].tableSeat].value.player,
      t.seats[ps[k].tableSeat].value.stack))
  }

  /** A seat change, with the chips of whoever left entered in the books. */
  function Reseated(s: State, t: Inner): State
    requires |t.seats| == |s.t.seats|
  {
    s.(t := t, books := s.books.(carried := s.books.carried + Gone(s.t.seats, t.seats, |t.seats|)))
  }

  function Bought(s: State, c: Config, player: nat, buyIn: nat): seq<Entry> {
    if SitResult(c, s.t, player, buyIn).Sat? then [Entry(Some(player), buyIn)] else []
  }

  function TakeMove(c: Config, s: State): State {
    var snap := SnapshotOf(c, s.t);
    State(s.t.(nextHandId := s.t.nextHandId + 1), Taken(snap), s.lookups, s.records,
          s.books.(dealt := s.books.dealt[snap.handId := DealtIn(s.t, snap.players)]))
  }

  function ApplyMove(s: State): State
    requires s.actor.Finished?
  {
    var os := s.actor.results;
    var rows := RowsOf(s.actor.ids, os);
    var credited := Credit(s.t.seats, os, |os|);
    State(AfterResult(s.t, os), Settled(s.actor.snap.handId, rows), s.lookups, s.records,
          s.books.(won := s.books.won + Entries(rows),
                   carried := s.books.carried + Gone(credited, Cleared(credited), |credited|)))
  }

  /** One move of anybody; a move that is not enabled changes nothing. */
  ghost function Next(c: Config, e: Engine, s: State, m: Move): State {
    match m
    case Sit(p, session, buyIn) =>
      s.(t := AfterSit(c, s.t, p, session, buyIn), books := s.books.(bought := s.books.bought + Bought(s, c, p, buyIn)))
    case Leave(p) => Reseated(s, AfterLeave(s.t, p))
    case ForceLeave(p, only) => Reseated(s, AfterForceLeave(s.t, p, only))
    case FindLink(p, session) =>
      var i := SeatOf(s.t.seats, p);
      if i == |s.t.seats| then s else s.(lookups := s.lookups + {Lookup(p, session, s.t.seats[i].value.link)})
    case Rebind(l) =>
      if l !in s.lookups || l.link >= |s.t.links| then s
      else s.(t := s.t.(links := s.t.links[l.link := Conn(l.player, l.session)]), lookups := s.lookups - {l})
    case Claim => if s.actor.Idle? && HasQuorum(c, s.t) then s.(t := s.t.(inProgress := true), actor := Claimed) else s
    case Take => if s.actor.Claimed? then TakeMove(c, s) else s
    case Begin =>
      if !s.actor.Taken? then s
      else if |s.actor.snap.players| < c.minSeats then s.(t := s.t.(inProgress := false), actor := Idle)
      else s.(actor := Running(s.actor.snap, IdsOf(s.t, s.actor.snap.players)))
    case Finish(seed, cards, script) =>
      if !s.actor.Running? then s
      else
        var u := SetupOf(s.actor.snap, seed, cards);
        if Playable(u) && Played(e, u, script).phase.Terminal?
        then s.(actor := Finished(s.actor.snap, s.actor.ids, Remap(HandSeats(e, u, script), s.actor.snap.players)))
        else s
    case Crash => if s.actor.Running? then s.(actor := Finished(s.actor.snap, s.actor.ids, [])) else s
    case Apply => if s.actor.Finished? then ApplyMove(s) else s
    case Persist(stored) =>
      if !s.actor.Settled? then s
      else s.(actor := Idle, records := if stored then s.records + [Record(s.actor.handId,
        s.actor.rows)] else s.records)
    case Halt => s.(actor := Halted)
  }

  function Fresh(maxSeats: nat): State {
    State(Inner(seq(maxSeats, i => None), [], 0, 1, false), Idle, {}, [], Books([], [], [], map[]))
  }

  ghost function Run(c: Config, e: Engine, s: State, moves: seq<Move>): State {
    if moves == [] then s else Next(c, e, Run(c, e, s, moves[..|moves| - 1]), moves[|moves| - 1])
  }

  // ---------------------------------------------------------------------------
  // Accounts
  // ---------------------------------------------------------------------------

  /** Chips in front of one player, or of everybody. */
  function Chips(s: Option<Seat>, who: Option<nat>): nat {
    if s.Some? && (who.None? || who.value == s.value.player) then s.value.stack else 0
  }

  function Held(seats: seq<Option<Seat>>, who: Option<nat>): nat {
    if seats == [] then 0 else Held(seats[..|seats| - 1], who) + Chips(seats[|seats| - 1], who)
  }

  function Amount(x: Entry, who: Option<nat>): int { if who.None? || who == x.player then x.amount else 0 }

  function Tally(es: seq<Entry>, who: Option<nat>): int {
    if es == [] then 0 else Tally(es[..|es| - 1], who) + Amount(es[|es| - 1], who)
  }

  lemma {:induction false} TallyConcat(a: seq<Entry>, b: seq<Entry>, who: Option<nat>)
    ensures Tally(a + b, who) == Tally(a, who) + Tally(b, who)
  {
    if b == [] {
      assert a + b == a;
    } else {
      assert (a + b)[..|a + b| - 1] == a + b[..|b| - 1];
      TallyConcat(a, b[..|b| - 1], who);
    }
  }

  lemma {:induction false} HeldUpdate(seats: seq<Option<Seat>>, i: nat, x: Option<Seat>, who: Option<nat>)
    requires i < |seats|
    ensures Held(seats[i := x], who) + Chips(seats[i], who) == Held(seats, who) + Chips(x, who)
  {
    var n := |seats| - 1;
    if i == n {
      assert seats[i := x][..n] == seats[..n];
    } else {
      assert seats[i := x][..n] == seats[..n][i := x];
      HeldUpdate(seats[..n], i, x, who);
    }
  }

  /** Seats only empty out, or keep their player and chips. */
  ghost predicate OnlyVacates(before: seq<Option<Seat>>, after: seq<Option<Seat>>) {
    && |before| == |after|
    && forall i :: 0 <= i < |before| ==>
         after[i].Some? ==>
           && before[i].Some? && after[i].value.player == before[i].value.player
           && after[i].value.stack == before[i].value.stack
  }

  lemma LeaverAccounts(before: Option<Seat>, after: Option<Seat>, who: Option<nat>)
    requires after.Some? ==>
                before.Some? && after.value.player == before.value.player && after.value.stack == before.value.stack
    ensures Chips(after, who) + Tally(Leaver(before, after), who) == Chips(before, who)
  {
    if before.Some? { TallyOne(Entry(Some(before.value.player), before.value.stack), who); }
  }

  lemma {:induction false} VacatingAccounts(before: seq<Option<Seat>>, after: seq<Option<Seat>>, n: nat,
      who: Option<nat>)
    requires OnlyVacates(before, after) && n <= |before|
    ensures Held(after[..n], who) + Tally(Gone(before, after, n), who) == Held(before[..n], who)
  {
    hide Tally, Leaver, Chips;
    if n > 0 {
      VacatingAccounts(before, after, n - 1, who);
      assert after[..n][..n - 1] == after[..n - 1] && before[..n][..n - 1] == before[..n - 1];
      LeaverAccounts(before[n - 1], after[n - 1], who);
      TallyConcat(Gone(before, after, n - 1), Leaver(before[n - 1], after[n - 1]), who);
    } else {
      NoTally(who);
    }
  }

  lemma TallyOne(x: Entry, who: Option<nat>)
    ensures Tally([x], who) == Amount(x, who)
  {
    assert [x][..0] == [];
  }

  lemma NoTally(who: Option<nat>)
    ensures Tally([], who) == 0
  {
  }

  /** Everything a player ever brought or won is in front of them or was carried away. */
  ghost predicate Reconciled(s: State, who: Option<nat>) {
    Held(s.t.seats, who) + Tally(s.books.carried, who) == Tally(s.books.bought, who) + Tally(s.books.won, who)
  }

  lemma ReseatedReconciles(s: State, t: Inner, who: Option<nat>)
    requires OnlyVacates(s.t.seats, t.seats) && Reconciled(s, who)
    ensures Reconciled(Reseated(s, t), who)
  {
    var n := |t.seats|;
    VacatingAccounts(s.t.seats, t.seats, n, who);
    assert s.t.seats[..n] == s.t.seats && t.seats[..n] == t.seats;
    TallyConcat(s.books.carried, Gone(s.t.seats, t.seats, n), who);
  }

  lemma SitReconciles(c: Config, e: Engine, s: State, p: nat, session: int, buyIn: nat, who: Option<nat>)
    requires Reconciled(s, who)
    ensures Reconciled(Next(c, e, s, Sit(p, session, buyIn)), who)
  {
    hide Held, Tally;
    var r := SitResult(c, s.t, p, buyIn);
    TallyConcat(s.books.bought, Bought(s, c, p, buyIn), who);
    if r.Sat? {
      HeldUpdate(s.t.seats, r.seat, Some(Seat(p, buyIn, |s.t.links|, false)), who);
      TallyOne(Entry(Some(p), buyIn), who);
    } else {
      NoTally(who);
    }
  }

  // ---------------------------------------------------------------------------
  // Results
  // ---------------------------------------------------------------------------

  /** The dealt seats are in seat order, so no two are the same. */
  ghost predicate InOrder(ps: seq<Dealt>) {
    forall j, k :: 0 <= j < k < |ps| ==> ps[j].seat < ps[k].seat
  }

  /** A result per dealt seat, no stack below zero, summing to zero; or none at all, when the
      hand's thread failed. */
  ghost predicate ResultsFit(os: seq<SeatOutcome>, ps: seq<Dealt>) {
    os == [] ||
    (&& |os| == |ps| && SumDelta(os) == 0
     && forall k :: 0 <= k < |os| ==> os[k].seat == ps[k].seat && ps[k].stack + os[k].chipDelta >= 0)
  }

  /** Everyone who was dealt in still sits there with the same chips. */
  ghost predicate StillSeated(seats: seq<Option<Seat>>, ps: seq<Dealt>) {
    forall k :: 0 <= k < |ps| ==>
      && ps[k].seat < |seats| && seats[ps[k].seat].Some?
      && seats[ps[k].seat].value.player == ps[k].player && seats[ps[k].seat].value.stack == ps[k].stack
  }

  ghost predicate NamedBy(ids: seq<nat>, ps: seq<Dealt>) {
    |ids| == |ps| && forall k :: 0 <= k < |ps| ==> ids[k] == ps[k].player
  }

  /** Seats not yet reached are as they were; names and links never change. */
  lemma {:induction false} CreditFrame(seats: seq<Option<Seat>>, os: seq<SeatOutcome>, k: nat, i: nat)
    requires k <= |os| && i < |seats|
    ensures var r := Credit(seats, os, k)[i];
            && (r.Some? <==> seats[i].Some?)
            && (r.Some? ==> r.value.(stack := seats[i].value.stack) == seats[i].value)
            && ((forall j :: 0 <= j < k ==> os[j].seat != i) ==> r == seats[i])
  {
    if k > 0 { CreditFrame(seats, os, k - 1, i); }
  }

  /** The clamp at zero changes nothing: the seat holds its dealt stack when its result comes. */
  lemma ClampIdle(seats: seq<Option<Seat>>, os: seq<SeatOutcome>, ps: seq<Dealt>, k: nat)
    requires k < |os| && ResultsFit(os, ps) && StillSeated(seats, ps) && InOrder(ps)
    ensures var was := Credit(seats, os, k)[os[k].seat]; var now := Credit(seats, os, k + 1)[os[k].seat];
            && was == seats[ps[k].seat] && was.Some? && was.value.stack + os[k].chipDelta >= 0
            && now == Some(was.value.(stack := was.value.stack + os[k].chipDelta))
            && Credit(seats, os, k + 1) == Credit(seats, os, k)[os[k].seat := now]
  {
    CreditFrame(seats, os, k, ps[k].seat);
  }

  lemma {:induction false} CreditAccounts(seats: seq<Option<Seat>>, os: seq<SeatOutcome>, ps: seq<Dealt>,
      ids: seq<nat>, k: nat, who: Option<nat>)
    requires k <= |os| && ResultsFit(os, ps) && StillSeated(seats, ps) && InOrder(ps) && NamedBy(ids, ps)
    ensures Held(Credit(seats, os, k), who) as int == Held(seats, who) + Tally(Entries(RowsOf(ids, os))[..k], who)
  {
    hide Held;
    if k > 0 {
      hide Credit;
      CreditAccounts(seats, os, ps, ids, k - 1, who);
      ClampIdle(seats, os, ps, k - 1);
      var at := ps[k - 1].seat;
      HeldUpdate(Credit(seats, os, k - 1), at, Credit(seats, os, k)[at], who);
      var es := Entries(RowsOf(ids, os));
      assert es[..k][..k - 1] == es[..k - 1];
    }
  }

  lemma {:induction false} RowsNet(ids: seq<nat>, os: seq<SeatOutcome>, k: nat)
    requires k <= |os|
    ensures Tally(Entries(RowsOf(ids, os))[..k], None) == SumDelta(os[..k])
  {
    if k > 0 {
      RowsNet(ids, os, k - 1);
      assert os[..k][..k - 1] == os[..k - 1];
      var es := Entries(RowsOf(ids, os));
      assert es[..k][..k - 1] == es[..k - 1];
    }
  }

  lemma ApplyReconciles(s: State, ps: seq<Dealt>, who: Option<nat>)
    requires s.actor.Finished? && ResultsFit(s.actor.results, ps) && StillSeated(s.t.seats, ps) && InOrder(ps) &&
             NamedBy(s.actor.ids, ps)
    requires Reconciled(s, who)
    ensures Reconciled(ApplyMove(s), who)
  {
    var os := s.actor.results;
    var es := Entries(RowsOf(s.actor.ids, os));
    CreditAccounts(s.t.seats, os, ps, s.actor.ids, |os|, who);
    assert es[..|os|] == es;
    TallyConcat(s.books.won, es, who);
    var credited := Credit(s.t.seats, os, |os|);
    var n := |credited|;
    VacatingAccounts(credited, Cleared(credited), n, who);
    assert credited[..n] == credited && Cleared(credited)[..n] == Cleared(credited);
    TallyConcat(s.books.carried, Gone(credited, Cleared(credited), n), who);
  }

  // ---------------------------------------------------------------------------
  // What the engine hands back
  // ---------------------------------------------------------------------------

  lemma {:induction false} OutcomesPerSeat(ps: seq<Player>, satOut: seq<bool>, deltas: seq<nat>)
    requires |ps| == |satOut| == |deltas|
    requires forall i :: 0 <= i < |ps| ==> !ps[i].status.Out?
    ensures var r := Outcomes(ps, satOut, deltas);
            |r| == |ps| && forall i :: 0 <= i < |ps| ==> r[i].seat == i && r[i].chipDelta == deltas[i] - ps[i].committed
  {
    if ps != [] {
      var n := |ps| - 1;
      OutcomesPerSeat(ps[..n], satOut[..n], deltas[..n]);
    }
  }

  /** A finished server hand has one result per seat, in seat order; no stack goes below zero
      and the results sum to zero. */
  lemma ServerResults(e: Engine, u: Setup, script: seq<Action>)
    requires ServerHand(u) && Playable(u) && Played(e, u, script).phase.Terminal? && e.rules.bigBlind > 0
    ensures var r := HandSeats(e, u, script);
            && |r| == |u.stacks| && SumDelta(r) == 0
            && forall k :: 0 <= k < |r| ==> r[k].seat == k && u.stacks[k] + r[k].chipDelta >= 0
  {
    hide New, Drive, Good, Outcomes, TwoLive, SumDelta;
    ServerHandPlayable(u);
    var t := Played(e, u, script);
    PlayedGood(e, u, script);
    Conservation(e, u, script);
    ResultsSumToZero(e, u, script);
    forall i | 0 <= i < |u.stacks| ensures i < |t.hand.g.players| && t.hand.g.players[i].status != Out {
      GoodOut(e, u, t, i);
    }
    OutcomesPerSeat(t.hand.g.players, t.hand.g.satOut, t.phase.deltas);
  }

  // ---------------------------------------------------------------------------
  // Seats, for every table
  // ---------------------------------------------------------------------------

  ghost predicate Linked(t: Inner) {
    forall i :: 0 <= i < |t.seats| && t.seats[i].Some? ==>
      t.seats[i].value.link < |t.links| && t.links[t.seats[i].value.link].player == t.seats[i].value.player
  }

  ghost predicate OneSeatEach(seats: seq<Option<Seat>>) {
    forall i, j :: 0 <= i < j < |seats| && seats[i].Some? && seats[j].Some? ==>
      seats[i].value.player != seats[j].value.player
  }

  ghost predicate LookupsOk(s: State) {
    forall l :: l in s.lookups ==> l.link < |s.t.links| && s.t.links[l.link].player == l.player
  }

  /** The snapshot of a running hand still describes the table. */
  ghost predicate Frozen(c: Config, t: Inner, snap: Snapshot, ps: seq<Dealt>) {
    && |snap.players| == |ps| && InOrder(ps) && StillSeated(t.seats, ps)
    && (forall k :: 0 <= k < |ps| ==>
          && snap.players[k] == SnapshotPlayer(ps[k].seat, ps[k].stack, t.seats[ps[k].seat].value.link)
          && ps[k].stack >= c.bigBlind)
  }

  /** The hand on the table is the last one numbered, and the books know who was dealt in. */
  ghost predicate Current(s: State, id: nat) { id in s.books.dealt && id + 1 == s.t.nextHandId }

  ghost predicate InHand(c: Config, s: State, snap: Snapshot) {
    s.t.inProgress && Current(s, snap.handId) && Frozen(c, s.t, snap, s.books.dealt[snap.handId])
  }

  ghost predicate ActorSeats(c: Config, s: State) {
    match s.actor
    case Idle => !s.t.inProgress
    case Claimed => s.t.inProgress
    case Taken(snap) => InHand(c, s, snap)
    case Running(snap, ids) => InHand(c, s, snap) && NamedBy(ids, s.books.dealt[snap.handId]) && |ids| >= c.minSeats
    case Finished(snap, ids, _) => InHand(c, s, snap) && NamedBy(ids, s.books.dealt[snap.handId])
    case Settled(id, _) => !s.t.inProgress && Current(s, id)
    case Halted => true
  }

  ghost predicate Numbered(s: State) { forall id :: id in s.books.dealt ==> id < s.t.nextHandId }

  /** What holds of the seats of any table, whatever its blinds. */
  ghost predicate Seating(c: Config, s: State) {
    && Linked(s.t) && OneSeatEach(s.t.seats) && LookupsOk(s) && ActorSeats(c, s) && Numbered(s)
    && (|s.t.seats| > 0 ==> s.t.button < |s.t.seats|)
  }

  /** What any player's operation does to the table: links keep their player, and while a hand
      is on nobody seated loses the seat, its chips or its link. */
  ghost predicate PlayerStep(t: Inner, t': Inner) {
    && |t'.seats| == |t.seats| && t'.nextHandId == t.nextHandId && t'.inProgress == t.inProgress &&
       t'.button == t.button
    && |t.links| <= |t'.links| && (forall l :: 0 <= l < |t.links| ==> t'.links[l].player == t.links[l].player)
    && (t.inProgress ==> forall i :: 0 <= i < |t.seats| && t.seats[i].Some? ==>
          t'.seats[i].Some? && t'.seats[i].value.(leavePending := t.seats[i].value.leavePending) == t.seats[i].value)
  }

  lemma PlayerSeats(c: Config, s: State, s': State)
    requires Seating(c, s) && PlayerStep(s.t, s'.t) && s'.actor == s.actor && s'.books.dealt == s.books.dealt
    requires Linked(s'.t) && OneSeatEach(s'.t.seats) && LookupsOk(s')
    ensures Seating(c, s')
  {
  }

  lemma SitSeats(c: Config, e: Engine, s: State, m: Move)
    requires Seating(c, s) && m.Sit?
    ensures Seating(c, Next(c, e, s, m))
  {
    hide ActorSeats, Numbered;
    PlayerSeats(c, s, Next(c, e, s, m));
  }

  lemma ReseatedSeats(c: Config, s: State, t: Inner)
    requires Seating(c, s) && OnlyVacates(s.t.seats, t.seats) && PlayerStep(s.t, t) && t.links == s.t.links
    requires forall i :: 0 <= i < |t.seats| && t.seats[i].Some? ==> t.seats[i].value.link == s.t.seats[i].value.link
    ensures Seating(c, Reseated(s, t))
  {
    hide ActorSeats, Numbered;
    PlayerSeats(c, s, Reseated(s, t));
  }

  lemma LeaveIsReseating(t: Inner, p: nat, only: Option<int>)
    ensures forall r :: r == AfterLeave(t, p) || r == AfterForceLeave(t, p, only) ==>
              && OnlyVacates(t.seats, r.seats) && PlayerStep(t, r) && r.links == t.links
              && forall i :: 0 <= i < |r.seats| && r.seats[i].Some? ==> r.seats[i].value.link == t.seats[i].value.link
  {
  }

  lemma ReconnectSeats(c: Config, e: Engine, s: State, m: Move)
    requires Seating(c, s) && (m.FindLink? || m.Rebind?)
    ensures Seating(c, Next(c, e, s, m))
  {
    hide ActorSeats, Numbered;
    PlayerSeats(c, s, Next(c, e, s, m));
  }

  lemma TakeSeats(c: Config, s: State)
    requires Seating(c, s) && s.actor.Claimed?
    ensures Seating(c, TakeMove(c, s))
  {
  }

  /** Whoever sits after a result sat there before it, under the same link. */
  lemma AppliedSeats(t: Inner, os: seq<SeatOutcome>, i: nat)
    requires i < |t.seats|
    ensures var r := AfterResult(t, os).seats[i];
            r.Some? ==>
              t.seats[i].Some? && r.value.player == t.seats[i].value.player &&
              r.value.link == t.seats[i].value.link
  {
    CreditFrame(t.seats, os, |os|, i);
  }

  lemma AppliedTable(t: Inner, os: seq<SeatOutcome>)
    requires Linked(t) && OneSeatEach(t.seats)
    ensures Linked(AfterResult(t, os)) && OneSeatEach(AfterResult(t, os).seats)
  {
    hide AfterResult;
    forall i | 0 <= i < |t.seats|
      ensures var r := AfterResult(t, os).seats[i];
              r.Some? ==>
                t.seats[i].Some? && r.value.player == t.seats[i].value.player &&
                r.value.link == t.seats[i].value.link
    {
      AppliedSeats(t, os, i);
    }
  }

  lemma AppliedButton(t: Inner, os: seq<SeatOutcome>)
    requires |t.seats| > 0 ==> t.button < |t.seats|
    ensures var r := AfterResult(t, os); |r.seats| > 0 ==> r.button < |r.seats|
  {
  }

  lemma ApplySeats(c: Config, s: State)
    requires Seating(c, s) && s.actor.Finished?
    ensures Seating(c, ApplyMove(s))
  {
    hide Credit, Cleared, Gone, Linked, OneSeatEach;
    AppliedTable(s.t, s.actor.results);
    AppliedButton(s.t, s.actor.results);
  }

  lemma ActorSeatsKept(c: Config, e: Engine, s: State, m: Move)
    requires Seating(c, s) && (m.Claim? || m.Begin? || m.Finish? || m.Crash? || m.Persist? || m.Halt?)
    ensures Seating(c, Next(c, e, s, m))
  {
    hide Playable, Played, HandSeats;
  }

  /** Every move, on every table, keeps the seats in order. */
  lemma SeatsKept(c: Config, e: Engine, s: State, m: Move)
    requires Seating(c, s)
    ensures Seating(c, Next(c, e, s, m))
  {
    hide Seating, TakeMove, ApplyMove, Reseated, Playable, Played, HandSeats, OnlyVacates, PlayerStep, AfterLeave,
         AfterForceLeave;
    match m
    case Sit(_, _, _) => SitSeats(c, e, s, m);
    case Leave(p) =>
      LeaveIsReseating(s.t, p, None);
      ReseatedSeats(c, s, AfterLeave(s.t, p));
    case ForceLeave(p, only) =>
      LeaveIsReseating(s.t, p, only);
      ReseatedSeats(c, s, AfterForceLeave(s.t, p, only));
    case FindLink(_, _) => ReconnectSeats(c, e, s, m);
    case Rebind(_) => ReconnectSeats(c, e, s, m);
    case Take => if s.actor.Claimed? { TakeSeats(c, s); }
    case Apply => if s.actor.Finished? { ApplySeats(c, s); }
    case _ => ActorSeatsKept(c, e, s, m);
  }

  // ---------------------------------------------------------------------------
  // Books, for tables with a positive big blind
  // ---------------------------------------------------------------------------

  ghost predicate RowsFit(rows: seq<Row>, ps: seq<Dealt>) {
    rows == [] ||
    (|rows| == |ps| && forall k :: 0 <= k < |rows| ==>
       rows[k].seat == ps[k].seat && rows[k].player == Some(ps[k].player) && ps[k].stack + rows[k].delta >= 0)
  }

  ghost predicate Unstored(s: State, id: nat) { forall r :: r in s.records ==> r.handId < id }

  ghost predicate ActorBooks(s: State) {
    match s.actor
    case Taken(snap) => Unstored(s, snap.handId)
    case Running(snap, _) => Unstored(s, snap.handId)
    case Finished(snap, _, os) =>
      Unstored(s, snap.handId) && snap.handId in s.books.dealt && ResultsFit(os, s.books.dealt[snap.handId])
    case Settled(id, rows) => Unstored(s, id) && id in s.books.dealt && RowsFit(rows, s.books.dealt[id])
    case _ => true
  }

  ghost predicate RecordsOk(s: State) {
    && (forall i :: 0 <= i < |s.records| ==>
          && s.records[i].handId in s.books.dealt && s.records[i].handId < s.t.nextHandId
          && RowsFit(s.records[i].rows, s.books.dealt[s.records[i].handId]))
    && (forall i, j :: 0 <= i < j < |s.records| ==> s.records[i].handId < s.records[j].handId)
  }

  ghost predicate Booked(s: State) {
    ActorBooks(s) && RecordsOk(s) && (forall who :: Reconciled(s, who)) && Tally(s.books.won, None) == 0
  }

  /** The tables the server builds, with a big blind to post. */
  predicate Sound(c: Config, e: Engine) { c.minSeats >= 2 && c.bigBlind > 0 && e.rules.bigBlind > 0 }

  lemma PlayerBooks(s: State, s': State)
    requires Booked(s) && s'.actor == s.actor && s'.records == s.records && s'.t.nextHandId == s.t.nextHandId
    requires s'.books.dealt == s.books.dealt && s'.books.won == s.books.won && forall who :: Reconciled(s', who)
    ensures Booked(s')
  {
  }

  lemma SitBooks(c: Config, e: Engine, s: State, p: nat, session: int, buyIn: nat)
    requires Booked(s)
    ensures Booked(Next(c, e, s, Sit(p, session, buyIn)))
  {
    var s' := Next(c, e, s, Sit(p, session, buyIn));
    forall who ensures Reconciled(s', who) { SitReconciles(c, e, s, p, session, buyIn, who); }
    hide Reconciled, ActorBooks, RecordsOk;
    PlayerBooks(s, s');
  }

  lemma ReseatedBooks(s: State, t: Inner)
    requires Booked(s) && OnlyVacates(s.t.seats, t.seats) && t.nextHandId == s.t.nextHandId
    ensures Booked(Reseated(s, t))
  {
    forall who ensures Reconciled(Reseated(s, t), who) { ReseatedReconciles(s, t, who); }
    hide Reconciled, ActorBooks, RecordsOk;
    PlayerBooks(s, Reseated(s, t));
  }

  lemma ReconnectBooks(c: Config, e: Engine, s: State, m: Move)
    requires Booked(s) && (m.FindLink? || m.Rebind?)
    ensures Booked(Next(c, e, s, m))
  {
    var s' := Next(c, e, s, m);
    forall who ensures Reconciled(s', who) { assert Reconciled(s, who); }
    hide Reconciled, ActorBooks, RecordsOk;
    PlayerBooks(s, s');
  }

  lemma TakeBooks(c: Config, s: State)
    requires Seating(c, s) && Booked(s) && s.actor.Claimed?
    ensures Booked(TakeMove(c, s))
  {
    hide Linked, OneSeatEach, LookupsOk;
    var s' := TakeMove(c, s);
    forall who ensures Reconciled(s', who) { assert Reconciled(s, who); }
    forall r | r in s.records ensures r.handId < s.t.nextHandId {
      var i :| 0 <= i < |s.records| && s.records[i] == r;
    }
  }

  lemma FinishBooks(c: Config, e: Engine, s: State, seed: nat, cards: seq<Card>, script: seq<Action>)
    requires Seating(c, s) && Booked(s) && s.actor.Running? && Sound(c, e)
    ensures Booked(Next(c, e, s, Finish(seed, cards, script)))
  {
    hide Playable, Played, HandSeats, RecordsOk;
    var s' := Next(c, e, s, Finish(seed, cards, script));
    var snap := s.actor.snap;
    var u := SetupOf(snap, seed, cards);
    forall who ensures Reconciled(s', who) { assert Reconciled(s, who); }
    RecordsSame(s, s');
    if Playable(u) && Played(e, u, script).phase.Terminal? {
      ServerResults(e, u, script);
      var r := HandSeats(e, u, script);
      SameSum(r, Remap(r, snap.players));
    }
  }

  lemma RecordsSame(s: State, s': State)
    requires s'.records == s.records && s'.books.dealt == s.books.dealt && s'.t.nextHandId == s.t.nextHandId
    ensures RecordsOk(s) ==> RecordsOk(s')
  {
  }

  lemma {:induction false} SameSum(a: seq<SeatOutcome>, b: seq<SeatOutcome>)
    requires |a| == |b| && forall k :: 0 <= k < |a| ==> a[k].chipDelta == b[k].chipDelta
    ensures SumDelta(a) == SumDelta(b)
  {
    if a != [] { SameSum(a[..|a| - 1], b[..|b| - 1]); }
  }

  lemma RowsFitResults(ids: seq<nat>, os: seq<SeatOutcome>, ps: seq<Dealt>)
    requires ResultsFit(os, ps) && NamedBy(ids, ps)
    ensures RowsFit(RowsOf(ids, os), ps)
  {
  }

  lemma ResultsNet(won: seq<Entry>, ids: seq<nat>, os: seq<SeatOutcome>, ps: seq<Dealt>)
    requires ResultsFit(os, ps) && Tally(won, None) == 0
    ensures Tally(won + Entries(RowsOf(ids, os)), None) == 0
  {
    var es := Entries(RowsOf(ids, os));
    RowsNet(ids, os, |os|);
    assert os[..|os|] == os && es[..|os|] == es;
    TallyConcat(won, es, None);
  }

  /** The books after a result. */
  lemma AppliedBooks(s: State, ps: seq<Dealt>)
    requires s.actor.Finished? && ResultsFit(s.actor.results, ps) && StillSeated(s.t.seats, ps) && InOrder(ps) &&
             NamedBy(s.actor.ids, ps)
    requires (forall who :: Reconciled(s, who)) && Tally(s.books.won, None) == 0
    ensures forall who :: Reconciled(ApplyMove(s), who)
    ensures Tally(ApplyMove(s).books.won, None) == 0
    ensures RowsFit(RowsOf(s.actor.ids, s.actor.results), ps)
  {
    hide Credit, Cleared, Gone, Reconciled, ResultsFit, StillSeated, InOrder, NamedBy, RowsFit, Tally;
    forall who ensures Reconciled(ApplyMove(s), who) { ApplyReconciles(s, ps, who); }
    ResultsNet(s.books.won, s.actor.ids, s.actor.results, ps);
    RowsFitResults(s.actor.ids, s.actor.results, ps);
  }

  lemma ApplyBooks(c: Config, s: State)
    requires Seating(c, s) && Booked(s) && s.actor.Finished?
    ensures Booked(ApplyMove(s))
  {
    hide Credit, Cleared, Gone, Held, Linked, OneSeatEach, Reconciled, RowsOf, Entries, RowsFit, Tally, ResultsFit,
      RecordsOk;
    AppliedBooks(s, s.books.dealt[s.actor.snap.handId]);
    RecordsSame(s, ApplyMove(s));
  }

  /** Claiming a hand, beginning it, losing it to a failed thread, halting. */
  lemma OtherBooks(c: Config, e: Engine, s: State, m: Move)
    requires Booked(s) && (m.Claim? || m.Begin? || m.Crash? || m.Halt?) && (m.Crash? ==> Seating(c, s))
    ensures Booked(Next(c, e, s, m))
  {
    hide Linked, OneSeatEach, LookupsOk, RecordsOk;
    var s' := Next(c, e, s, m);
    forall who ensures Reconciled(s', who) { assert Reconciled(s, who); }
    RecordsSame(s, s');
    hide Reconciled;
  }

  lemma PersistBooks(c: Config, e: Engine, s: State, stored: bool)
    requires Seating(c, s) && Booked(s)
    ensures Booked(Next(c, e, s, Persist(stored)))
  {
    hide Linked, OneSeatEach, LookupsOk, RowsFit;
    var s' := Next(c, e, s, Persist(stored));
    forall who ensures Reconciled(s', who) { assert Reconciled(s, who); }
    hide Reconciled;
  }

  /** Every move on a sound table keeps the books in order. */
  lemma BooksKept(c: Config, e: Engine, s: State, m: Move)
    requires Seating(c, s) && Booked(s) && Sound(c, e)
    ensures Booked(Next(c, e, s, m))
  {
    hide Booked, Seating, TakeMove, ApplyMove, Reseated, Playable, Played, HandSeats, OnlyVacates, PlayerStep,
      AfterLeave,
         AfterForceLeave;
    match m
    case Sit(p, session, buyIn) => SitBooks(c, e, s, p, session, buyIn);
    case Leave(p) =>
      LeaveIsReseating(s.t, p, None);
      LeaveKeepsNumber(s.t, p, None);
      ReseatedBooks(s, AfterLeave(s.t, p));
    case ForceLeave(p, only) =>
      LeaveIsReseating(s.t, p, only);
      LeaveKeepsNumber(s.t, p, only);
      ReseatedBooks(s, AfterForceLeave(s.t, p, only));
    case FindLink(_, _) => ReconnectBooks(c, e, s, m);
    case Rebind(_) => ReconnectBooks(c, e, s, m);
    case Take => if s.actor.Claimed? { TakeBooks(c, s); }
    case Finish(seed, cards, script) => if s.actor.Running? { FinishBooks(c, e, s, seed, cards, script); }
    case Apply => if s.actor.Finished? { ApplyBooks(c, s); }
    case Persist(stored) => PersistBooks(c, e, s, stored);
    case _ => OtherBooks(c, e, s, m);
  }

  lemma LeaveKeepsNumber(t: Inner, p: nat, only: Option<int>)
    ensures AfterLeave(t, p).nextHandId == t.nextHandId == AfterForceLeave(t, p, only).nextHandId
  {
  }

  /** A new table. */
  lemma FreshOk(c: Config, maxSeats: nat)
    ensures Seating(c, Fresh(maxSeats)) && Booked(Fresh(maxSeats))
  {
    forall who ensures Held(Fresh(maxSeats).t.seats, who) == 0 { EmptyHeld(maxSeats, who); }
  }

  lemma {:induction false} EmptyHeld(n: nat, who: Option<nat>)
    ensures Held(seq<Option<Seat>>(n, i => None), who) == 0
  {
    if n > 0 {
      EmptyHeld(n - 1, who);
      assert seq<Option<Seat>>(n, i => None)[..n - 1] == seq<Option<Seat>>(n - 1, i => None);
    }
  }

  /** After any moves in any order, on any table the seats are in order, and on a sound one the
      books are. */
  lemma {:induction false} RunKeeps(c: Config, e: Engine, maxSeats: nat, moves: seq<Move>)
    ensures Seating(c, Run(c, e, Fresh(maxSeats), moves))
    ensures Sound(c, e) ==> Booked(Run(c, e, Fresh(maxSeats), moves))
  {
    hide Seating, Booked, Next, Sound;
    FreshOk(c, maxSeats);
    if moves != [] {
      var n := |moves| - 1;
      var s := Run(c, e, Fresh(maxSeats), moves[..n]);
      RunKeeps(c, e, maxSeats, moves[..n]);
      SeatsKept(c, e, s, moves[n]);
      if Sound(c, e) { BooksKept(c, e, s, moves[n]); }
    }
  }

  // ---------------------------------------------------------------------------
  // Consequences for every run
  // ---------------------------------------------------------------------------

  ghost predicate HandOn(a: Actor) { a.Taken? || a.Running? || a.Finished? }

  /** From its snapshot until its result is applied, everyone dealt into a hand keeps the seat
      and the chips they were dealt in with, whatever the others do and whatever the blinds. */
  lemma RunningSeatsFixed(c: Config, e: Engine, maxSeats: nat, moves: seq<Move>, k: nat)
    ensures var s := Run(c, e, Fresh(maxSeats), moves);
            HandOn(s.actor) && k < |s.actor.snap.players| ==>
              && s.actor.snap.handId in s.books.dealt
              && |s.books.dealt[s.actor.snap.handId]| == |s.actor.snap.players|
              && var d := s.books.dealt[s.actor.snap.handId][k];
                 && d.seat == s.actor.snap.players[k].tableSeat < |s.t.seats| && s.t.seats[d.seat].Some?
                 && s.t.seats[d.seat].value.player == d.player
                 && s.t.seats[d.seat].value.stack == d.stack == s.actor.snap.players[k].stack
  {
    hide Run, Booked;
    RunKeeps(c, e, maxSeats, moves);
  }

  /** Who was dealt into a hand is settled when it is numbered. */
  lemma DealtIsFinal(c: Config, e: Engine, maxSeats: nat, moves: seq<Move>, m: Move, id: nat)
    ensures var s := Run(c, e, Fresh(maxSeats), moves); var s' := Next(c, e, s, m);
            id in s.books.dealt ==> id in s'.books.dealt && s'.books.dealt[id] == s.books.dealt[id]
  {
    hide Run, Booked, ActorSeats, Played, Playable, HandSeats;
    RunKeeps(c, e, maxSeats, moves);
  }

  /** The dealer of a hand about to be snapshotted sits at the first playing seat clockwise from
      the button. */
  lemma ButtonLeadsToDealer(c: Config, e: Engine, maxSeats: nat, moves: seq<Move>, k: nat)
    ensures var t := Run(c, e, Fresh(maxSeats), moves).t; var ps := Playing(c, t.seats, |t.seats|);
            k < |ps| ==>
              && t.button < |t.seats| && DealerOf(ps, t.button) < |ps|
              && Clockwise(|t.seats|, t.button, ps[DealerOf(ps, t.button)].tableSeat)
                 <= Clockwise(|t.seats|, t.button, ps[k].tableSeat)
  {
    hide Run, Booked, ActorSeats, DealerOf, Clockwise;
    RunKeeps(c, e, maxSeats, moves);
    var t := Run(c, e, Fresh(maxSeats), moves).t;
    if k < |Playing(c, t.seats, |t.seats|)| { DealerFollowsButton(c, t.seats, t.button, k); }
  }

  /** In a hand under way the dealer is the playing seat first reached from the button. */
  ghost predicate DealerOk(s: State) {
    HandOn(s.actor) && s.actor.snap.players != [] ==>
      var ps, n := s.actor.snap.players, |s.t.seats|;
      && s.t.button < n && s.actor.snap.dealer < |ps| && (forall k :: 0 <= k < |ps| ==> ps[k].tableSeat < n)
      && forall k :: 0 <= k < |ps| ==>
           Clockwise(n, s.t.button, ps[s.actor.snap.dealer].tableSeat) <= Clockwise(n, s.t.button, ps[k].tableSeat)
  }

  lemma TakenDealer(c: Config, s: State)
    requires s.t.button < |s.t.seats|
    ensures DealerOk(TakeMove(c, s))
  {
    hide Playing, DealerOf, Clockwise;
    var ps := Playing(c, s.t.seats, |s.t.seats|);
    forall k | 0 <= k < |ps|
      ensures ps[k].tableSeat < |s.t.seats| && DealerOf(ps, s.t.button) < |ps|
      ensures Clockwise(|s.t.seats|, s.t.button, ps[DealerOf(ps, s.t.button)].tableSeat)
              <= Clockwise(|s.t.seats|, s.t.button, ps[k].tableSeat)
    {
      DealerFollowsButton(c, s.t.seats, s.t.button, k);
    }
    if ps != [] { assert ps[0].tableSeat < |s.t.seats|; }
  }

  lemma NoSeatsNoHand(c: Config, s: State)
    requires |s.t.seats| == 0
    ensures DealerOk(TakeMove(c, s))
  {
  }

  /** A hand under way keeps its snapshot. */
  lemma SnapshotKept(c: Config, e: Engine, s: State, m: Move)
    requires !(m.Take? && s.actor.Claimed?)
    ensures var s' := Next(c, e, s, m);
            HandOn(s'.actor) ==> HandOn(s.actor) && s'.actor.snap == s.actor.snap && s'.t.button == s.t.button
  {
    hide Playable, Played, HandSeats, Playing, DealerOf, Credit, Cleared, NextButton;
  }

  lemma DealerKept(c: Config, e: Engine, s: State, m: Move)
    requires Seating(c, s) && DealerOk(s)
    ensures DealerOk(Next(c, e, s, m))
  {
    hide ActorSeats, Linked, OneSeatEach, LookupsOk, Numbered, Playable, Played, HandSeats, TakeMove, ApplyMove,
      Clockwise;
    if m.Take? && s.actor.Claimed? {
      if |s.t.seats| > 0 { TakenDealer(c, s); } else { NoSeatsNoHand(c, s); }
    } else {
      SnapshotKept(c, e, s, m);
      TableSize(c, e, s, m);
    }
  }

  lemma {:induction false} DealersFollow(c: Config, e: Engine, maxSeats: nat, moves: seq<Move>)
    ensures DealerOk(Run(c, e, Fresh(maxSeats), moves))
  {
    hide Seating, Next, DealerOk;
    if moves == [] {
      assert DealerOk(Fresh(maxSeats)) by { NoHandYet(maxSeats); }
    } else {
      var n := |moves| - 1;
      RunKeeps(c, e, maxSeats, moves[..n]);
      DealersFollow(c, e, maxSeats, moves[..n]);
      DealerKept(c, e, Run(c, e, Fresh(maxSeats), moves[..n]), moves[n]);
    }
  }

  lemma NoHandYet(maxSeats: nat)
    ensures DealerOk(Fresh(maxSeats))
  {
  }

  /** Does the move put a result on the table, or start a hand? */
  predicate Applies(s: State, m: Move) { m.Apply? && s.actor.Finished? }
  predicate Begins(c: Config, s: State, m: Move) {
    m.Begin? && s.actor.Taken? && |s.actor.snap.players| >= c.minSeats
  }

  /** How many results the moves apply and how many hands they start. */
  ghost function Applied(c: Config, e: Engine, s: State, moves: seq<Move>): nat {
    if moves == [] then 0
    else
      var n := |moves| - 1;
      Applied(c, e, s, moves[..n]) + if Applies(Run(c, e, s, moves[..n]), moves[n]) then 1 else 0
  }

  ghost function Begun(c: Config, e: Engine, s: State, moves: seq<Move>): nat {
    if moves == [] then 0
    else
      var n := |moves| - 1;
      Begun(c, e, s, moves[..n]) + if Begins(c, Run(c, e, s, moves[..n]), moves[n]) then 1 else 0
  }

  /** The button rests until a result is applied, and then moves on over the seats that are left. */
  lemma ButtonStep(c: Config, e: Engine, s: State, m: Move)
    requires Seating(c, s) && s.t.button < |s.t.seats|
    ensures var s' := Next(c, e, s, m);
            && s'.t.button < |s'.t.seats|
            && if Applies(s, m) then MovesOn(s'.t.seats, s.t.button, s'.t.button) else s'.t.button == s.t.button
  {
    hide Seating, TakeMove, Playable, Played, HandSeats, AfterResult, MovesOn;
    if Applies(s, m) { ButtonMovesOn(s.t, s.actor.results); }
    ButtonStays(c, e, s, m);
  }

  lemma ButtonStays(c: Config, e: Engine, s: State, m: Move)
    requires s.t.button < |s.t.seats|
    ensures var s' := Next(c, e, s, m);
            s'.t.button < |s'.t.seats| && (!Applies(s, m) ==> s'.t.button == s.t.button)
  {
    hide Playable, Played, HandSeats, Playing, DealerOf, Credit, Cleared;
  }

  /** The state in which the moves apply their first result. */
  ghost predicate MovedAt(c: Config, e: Engine, s: State, moves: seq<Move>, k: nat, button: nat) {
    && k < |moves| && Applies(Run(c, e, s, moves[..k]), moves[k]) && s.t.button < |s.t.seats|
    && |Run(c, e, s, moves[..k + 1]).t.seats| == |s.t.seats|
    && MovesOn(Run(c, e, s, moves[..k + 1]).t.seats, s.t.button, button)
  }

  /** What the moves have done: hands begun and not applied, seats, button. */
  lemma {:induction false} ButtonOver(c: Config, e: Engine, s: State, moves: seq<Move>)
    requires Seating(c, s) && s.t.button < |s.t.seats|
    ensures var s' := Run(c, e, s, moves);
            && Seating(c, s') && s'.t.button < |s'.t.seats| == |s.t.seats|
            && (Applied(c, e, s, moves) == 0 ==> s'.t.button == s.t.button)
            && (Applied(c, e, s, moves) == 1 ==> exists k: nat :: MovedAt(c, e, s, moves, k, s'.t.button))
  {
    hide Seating, Next, Applies, MovesOn;
    if moves != [] {
      var n := |moves| - 1;
      var r := Run(c, e, s, moves[..n]);
      ButtonOver(c, e, s, moves[..n]);
      SeatsKept(c, e, r, moves[n]);
      ButtonStep(c, e, r, moves[n]);
      TableSize(c, e, r, moves[n]);
      if Applied(c, e, s, moves) == 1 {
        if Applies(r, moves[n]) {
          assert moves[..n + 1] == moves;
          assert MovedAt(c, e, s, moves, n, Run(c, e, s, moves).t.button);
        } else {
          var k: nat :| MovedAt(c, e, s, moves[..n], k, r.t.button);
          assert moves[..n][..k] == moves[..k] && moves[..n][..k + 1] == moves[..k + 1];
          assert MovedAt(c, e, s, moves, k, r.t.button);
        }
      }
    }
  }

  lemma TableSize(c: Config, e: Engine, s: State, m: Move)
    ensures |Next(c, e, s, m).t.seats| == |s.t.seats|
  {
    hide Playable, Played, HandSeats, Playing, DealerOf, Credit, Cleared, NextButton;
  }

  ghost predicate Dealing(a: Actor) { a.Running? || a.Finished? }

  /** Each hand begun is applied once before the next begins. */
  lemma {:induction false} BegunAndApplied(c: Config, e: Engine, s: State, moves: seq<Move>)
    requires !Run(c, e, s, moves).actor.Halted?
    ensures var s' := Run(c, e, s, moves);
            Begun(c, e, s, moves) + (if Dealing(s.actor) then 1 else 0) ==
            Applied(c, e, s, moves) + if Dealing(s'.actor) then 1 else 0
  {
    if moves != [] {
      var n := |moves| - 1;
      var r := Run(c, e, s, moves[..n]);
      HaltIsFinal(c, e, r, moves[n]);
      BegunAndApplied(c, e, s, moves[..n]);
      HandStep(c, e, r, moves[n]);
    }
  }

  lemma HaltIsFinal(c: Config, e: Engine, s: State, m: Move)
    ensures s.actor.Halted? ==> Next(c, e, s, m).actor.Halted?
  {
  }

  lemma HandStep(c: Config, e: Engine, s: State, m: Move)
    requires !Next(c, e, s, m).actor.Halted?
    ensures (if Begins(c, s, m) then 1 else 0) + (if Dealing(s.actor) then 1 else 0) ==
            (if Applies(s, m) then 1 else 0) + if Dealing(Next(c, e, s, m).actor) then 1 else 0
  {
    hide Playable, Played, HandSeats, Playing, DealerOf, Credit, Cleared, NextButton;
  }

  /** From one hand to the next: the result of the first is applied once in between, and the second
      is dealt with the button on the first occupied seat past the old one, of the seats left then;
      its dealer is the playing seat first reached from there. */
  lemma ButtonBetweenHands(c: Config, e: Engine, maxSeats: nat, before: seq<Move>, more: seq<Move>)
    requires var s := Run(c, e, Fresh(maxSeats), before);
             && s.actor.Running? && s.actor.snap.players != [] && Run(c, e, s, more).actor.Running?
             && Begun(c, e, s, more) == 1
    ensures var s := Run(c, e, Fresh(maxSeats), before); var s' := Run(c, e, s, more);
            && (exists k: nat :: MovedAt(c, e, s, more, k, s'.t.button))
            && DealerOk(s) && DealerOk(s')
  {
    hide Run, Booked, DealerOk, MovedAt;
    var s := Run(c, e, Fresh(maxSeats), before);
    RunKeeps(c, e, maxSeats, before);
    DealersFollow(c, e, maxSeats, before);
    OnATable(s);
    BegunAndApplied(c, e, s, more);
    ButtonOver(c, e, s, more);
    RunsJoin(c, e, Fresh(maxSeats), before, more);
    DealersFollow(c, e, maxSeats, before + more);
  }

  lemma OnATable(s: State)
    requires DealerOk(s) && HandOn(s.actor) && s.actor.snap.players != []
    ensures s.t.button < |s.t.seats|
  {
  }

  lemma {:induction false} RunsJoin(c: Config, e: Engine, s: State, a: seq<Move>, b: seq<Move>)
    ensures Run(c, e, s, a + b) == Run(c, e, Run(c, e, s, a), b)
  {
    hide Next;
    if b == [] {
      assert a + b == a;
    } else {
      assert (a + b)[..|a + b| - 1] == a + b[..|b| - 1];
      RunsJoin(c, e, s, a, b[..|b| - 1]);
    }
  }

  /** Applying a result: outcome by outcome, the seat of the player it belongs to gets exactly
      its result, and the clamp at zero never acts. */
  lemma ResultsReachTheirPlayers(c: Config, e: Engine, maxSeats: nat, moves: seq<Move>, k: nat)
    requires Sound(c, e)
    ensures var s := Run(c, e, Fresh(maxSeats), moves);
            s.actor.Finished? && k < |s.actor.results| ==>
              && s.actor.snap.handId in s.books.dealt && k < |s.books.dealt[s.actor.snap.handId]|
              && var d := s.books.dealt[s.actor.snap.handId][k]; var os := s.actor.results;
                 && os[k].seat == d.seat < |s.t.seats| && s.t.seats[d.seat].Some? && d.stack + os[k].chipDelta >= 0
                 && Credit(s.t.seats, os, k + 1)[d.seat] ==
                    Some(s.t.seats[d.seat].value.(stack := d.stack + os[k].chipDelta))
                 && RowsOf(s.actor.ids, os)[k] == Row(d.seat, Some(d.player), os[k].chipDelta)
  {
    hide Run, RecordsOk, Reconciled, Credit;
    RunKeeps(c, e, maxSeats, moves);
    var s := Run(c, e, Fresh(maxSeats), moves);
    if s.actor.Finished? && k < |s.actor.results| {
      ClampIdle(s.t.seats, s.actor.results, s.books.dealt[s.actor.snap.handId], k);
    }
  }

  /** For each player: chips on the table and carried away are what was bought in plus the
      results; over all players the results cancel out, so no chip is made or lost. */
  lemma AccountsBalance(c: Config, e: Engine, maxSeats: nat, moves: seq<Move>, player: nat)
    requires Sound(c, e)
    ensures var s := Run(c, e, Fresh(maxSeats), moves);
            && Held(s.t.seats, Some(player)) + Tally(s.books.carried, Some(player))
               == Tally(s.books.bought, Some(player)) + Tally(s.books.won, Some(player))
            && Held(s.t.seats, None) + Tally(s.books.carried, None) == Tally(s.books.bought, None)
  {
    hide Run, RecordsOk, ActorBooks, Seating, Held, Tally;
    RunKeeps(c, e, maxSeats, moves);
    var s := Run(c, e, Fresh(maxSeats), moves);
    assert Reconciled(s, Some(player)) && Reconciled(s, None);
  }

  /** Every stored hand names, row by row, the player who was dealt into that seat, and no hand
      is stored twice. */
  lemma RecordsNameWhoPlayed(c: Config, e: Engine, maxSeats: nat, moves: seq<Move>, i: nat)
    requires Sound(c, e)
    ensures var s := Run(c, e, Fresh(maxSeats), moves);
            i < |s.records| ==>
              && s.records[i].handId in s.books.dealt
              && RowsFit(s.records[i].rows, s.books.dealt[s.records[i].handId])
              && forall j :: 0 <= j < i ==> s.records[j].handId != s.records[i].handId
  {
    hide Run, ActorBooks, Seating, Reconciled, RowsFit;
    RunKeeps(c, e, maxSeats, moves);
  }

  /** A hand that has been played is applied and stored row by row: seat, who was dealt it, result. */
  lemma HandIsStored(c: Config, e: Engine, maxSeats: nat, moves: seq<Move>)
    requires Sound(c, e)
    ensures var s := Run(c, e, Fresh(maxSeats), moves);
            s.actor.Finished? ==>
              && s.actor.snap.handId in s.books.dealt
              && var ps, os := s.books.dealt[s.actor.snap.handId], s.actor.results;
                 var r := Next(c, e, Next(c, e, s, Apply), Persist(true));
                 && r.actor == Idle && |os| <= |ps|
                 && r.records == s.records +
                      [Record(s.actor.snap.handId, seq(|os|, k requires 0 <= k < |os| =>
                                Row(ps[k].seat, Some(ps[k].player), os[k].chipDelta)))]
  {
    hide Run, RecordsOk, Reconciled, Credit, Cleared, AfterResult, Gone;
    RunKeeps(c, e, maxSeats, moves);
    var s := Run(c, e, Fresh(maxSeats), moves);
    if s.actor.Finished? {
      var ps, os := s.books.dealt[s.actor.snap.handId], s.actor.results;
      assert ResultsFit(os, ps) && NamedBy(s.actor.ids, ps);
      assert RowsOf(s.actor.ids, os) ==
             seq(|os|, k requires 0 <= k < |os| => Row(ps[k].seat, Some(ps[k].player), os[k].chipDelta));
    }
  }

  /** A reconnect gives the seat to the new session: the old one can no longer vacate it, the new
      one can. */
  lemma ReconnectTakesOver(c: Config, e: Engine, s: State, player: nat, session: int, i: nat)
    requires Seating(c, s) && i < |s.t.seats| && s.t.seats[i].Some? && s.t.seats[i].value.player == player
    ensures var link := s.t.seats[i].value.link;
            var r := Next(c, e, Next(c, e, s, FindLink(player, session)), Rebind(Lookup(player, session, link)));
            && r.t.seats == s.t.seats && link < |r.t.links| && r.t.links[link] == Conn(player, session)
            && (forall earlier :: earlier != session ==>
                  Next(c, e, r, ForceLeave(player, Some(earlier))).t.seats == s.t.seats)
            && (var gone := Next(c, e, r, ForceLeave(player, Some(session))).t.seats;
                |gone| == |s.t.seats| && (gone[i].None? || gone[i].value.leavePending))
  {
    hide ActorSeats, Numbered, Gone, Playable, Played, HandSeats;
    assert SeatOf(s.t.seats, player) == i;
  }

  lemma {:induction false} GoneOne(before: seq<Option<Seat>>, after: seq<Option<Seat>>, n: nat, i: nat)
    requires n <= |before| == |after| && i < |before| && before[i].Some?
    requires forall j :: 0 <= j < |before| && j != i ==> after[j] == before[j]
    ensures Gone(before, after, n) ==
            if i < n && after[i].None? then [Entry(Some(before[i].value.player), before[i].value.stack)] else []
  {
    if n > 0 { GoneOne(before, after, n - 1, i); }
  }

  /** Leaving between hands takes the chips away at once; during a hand nothing changes but the mark,
      and the chips go with the player when the hand's result is applied. */
  lemma LeavingCarries(c: Config, e: Engine, s: State, player: nat, i: nat)
    requires Seating(c, s) && i < |s.t.seats| && s.t.seats[i].Some? && s.t.seats[i].value.player == player
    ensures var r := Next(c, e, s, Leave(player)); var seat := s.t.seats[i].value;
            if s.t.inProgress
            then r == s.(t := s.t.(seats := s.t.seats[i := Some(seat.(leavePending := true))]))
            else r == s.(t := s.t.(seats := s.t.seats[i := None]),
                         books := s.books.(carried := s.books.carried + [Entry(Some(player), seat.stack)]))
  {
    hide ActorSeats, Numbered, Playable, Played, HandSeats, Gone;
    assert SeatOf(s.t.seats, player) == i;
    GoneOne(s.t.seats, AfterLeave(s.t, player).seats, |s.t.seats|, i);
  }
}
