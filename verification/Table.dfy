/** One table of the server (`Table`, `run_table`): the state behind its lock, every operation
    that takes the lock, and the steps of the actor that runs its hands. */
module Tables {
  import opened Types
  import opened Sums
  import opened Seats
  import opened Tree
  import opened EngineRun
  import opened Theorems

  datatype Config = Config(minSeats: nat, bigBlind: nat)

  /** What a seat link is bound to: the player and the login session of a connection. */
  datatype Conn = Conn(player: nat, session: int)

  /** `link` names a shared seat link, an index into `Inner.links`. */
  datatype Seat = Seat(player: nat, stack: nat, link: nat, leavePending: bool)

  /** `TableInner`, with the links its seats share with snapshots and agents. */
  datatype Inner = Inner(
    seats: seq<Option<Seat>>, links: seq<Conn>, button: nat, nextHandId: nat, inProgress: bool)

  datatype SnapshotPlayer = SnapshotPlayer(tableSeat: nat, stack: nat, link: nat)

  datatype Snapshot = Snapshot(handId: nat, players: seq<SnapshotPlayer>, dealer: nat)

  // ---------------------------------------------------------------------------
  // Looking up seats
  // ---------------------------------------------------------------------------

  function First(mask: seq<bool>, i: nat): (r: nat)
    requires i <= |mask| && forall j :: 0 <= j < i ==> !mask[j]
    ensures r <= |mask| && (r < |mask| ==> mask[r])
    ensures forall j :: 0 <= j < r ==> !mask[j]
    decreases |mask| - i
  {
    if i == |mask| || mask[i] then i else First(mask, i + 1)
  }

  function HeldBy(seats: seq<Option<Seat>>, player: nat): (mask: seq<bool>)
    ensures |mask| == |seats|
    ensures forall i :: 0 <= i < |seats| ==> mask[i] == (seats[i].Some? && seats[i].value.player == player)
  {
    seq(|seats|, i requires 0 <= i < |seats| => seats[i].Some? && seats[i].value.player == player)
  }

  function Occupied(seats: seq<Option<Seat>>): (mask: seq<bool>)
    ensures |mask| == |seats| && forall i :: 0 <= i < |seats| ==> mask[i] == seats[i].Some?
  {
    seq(|seats|, i requires 0 <= i < |seats| => seats[i].Some?)
  }

  function Vacant(seats: seq<Option<Seat>>): (mask: seq<bool>)
    ensures |mask| == |seats| && forall i :: 0 <= i < |seats| ==> mask[i] == seats[i].None?
  {
    seq(|seats|, i requires 0 <= i < |seats| => seats[i].None?)
  }

  /** The player's seat, or the number of seats. */
  function SeatOf(seats: seq<Option<Seat>>, player: nat): (r: nat)
    ensures r <= |seats| && (r < |seats| ==> seats[r].Some? && seats[r].value.player == player)
    ensures forall j :: 0 <= j < r ==> !(seats[j].Some? && seats[j].value.player == player)
  {
    First(HeldBy(seats, player), 0)
  }

  function FreeSeat(seats: seq<Option<Seat>>): (r: nat)
    ensures r <= |seats| && (r < |seats| ==> seats[r].None?)
    ensures forall j :: 0 <= j < r ==> seats[j].Some?
  {
    First(Vacant(seats), 0)
  }

  function SeatTaken(s: Option<Seat>): nat { if s.Some? then 1 else 0 }

  // ---------------------------------------------------------------------------
  // Operations under the lock
  // ---------------------------------------------------------------------------

  datatype SitAnswer = Sat(seat: nat) | BuyInTooSmall | AlreadySeated | Full

  /** Ten big blinds, in 32 bits. */
  function LeastBuyIn(c: Config): nat { c.bigBlind * 10 % 0x1_0000_0000 }

  /** The product is exact for every big blind up to 429496729, and for no other. */
  lemma LeastBuyInExactly(c: Config)
    ensures LeastBuyIn(c) == 10 * c.bigBlind <==> c.bigBlind <= 429496729
  {
  }

  function SitResult(c: Config, t: Inner, player: nat, buyIn: nat): (r: SitAnswer)
    ensures r.Sat? ==> r.seat < |t.seats| && t.seats[r.seat].None?
  {
    if buyIn < LeastBuyIn(c) then BuyInTooSmall
    else if SeatOf(t.seats, player) < |t.seats| then AlreadySeated
    else if FreeSeat(t.seats) == |t.seats| then Full
    else Sat(FreeSeat(t.seats))
  }

  /** A new seat comes with a new link. */
  function AfterSit(c: Config, t: Inner, player: nat, session: int, buyIn: nat): Inner {
    match SitResult(c, t, player, buyIn)
    case Sat(i) =>
      t.(seats := t.seats[i := Some(Seat(player, buyIn, |t.links|, false))], links := t.links + [Conn(player, session)])
    case _ => t
  }

  /** Immediately between hands, at the next hand boundary otherwise. */
  function AfterLeave(t: Inner, player: nat): Inner {
    var i := SeatOf(t.seats, player);
    if i == |t.seats| then t
    else if t.inProgress then t.(seats := t.seats[i := Some(t.seats[i].value.(leavePending := true))])
    else t.(seats := t.seats[i := None])
  }

  predicate OwnedBy(t: Inner, i: nat, session: Option<int>)
    requires i < |t.seats| && t.seats[i].Some?
  {
    session.None? || (t.seats[i].value.link < |t.links| && t.links[t.seats[i].value.link].session == session.value)
  }

  /** `force_leave`: as leaving, unless a newer session owns the seat. */
  function AfterForceLeave(t: Inner, player: nat, session: Option<int>): Inner {
    var i := SeatOf(t.seats, player);
    if i < |t.seats| && OwnedBy(t, i, session) then AfterLeave(t, player) else t
  }

  predicate HasQuorum(c: Config, t: Inner) { !t.inProgress && Sum(t.seats, SeatTaken) >= c.minSeats }

  // ---------------------------------------------------------------------------
  // Snapshot
  // ---------------------------------------------------------------------------

  predicate Eligible(c: Config, s: Option<Seat>) { s.Some? && s.value.stack >= c.bigBlind }

  /** The seats below `n` that can post the big blind, in seat order. */
  function Playing(c: Config, seats: seq<Option<Seat>>, n: nat): (ps: seq<SnapshotPlayer>)
    requires n <= |seats|
    ensures forall k :: 0 <= k < |ps| ==>
              ps[k].tableSeat < n && Eligible(c, seats[ps[k].tableSeat]) &&
              ps[k].stack == seats[ps[k].tableSeat].value.stack && ps[k].link == seats[ps[k].tableSeat].value.link
    ensures forall j, k :: 0 <= j < k < |ps| ==> ps[j].tableSeat < ps[k].tableSeat
  {
    if n == 0 then []
    else
      var rest := Playing(c, seats, n - 1);
      if Eligible(c, seats[n - 1]) then rest + [SnapshotPlayer(n - 1, seats[n - 1].value.stack,
        seats[n - 1].value.link)] else rest
  }

  /** Nobody who can play is passed over. */
  lemma {:induction false} PlayingComplete(c: Config, seats: seq<Option<Seat>>, n: nat, i: nat)
    requires i < n <= |seats| && Eligible(c, seats[i])
    ensures exists k :: 0 <= k < |Playing(c, seats, n)| && Playing(c, seats, n)[k].tableSeat == i
  {
    var ps := Playing(c, seats, n);
    if i == n - 1 {
      assert ps[|ps| - 1].tableSeat == i;
    } else {
      PlayingComplete(c, seats, n - 1, i);
      var k :| 0 <= k < |Playing(c, seats, n - 1)| && Playing(c, seats, n - 1)[k].tableSeat == i;
      assert ps[k].tableSeat == i;
    }
  }

  function AtOrAfter(ps: seq<SnapshotPlayer>, button: nat): (mask: seq<bool>)
    ensures |mask| == |ps| && forall k :: 0 <= k < |ps| ==> mask[k] == (ps[k].tableSeat >= button)
  {
    seq(|ps|, k requires 0 <= k < |ps| => ps[k].tableSeat >= button)
  }

  /** The first playing seat at or after the button, wrapping around. */
  function DealerOf(ps: seq<SnapshotPlayer>, button: nat): nat {
    var k := First(AtOrAfter(ps, button), 0);
    if k < |ps| then k else 0
  }

  /** The engine's dealer sits at the playing seat the button reaches first: no playing seat lies
      clockwise between them. */
  lemma DealerFollowsButton(c: Config, seats: seq<Option<Seat>>, button: nat, k: nat)
    requires button < |seats| && k < |Playing(c, seats, |seats|)|
    ensures var ps := Playing(c, seats, |seats|); var d := DealerOf(ps, button);
            d < |ps| && Clockwise(|seats|, button, ps[d].tableSeat) <= Clockwise(|seats|, button, ps[k].tableSeat)
  {
    var ps := Playing(c, seats, |seats|);
    var d := DealerOf(ps, button);
    var mask := AtOrAfter(ps, button);
    if mask[k] {
      assert First(mask, 0) <= k;
    }
  }

  /** Seats passed going clockwise from the button. */
  function Clockwise(n: nat, button: nat, seat: nat): nat
    requires button < n && seat < n
  {
    if seat >= button then seat - button else seat + n - button
  }

  function SnapshotOf(c: Config, t: Inner): Snapshot {
    var ps := Playing(c, t.seats, |t.seats|);
    Snapshot(t.nextHandId, ps, DealerOf(ps, t.button))
  }

  // ---------------------------------------------------------------------------
  // Results
  // ---------------------------------------------------------------------------

  /** `r_with_table_seats`. */
  function Remap(os: seq<SeatOutcome>, ps: seq<SnapshotPlayer>): (r: seq<SeatOutcome>)
    ensures |r| == |os|
    ensures forall k :: 0 <= k < |os| ==>
               r[k] == if os[k].seat < |ps| then os[k].(seat := ps[os[k].seat].tableSeat) else os[k]
  {
    seq(|os|, k requires 0 <= k < |os| => if os[k].seat < |ps| then os[k].(seat := ps[os[k].seat].tableSeat) else os[k])
  }

  /** One result applied to its seat, if it is taken; a stack never drops below zero. */
  function CreditOne(seats: seq<Option<Seat>>, o: SeatOutcome): (r: seq<Option<Seat>>)
    ensures |r| == |seats|
  {
    if o.seat < |seats| && seats[o.seat].Some?
    then seats[o.seat := Some(seats[o.seat].value.(stack := Max(0, seats[o.seat].value.stack + o.chipDelta)))]
    else seats
  }

  function Credit(seats: seq<Option<Seat>>, os: seq<SeatOutcome>, k: nat): (r: seq<Option<Seat>>)
    requires k <= |os|
    ensures |r| == |seats|
  {
    if k == 0 then seats else CreditOne(Credit(seats, os, k - 1), os[k - 1])
  }

  predicate Goes(s: Option<Seat>) { s.Some? && (s.value.leavePending || s.value.stack == 0) }

  function Cleared(seats: seq<Option<Seat>>): (r: seq<Option<Seat>>)
    ensures |r| == |seats| && forall i :: 0 <= i < |seats| ==> r[i] == if Goes(seats[i]) then None else seats[i]
  {
    seq(|seats|, i requires 0 <= i < |seats| => if Goes(seats[i]) then None else seats[i])
  }

  function NextButton(seats: seq<Option<Seat>>, button: nat): nat {
    match Scan(Occupied(seats), button, 1)
    case Some(i) => i
    case None => button
  }

  /** `apply_hand_result`. */
  function AfterResult(t: Inner, os: seq<SeatOutcome>): (r: Inner)
    ensures |r.seats| == |t.seats| && r.links == t.links
  {
    var seats := Cleared(Credit(t.seats, os, |os|));
    t.(seats := seats, button := NextButton(seats, t.button), inProgress := false)
  }

  // ---------------------------------------------------------------------------
  // What the operations come to
  // ---------------------------------------------------------------------------

  ghost predicate HasSeat(t: Inner, player: nat) {
    exists i :: 0 <= i < |t.seats| && t.seats[i].Some? && t.seats[i].value.player == player
  }

  ghost predicate AllTaken(t: Inner) { forall i :: 0 <= i < |t.seats| ==> t.seats[i].Some? }

  /** Sitting down, refusals in their order: too few chips, already seated, nowhere to sit.
      Otherwise the lowest empty seat, with the chips brought, over a link of its own. */
  lemma SittingDown(c: Config, t: Inner, player: nat, session: int, buyIn: nat)
    ensures var r, s := SitResult(c, t, player, buyIn), AfterSit(c, t, player, session, buyIn);
            && (c.bigBlind <= 429496729 ==> LeastBuyIn(c) == 10 * c.bigBlind)
            && (r.BuyInTooSmall? <==> buyIn < LeastBuyIn(c))
            && (r.AlreadySeated? <==> buyIn >= LeastBuyIn(c) && HasSeat(t, player))
            && (r.Full? <==> buyIn >= LeastBuyIn(c) && !HasSeat(t, player) && AllTaken(t))
            && (r.Sat? ==>
                  && r.seat < |t.seats| && t.seats[r.seat].None?
                  && (forall i :: 0 <= i < r.seat ==> t.seats[i].Some?)
                  && s == t.(seats := t.seats[r.seat := Some(Seat(player, buyIn, |t.links|, false))],
                             links := t.links + [Conn(player, session)]))
            && (!r.Sat? ==> s == t)
  {
    if HasSeat(t, player) {
      var i :| 0 <= i < |t.seats| && t.seats[i].Some? && t.seats[i].value.player == player;
      assert SeatOf(t.seats, player) <= i;
    }
    if FreeSeat(t.seats) < |t.seats| { assert t.seats[FreeSeat(t.seats)].None?; }
  }

  /** Standing up from seat `i`, the player's only one, of one's own accord (no session named) or
      by a session ending: between hands the seat empties, during a hand it is marked and keeps its
      chips; a session that no longer owns the seat's link does nothing. */
  lemma StandingUp(t: Inner, player: nat, session: Option<int>, i: nat)
    requires i < |t.seats| && t.seats[i].Some? && t.seats[i].value.player == player
    requires forall j :: 0 <= j < |t.seats| && j != i && t.seats[j].Some? ==> t.seats[j].value.player != player
    ensures var s := AfterForceLeave(t, player, session);
            && s == t.(seats := t.seats[i := s.seats[i]]) && (session.None? ==> AfterLeave(t, player) == s)
            && s.seats[i] ==
               if session.Some? && !(t.seats[i].value.link < |t.links| &&
                                     t.links[t.seats[i].value.link].session == session.value) then t.seats[i]
               else if t.inProgress then Some(t.seats[i].value.(leavePending := true))
               else None
  {
    assert SeatOf(t.seats, player) == i;
  }

  lemma NotSeatedStays(t: Inner, player: nat, session: Option<int>)
    requires !HasSeat(t, player)
    ensures AfterLeave(t, player) == t && AfterForceLeave(t, player, session) == t
  {
  }

  /** A hand can be claimed when none is running and enough seats are taken. */
  lemma {:induction false} SeatsTakenCount(seats: seq<Option<Seat>>)
    ensures Sum(seats, SeatTaken) == |set i | 0 <= i < |seats| && seats[i].Some?|
  {
    if seats != [] {
      var n := |seats| - 1;
      SeatsTakenCount(seats[..n]);
      var all, rest := set i | 0 <= i < |seats| && seats[i].Some?, set i | 0 <= i < n && seats[..n][i].Some?;
      assert all == if seats[n].Some? then rest + {n} else rest;
    }
  }

  /** The snapshot lists exactly the taken seats that can post the big blind. */
  lemma PlayingExactly(c: Config, seats: seq<Option<Seat>>, i: nat)
    requires i < |seats|
    ensures (exists k :: 0 <= k < |Playing(c, seats, |seats|)| && Playing(c, seats, |seats|)[k].tableSeat == i) <==>
            seats[i].Some? && seats[i].value.stack >= c.bigBlind
  {
    if Eligible(c, seats[i]) { PlayingComplete(c, seats, |seats|, i); }
  }

  lemma {:induction false} CreditedSeat(seats: seq<Option<Seat>>, os: seq<SeatOutcome>, k: nat, i: nat)
    requires k <= |os| && i < |seats|
    requires forall a, b :: 0 <= a < b < |os| ==> os[a].seat != os[b].seat
    ensures (forall j :: 0 <= j < k ==> os[j].seat != i) ==> Credit(seats, os, k)[i] == seats[i]
    ensures forall j :: 0 <= j < k && os[j].seat == i && seats[i].Some? ==>
              Credit(seats, os, k)[i] == Some(seats[i].value.(stack := Max(0, seats[i].value.stack + os[j].chipDelta)))
  {
    if k > 0 { CreditedSeat(seats, os, k - 1, i); }
  }

  /** What a result makes of seat `i`, when no seat is named twice: its chips change by the result
      for it, stopping at zero, and it empties if its player is leaving or has no chips left. */
  lemma ResultLands(t: Inner, os: seq<SeatOutcome>, i: nat, delta: int)
    requires i < |t.seats| && t.seats[i].Some?
    requires forall a, b :: 0 <= a < b < |os| ==> os[a].seat != os[b].seat
    requires (exists k :: 0 <= k < |os| && os[k].seat == i && os[k].chipDelta == delta) ||
             (delta == 0 && forall k :: 0 <= k < |os| ==> os[k].seat != i)
    ensures var s := AfterResult(t, os); var left := Max(0, t.seats[i].value.stack + delta);
            && s.seats[i] == (if t.seats[i].value.leavePending || left == 0 then None
                              else Some(t.seats[i].value.(stack := left)))
            && !s.inProgress && s.links == t.links && s.nextHandId == t.nextHandId
  {
    CreditedSeat(t.seats, os, |os|, i);
  }

  /** The button's new place: of the occupied seats the first one reached clockwise from one past
      the old place; the old place itself if no seat is occupied. */
  ghost predicate MovesOn(seats: seq<Option<Seat>>, button: nat, next: nat)
    requires button < |seats|
  {
    var n, start := |seats|, if button + 1 < |seats| then button + 1 else 0;
    if forall i :: 0 <= i < n ==> seats[i].None? then next == button
    else
      && next < n && seats[next].Some?
      && forall i :: 0 <= i < n && seats[i].Some? ==> Clockwise(n, start, next) <= Clockwise(n, start, i)
  }

  lemma NextButtonMovesOn(seats: seq<Option<Seat>>, button: nat)
    requires button < |seats|
    ensures MovesOn(seats, button, NextButton(seats, button))
  {
    hide Scan, StepsTo;
    var mask, n := Occupied(seats), |seats|;
    ScanFinds(mask, button);
    forall i | 0 <= i < n && seats[i].Some?
      ensures NextButton(seats, button) < n && StepsTo(n, button, NextButton(seats, button)) <= StepsTo(n, button, i)
      ensures StepsTo(n, button, i) ==
              Clockwise(n, if button + 1 < n then button + 1 else 0, i) + 1
    {
      ScanIsFirst(mask, button, i);
      StepsWithin(n, button, i);
    }
  }

  /** After a result the button has moved on, over the seats that are left; it stays where it was
      only when nobody is left, or nobody anywhere else. */
  lemma ButtonMovesOn(t: Inner, os: seq<SeatOutcome>)
    requires t.button < |t.seats|
    ensures var s := AfterResult(t, os);
            && MovesOn(s.seats, t.button, s.button)
            && (s.button == t.button ==> forall i :: 0 <= i < |s.seats| && s.seats[i].Some? ==> i == t.button)
  {
    var s := AfterResult(t, os);
    NextButtonMovesOn(s.seats, t.button);
  }

  // ---------------------------------------------------------------------------
  // The table as an object
  // ---------------------------------------------------------------------------

  method FindFirst(mask: seq<bool>) returns (r: nat)
    ensures r == First(mask, 0)
  {
    r := 0;
    while r < |mask| && !mask[r]
      invariant r <= |mask| && forall j :: 0 <= j < r ==> !mask[j]
      invariant First(mask, 0) == First(mask, r)
    {
      r := r + 1;
    }
  }

  class Table {
    const config: Config
    var seats: seq<Option<Seat>>
    var links: seq<Conn>
    var button: nat
    var nextHandId: nat
    var handInProgress: bool

    ghost function View(): Inner
      reads this
    {
      Inner(seats, links, button, nextHandId, handInProgress)
    }

    constructor (c: Config, maxSeats: nat)
      ensures config == c && View() == Inner(seq(maxSeats, i => None), [], 0, 1, false)
    {
      config, seats, links := c, seq(maxSeats, i => None), [];
      button, nextHandId, handInProgress := 0, 1, false;
    }

    method Sit(player: nat, session: int, buyIn: nat) returns (r: SitAnswer)
      modifies this
      ensures r == SitResult(config, old(View()), player, buyIn)
      ensures View() == AfterSit(config, old(View()), player, session, buyIn)
    {
      if buyIn < LeastBuyIn(config) { return BuyInTooSmall; }
      var taken := FindFirst(HeldBy(seats, player));
      if taken < |seats| { return AlreadySeated; }
      var i := FindFirst(Vacant(seats));
      if i == |seats| { return Full; }
      seats := seats[i := Some(Seat(player, buyIn, |links|, false))];
      links := links + [Conn(player, session)];
      return Sat(i);
    }

    method Leave(player: nat) returns (found: bool)
      modifies this`seats
      ensures found <==> exists i ::
                0 <= i < |old(seats)| && old(seats)[i].Some? && old(seats)[i].value.player == player
      ensures View() == AfterLeave(old(View()), player)
    {
      var i := FindFirst(HeldBy(seats, player));
      if i == |seats| { return false; }
      if handInProgress {
        seats := seats[i := Some(seats[i].value.(leavePending := true))];
      } else {
        seats := seats[i := None];
      }
      return true;
    }

    method ForceLeave(player: nat, session: Option<int>)
      modifies this`seats
      ensures View() == AfterForceLeave(old(View()), player, session)
    {
      for i := 0 to |seats|
        invariant seats == old(seats) && i <= SeatOf(seats, player)
      {
        if seats[i].Some? && seats[i].value.player == player {
          var link := seats[i].value.link;
          if session.Some? && !(link < |links| && links[link].session == session.value) { return; }
          if handInProgress {
            seats := seats[i := Some(seats[i].value.(leavePending := true))];
          } else {
            seats := seats[i := None];
          }
          return;
        }
      }
    }

    /** One pass of `wait_for_quorum`. */
    method ClaimHand() returns (ready: bool)
      modifies this`handInProgress
      ensures ready <==> HasQuorum(config, old(View()))
      ensures View() == old(View()).(inProgress := old(handInProgress) || ready)
    {
      var seated := 0;
      for i := 0 to |seats|
        invariant seated == Sum(seats[..i], SeatTaken)
      {
        assert seats[..i + 1][..i] == seats[..i];
        if seats[i].Some? { seated := seated + 1; }
      }
      assert seats[..|seats|] == seats;
      ready := !handInProgress && seated >= config.minSeats;
      if ready { handInProgress := true; }
    }

    method TakeRunningSnapshot() returns (snap: Snapshot)
      modifies this`nextHandId
      ensures snap == SnapshotOf(config, old(View()))
      ensures View() == old(View()).(nextHandId := old(nextHandId) + 1)
    {
      var handId := nextHandId;
      nextHandId := nextHandId + 1;
      var players := [];
      for i := 0 to |seats|
        invariant players == Playing(config, seats, i)
      {
        if seats[i].None? || seats[i].value.stack < config.bigBlind { continue; }
        players := players + [SnapshotPlayer(i, seats[i].value.stack, seats[i].value.link)];
      }
      var k := FindFirst(AtOrAfter(players, button));
      return Snapshot(handId, players, if k < |players| then k else 0);
    }

    method ApplyHandResult(os: seq<SeatOutcome>)
      modifies this
      ensures View() == AfterResult(old(View()), os)
      ensures old(button) < |old(seats)| ==> MovesOn(seats, old(button), button)
    {
      for k := 0 to |os|
        invariant View() == old(View()).(seats := Credit(old(seats), os, k))
      {
        var o := os[k];
        if o.seat < |seats| && seats[o.seat].Some? {
          seats := seats[o.seat := Some(seats[o.seat].value.(stack := Max(0,
            seats[o.seat].value.stack + o.chipDelta)))];
        }
      }
      ghost var credited := seats;
      for i := 0 to |seats|
        invariant View() == old(View()).(seats := seats) && |seats| == |credited|
        invariant forall j :: 0 <= j < i ==> seats[j] == if Goes(credited[j]) then None else credited[j]
        invariant forall j :: i <= j < |seats| ==> seats[j] == credited[j]
      {
        if seats[i].Some? && (seats[i].value.leavePending || seats[i].value.stack == 0) {
          seats := seats[i := None];
        }
      }
      assert seats == Cleared(credited);
      if button < |seats| { NextButtonMovesOn(seats, button); }
      var next := FindSeat(Occupied(seats), button);
      if next.Some? { button := next.value; }
      handInProgress := false;
    }
  }
}
