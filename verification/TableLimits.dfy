/** Where the table's promises stop: a big blind of zero. */
module TableLimits {
  import opened Types
  import opened Sums
  import opened Seats
  import opened Tree
  import opened EngineRun
  import opened Invariants
  import opened Theorems
  import opened Limits
  import opened Tables
  import opened TableRuns

  /** Every stored row names the player who was dealt that seat. */
  ghost predicate RecordsTrue(s: State) {
    forall i :: 0 <= i < |s.records| ==>
      s.records[i].handId in s.books.dealt && RowsFit(s.records[i].rows, s.books.dealt[s.records[i].handId])
  }

  ghost predicate AlwaysTrue(c: Config, e: Engine, maxSeats: nat) {
    forall moves :: RecordsTrue(TableRuns.Run(c, e, Fresh(maxSeats), moves))
  }

  // ---------------------------------------------------------------------------
  // A player without chips is dealt in
  // ---------------------------------------------------------------------------

  lemma {:induction false} OutcomesSkipOut(ps: seq<Player>, satOut: seq<bool>, deltas: seq<nat>, i: nat)
    requires |ps| == |satOut| == |deltas| && i < |ps| && !ps[i].status.Out?
    ensures var r := Outcomes(ps, satOut, deltas);
            |r| > 0 && r[0].seat < |ps| && !ps[r[0].seat].status.Out?
  {
    var n := |ps| - 1;
    if i < n { OutcomesSkipOut(ps[..n], satOut[..n], deltas[..n], i); }
    else if exists j :: 0 <= j < n && !ps[j].status.Out? {
      var j :| 0 <= j < n && !ps[j].status.Out?;
      OutcomesSkipOut(ps[..n], satOut[..n], deltas[..n], j);
    } else {
      NothingYet(ps[..n], satOut[..n], deltas[..n]);
    }
  }

  lemma {:induction false} NothingYet(ps: seq<Player>, satOut: seq<bool>, deltas: seq<nat>)
    requires |ps| == |satOut| == |deltas| && forall j :: 0 <= j < |ps| ==> ps[j].status.Out?
    ensures Outcomes(ps, satOut, deltas) == []
  {
    if ps != [] { NothingYet(ps[..|ps| - 1], satOut[..|ps| - 1], deltas[..|ps| - 1]); }
  }

  /** A seat without chips and one with five: a fold ends the hand, and only the second seat has
      a result. */
  lemma BrokeSeatHasNoResult(e: Engine, u: Setup)
    requires u.stacks == [0, 5] && u.kinds.None?
    ensures Playable(u) && Played(e, u, [Fold]).phase.Terminal?
    ensures |HandSeats(e, u, [Fold])| > 0 && HandSeats(e, u, [Fold])[0].seat == 1
  {
    hide New, Drive, Step, Good, Outcomes, TwoLive;
    assert u.stacks[1] > 0;
    NotTwoLive(u);
    var t := New(e, u);
    if t.phase.Decision? {
      LoneStepEnds(e, u, Fold);
      StepWellFormed(e, t, Fold);
      OneStep(e, t, Fold);
    } else {
      EndedAtOnce(e, t, [Fold]);
    }
    PlayedGood(e, u, [Fold]);
    OutcomeLengths(e, u, [Fold]);
    var g := Played(e, u, [Fold]).hand.g;
    GoodOut(e, u, Played(e, u, [Fold]), 0);
    GoodOut(e, u, Played(e, u, [Fold]), 1);
    OutcomesSkipOut(g.players, g.satOut, Played(e, u, [Fold]).phase.deltas, 1);
  }

  lemma NotTwoLive(u: Setup)
    requires u.stacks == [0, 5]
    ensures !TwoLive(u)
  {
  }

  // ---------------------------------------------------------------------------
  // The run
  // ---------------------------------------------------------------------------

  lemma RunOn(c: Config, e: Engine, s: State, moves: seq<Move>, m: Move)
    ensures TableRuns.Run(c, e, s, moves + [m]) == Next(c, e, TableRuns.Run(c, e, s, moves), m)
  {
    hide Next;
    assert (moves + [m])[..|moves|] == moves;
  }

  /** Two players seated: one bought in for nothing, one for five. */
  ghost predicate TwoSeated(t: Inner) {
    && |t.seats| >= 2 && t.seats[0] == Some(Seat(1, 0, 0, false)) && t.seats[1] == Some(Seat(2, 5, 1, false))
    && (forall i :: 2 <= i < |t.seats| ==> t.seats[i] == None)
    && t.links == [Conn(1, 0), Conn(2, 0)] && t.button == 0 && t.nextHandId == 1
  }

  lemma BothSit(c: Config, e: Engine, maxSeats: nat)
    requires c.bigBlind == 0 && maxSeats >= 2
    ensures var s := Next(c, e, Next(c, e, Fresh(maxSeats), Sit(1, 0, 0)), Sit(2, 0, 5));
            && TwoSeated(s.t) && !s.t.inProgress && s.actor == Idle && s.records == [] && s.books.dealt == map[]
  {
    var s := Next(c, e, Fresh(maxSeats), Sit(1, 0, 0));
    assert SitResult(c, Fresh(maxSeats).t, 1, 0) == Sat(0);
    assert s.t.seats[0] == Some(Seat(1, 0, 0, false)) && s.t.seats[1].None?;
    assert FreeSeat(s.t.seats) == 1 && SeatOf(s.t.seats, 2) == |s.t.seats|;
  }

  lemma {:induction false} BothPlay(c: Config, seats: seq<Option<Seat>>, n: nat)
    requires c.bigBlind == 0 && 2 <= n <= |seats| && seats[0] == Some(Seat(1, 0, 0, false)) &&
             seats[1] == Some(Seat(2, 5, 1, false))
    requires forall i :: 2 <= i < |seats| ==> seats[i] == None
    ensures Playing(c, seats, n) == [SnapshotPlayer(0, 0, 0), SnapshotPlayer(1, 5, 1)]
  {
    if n > 2 {
      BothPlay(c, seats, n - 1);
    } else {
      assert Playing(c, seats, 1) == [] + [SnapshotPlayer(0, 0, 0)];
    }
  }

  function TheSnapshot(): Snapshot { Snapshot(1, [SnapshotPlayer(0, 0, 0), SnapshotPlayer(1, 5, 1)], 0) }

  lemma BothDealtIn(c: Config, e: Engine, s: State)
    requires c.bigBlind == 0 && c.minSeats == 2 && TwoSeated(s.t) && !s.t.inProgress && s.actor == Idle
    ensures var r := Next(c, e, Next(c, e, Next(c, e, s, Claim), Take), Begin);
            && r.actor == Running(TheSnapshot(), [1, 2]) && r.records == s.records
            && 1 in r.books.dealt && r.books.dealt[1] == [Dealt(0, 1, 0), Dealt(1, 2, 5)]
  {
    SumAtLeastTwo(s.t.seats, SeatTaken, 0, 1);
    var s1 := Next(c, e, s, Claim);
    assert s1.actor == Claimed && s1.t.seats == s.t.seats;
    BothPlay(c, s.t.seats, |s.t.seats|);
    var s2 := Next(c, e, s1, Take);
    assert s2.actor == Taken(TheSnapshot());
    assert IdsOf(s2.t, TheSnapshot().players) == [1, 2];
  }

  lemma RowMisnamed(c: Config, e: Engine, s: State, cards: seq<Card>)
    requires s.actor == Running(TheSnapshot(), [1, 2]) && s.records == []
    requires 1 in s.books.dealt && s.books.dealt[1] == [Dealt(0, 1, 0), Dealt(1, 2, 5)]
    ensures var r := Next(c, e, Next(c, e, Next(c, e, s, Finish(0, cards, [Fold])), Apply), Persist(true));
            !RecordsTrue(r)
  {
    hide Playable, Played, HandSeats, AfterResult, Gone, Cleared, Credit;
    var u := SetupOf(TheSnapshot(), 0, cards);
    assert u.stacks == [0, 5];
    BrokeSeatHasNoResult(e, u);
    var os := Remap(HandSeats(e, u, [Fold]), TheSnapshot().players);
    assert os[0].seat == 1;
    var s1 := Next(c, e, s, Finish(0, cards, [Fold]));
    assert s1.actor == Finished(TheSnapshot(), [1, 2], os);
    var s2 := Next(c, e, s1, Apply);
    var rows := RowsOf([1, 2], os);
    assert s2.actor == Settled(1, rows) && s2.books.dealt == s.books.dealt && s2.records == [];
    var r := Next(c, e, s2, Persist(true));
    assert r.records == [Record(1, rows)];
    assert rows[0].seat == 1 && r.books.dealt == s.books.dealt;
    assert r.records[0].handId == 1 && !RowsFit(r.records[0].rows, r.books.dealt[1]);
  }

  /** With a big blind of zero a player without chips is dealt in, has no result, and shifts the
      names of everyone after it: the stored row of seat 1 names the player in seat 0. */
  lemma ZeroBlindMisnames(c: Config, e: Engine, maxSeats: nat)
    requires c.bigBlind == 0 && c.minSeats == 2 && maxSeats >= 2
    ensures !AlwaysTrue(c, e, maxSeats)
  {
    hide TableRuns.Run, Next, RecordsTrue;
    var s := Fresh(maxSeats);
    var all := [Sit(1, 0, 0), Sit(2, 0, 5), Claim, Take, Begin, Finish(0, [], [Fold]), Apply, Persist(true)];
    RunOfEight(c, e, s, all);
    BothSit(c, e, maxSeats);
    var s2 := Next(c, e, Next(c, e, s, all[0]), all[1]);
    BothDealtIn(c, e, s2);
    RowMisnamed(c, e, Next(c, e, Next(c, e, Next(c, e, s2, Claim), Take), Begin), []);
    assert !RecordsTrue(TableRuns.Run(c, e, s, all));
  }

  lemma RunOfEight(c: Config, e: Engine, s: State, m: seq<Move>)
    requires |m| == 8
    ensures var s2 := Next(c, e, Next(c, e, s, m[0]), m[1]);
            var s5 := Next(c, e, Next(c, e, Next(c, e, s2, m[2]), m[3]), m[4]);
            TableRuns.Run(c, e, s, m) == Next(c, e, Next(c, e, Next(c, e, s5, m[5]), m[6]), m[7])
  {
    hide Next;
    assert m[..0] == [];
    Prefix(c, e, s, m, 1);
    Prefix(c, e, s, m, 2);
    Prefix(c, e, s, m, 3);
    Prefix(c, e, s, m, 4);
    Prefix(c, e, s, m, 5);
    Prefix(c, e, s, m, 6);
    Prefix(c, e, s, m, 7);
    Prefix(c, e, s, m, 8);
    assert m[..8] == m;
  }

  lemma Prefix(c: Config, e: Engine, s: State, m: seq<Move>, k: nat)
    requires 0 < k <= |m|
    ensures TableRuns.Run(c, e, s, m[..k]) == Next(c, e, TableRuns.Run(c, e, s, m[..k - 1]), m[k - 1])
  {
    hide Next;
    assert m[..k - 1] + [m[k - 1]] == m[..k];
    RunOn(c, e, s, m[..k - 1], m[k - 1]);
  }

  /** The records of a table are always true exactly when its big blind is positive. */
  lemma RecordsTrueExactlyWhen(c: Config, e: Engine, maxSeats: nat)
    requires c.minSeats == 2 && maxSeats >= 2 && e.rules.bigBlind == c.bigBlind
    ensures AlwaysTrue(c, e, maxSeats) <==> c.bigBlind > 0
  {
    hide TableRuns.Run, Next, Fresh;
    if c.bigBlind > 0 {
      forall moves ensures RecordsTrue(TableRuns.Run(c, e, Fresh(maxSeats), moves)) { RunKeeps(c, e, maxSeats, moves); }
    } else {
      ZeroBlindMisnames(c, e, maxSeats);
    }
  }
}
