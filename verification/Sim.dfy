/** The simulator: how hands and seeds are dealt out to threads, and what a run of hands does
    to stacks and totals. */
module Sims {
  import opened Types
  import opened Sums
  import opened Seats
  import opened PotCalc
  import opened Showdown
  import opened Tree
  import opened EngineRun
  import opened Ledger
  import opened Order
  import opened Story
  import opened Invariants
  import opened Theorems
  import opened Rulebook
  import opened Forced
  import opened TableRuns

  // ---------------------------------------------------------------------------
  // Seeds
  // ---------------------------------------------------------------------------

  /** Hands given to thread `t`. */
  function HandsOf(total: nat, threads: nat, t: nat): nat
    requires threads > 0
  {
    total / threads + if t < total % threads then 1 else 0
  }

  /** Hands given to the threads before `t`: the offset of its first seed. */
  function Before(total: nat, threads: nat, t: nat): nat
    requires threads > 0
  {
    if t == 0 then 0 else Before(total, threads, t - 1) + HandsOf(total, threads, t - 1)
  }

  lemma {:induction false} BeforeClosed(total: nat, threads: nat, t: nat)
    requires threads > 0
    ensures Before(total, threads, t) == t * (total / threads) + Min(t, total % threads)
  {
    if t > 0 {
      BeforeClosed(total, threads, t - 1);
      var b := total / threads;
      assert t * b == (t - 1) * b + b;
    }
  }

  /** The threads' hands add up. */
  lemma HandsAddUp(total: nat, threads: nat)
    requires threads > 0
    ensures Before(total, threads, threads) == total
  {
    BeforeClosed(total, threads, threads);
    var b := total / threads;
    assert total == threads * b + total % threads;
  }

  lemma {:induction false} BeforeGrows(total: nat, threads: nat, a: nat, b: nat)
    requires threads > 0 && a <= b
    ensures Before(total, threads, a) <= Before(total, threads, b)
  {
    if a < b { BeforeGrows(total, threads, a, b - 1); }
  }

  lemma {:induction false} OwnerOf(total: nat, threads: nat, t: nat, k: nat) returns (owner: nat)
    requires threads > 0 && k < Before(total, threads, t)
    ensures owner < t && Before(total, threads, owner) <= k < Before(total, threads, owner + 1)
  {
    if Before(total, threads, t - 1) <= k { owner := t - 1; } else { owner := OwnerOf(total, threads, t - 1, k); }
  }

  /** Seed `k` is hand `i` of thread `t`. */
  ghost predicate Runs(total: nat, threads: nat, t: nat, i: nat, k: nat)
    requires threads > 0
  {
    t < threads && i < HandsOf(total, threads, t) && Before(total, threads, t) + i == k
  }

  /** Between them the threads run each of the offsets 0..total once and nothing else. */
  lemma SeedsPartition(total: nat, threads: nat, k: nat) returns (t: nat, i: nat)
    requires threads > 0
    ensures k < total ==> Runs(total, threads, t, i, k)
    ensures forall t': nat, i': nat :: Runs(total, threads, t', i', k) ==> k < total && t' == t && i' == i
  {
    HandsAddUp(total, threads);
    t, i := 0, 0;
    if k < total {
      t := OwnerOf(total, threads, threads, k);
      i := k - Before(total, threads, t);
    }
    forall t': nat, i': nat | Runs(total, threads, t', i', k) ensures k < total && t' == t && i' == i {
      BeforeGrows(total, threads, t' + 1, threads);
      if t' < t { BeforeGrows(total, threads, t' + 1, t); }
      if t < t' { BeforeGrows(total, threads, t + 1, t'); }
    }
  }

  /** `thread_config`: the first seed of a thread. */
  method FirstSeed(base: nat, total: nat, threads: nat, t: nat) returns (seed: nat)
    requires threads > 0
    ensures seed == base + Before(total, threads, t)
  {
    var baseHands, remainder := total / threads, total % threads;
    var offset := 0;
    for i := 0 to t
      invariant offset == Before(total, threads, i)
    {
      offset := offset + baseHands + if i < remainder then 1 else 0;
    }
    return base + offset;
  }

  // ---------------------------------------------------------------------------
  // Runs of hands
  // ---------------------------------------------------------------------------

  datatype Config = Config(base: nat, persistent: bool)

  /** A runner between hands, with the totals of the current run. */
  datatype Sim = Sim(stacks: seq<nat>, start: seq<nat>, dealer: nat, nextHandId: nat, deltas: seq<int>)

  function HandSetup(s: Sim, c: Config, deck: nat -> seq<Card>, k: nat): Setup {
    Setup(s.nextHandId, c.base + k, deck(c.base + k), if c.persistent then s.stacks else s.start, s.dealer, None)
  }

  function AddDeltas(deltas: seq<int>, os: seq<SeatOutcome>, k: nat): (r: seq<int>)
    requires k <= |os| && forall j :: 0 <= j < |os| ==> os[j].seat < |deltas|
    ensures |r| == |deltas|
  {
    if k == 0 then deltas
    else
      var r := AddDeltas(deltas, os, k - 1);
      r[os[k - 1].seat := r[os[k - 1].seat] + os[k - 1].chipDelta]
  }

  function AddChips(stacks: seq<nat>, os: seq<SeatOutcome>, k: nat): (r: seq<nat>)
    requires k <= |os| && forall j :: 0 <= j < |os| ==> os[j].seat < |stacks|
    ensures |r| == |stacks|
  {
    if k == 0 then stacks
    else
      var r := AddChips(stacks, os, k - 1);
      r[os[k - 1].seat := Max(0, r[os[k - 1].seat] + os[k - 1].chipDelta)]
  }

  /** Seats in order, each once, none losing more than it has. */
  ghost predicate Fits(os: seq<SeatOutcome>, stacks: seq<nat>) {
    && (forall k :: 0 <= k < |os| ==> os[k].seat < |stacks| && stacks[os[k].seat] + os[k].chipDelta >= 0)
    && (forall j, k :: 0 <= j < k < |os| ==> os[j].seat < os[k].seat)
  }

  function AfterHand(s: Sim, c: Config, os: seq<SeatOutcome>): (r: Sim)
    requires |s.deltas| == |s.stacks| && forall j :: 0 <= j < |os| ==> os[j].seat < |s.stacks|
    ensures |r.stacks| == |r.deltas| == |s.stacks|
  {
    var stacks := if c.persistent then AddChips(s.stacks, os, |os|) else s.stacks;
    Sim(stacks, s.start, NextFunded(stacks, s.dealer), s.nextHandId + 1, AddDeltas(s.deltas, os, |os|))
  }

  lemma HandFits(e: Engine, u: Setup, script: seq<Action>)
    requires Playable(u) && Played(e, u, script).phase.Terminal?
    ensures Fits(HandSeats(e, u, script), u.stacks)
  {
    hide New, Drive, Good, Outcomes;
    var t := Played(e, u, script);
    PlayedGood(e, u, script);
    OutcomeLengths(e, u, script);
    var os := HandSeats(e, u, script);
    OutcomesOrdered(t.hand.g.players, t.hand.g.satOut, t.phase.deltas);
    forall k | 0 <= k < |os| ensures os[k].seat < |u.stacks| && u.stacks[os[k].seat] + os[k].chipDelta >= 0 {
      GoodCommitted(e, u, t, os[k].seat);
    }
  }

  /** Both ledgers move together; the clamp at zero never acts. */
  lemma {:induction false} StacksFollowDeltas(stacks: seq<nat>, deltas: seq<int>, os: seq<SeatOutcome>, k: nat, i: nat)
    requires Fits(os, stacks) && |deltas| == |stacks| && k <= |os| && i < |stacks|
    ensures AddChips(stacks, os, k)[i] + deltas[i] == stacks[i] + AddDeltas(deltas, os, k)[i]
    ensures (forall j :: 0 <= j < k ==> os[j].seat != i) ==> AddChips(stacks, os, k)[i] == stacks[i]
  {
    if k > 0 {
      StacksFollowDeltas(stacks, deltas, os, k - 1, i);
      if i == os[k - 1].seat {
        forall j | 0 <= j < k - 1 ensures os[j].seat != i { assert os[j].seat < os[k - 1].seat; }
      }
    }
  }

  /** A hand that somebody can play and that its agents play to the end. */
  ghost predicate Completes(e: Engine, s: Sim, c: Config, deck: nat -> seq<Card>, script: seq<Action>, k: nat) {
    |s.stacks| == |s.start| == |s.deltas| &&
    var u := HandSetup(s, c, deck, k); Playable(u) && Played(e, u, script).phase.Terminal?
  }

  /** One hand; nothing happens at a hand that does not complete. */
  ghost function PlayHand(e: Engine, s: Sim, c: Config, deck: nat -> seq<Card>, script: seq<Action>, k: nat): Sim {
    if !Completes(e, s, c, deck, script, k) then s
    else
      var u := HandSetup(s, c, deck, k);
      HandFits(e, u, script);
      AfterHand(s, c, HandSeats(e, u, script))
  }

  /** The state after the first `k` hands. */
  ghost function After(e: Engine, s: Sim, c: Config, deck: nat -> seq<Card>, scripts: seq<seq<Action>>, k: nat): Sim
    requires k <= |scripts|
  {
    if k == 0 then s else PlayHand(e, After(e, s, c, deck, scripts, k - 1), c, deck, scripts[k - 1], k - 1)
  }

  lemma {:induction false} DeltaLands(deltas: seq<int>, os: seq<SeatOutcome>, stacks: seq<nat>, k: nat, i: nat)
    requires Fits(os, stacks) && |deltas| == |stacks| && k <= |os| && i < |stacks|
    ensures (forall j :: 0 <= j < k ==> os[j].seat != i) ==> AddDeltas(deltas, os, k)[i] == deltas[i]
    ensures forall j :: 0 <= j < k && os[j].seat == i ==> AddDeltas(deltas, os, k)[i] == deltas[i] + os[j].chipDelta
  {
    if k > 0 {
      DeltaLands(deltas, os, stacks, k - 1, i);
      forall j | 0 <= j < k - 1 ensures os[j].seat != os[k - 1].seat { assert os[j].seat < os[k - 1].seat; }
    }
  }

  /** A hand adds to each seat's total what its stack gained or lost in the engine, and is dealt with
      its own seed, deck and number. */
  lemma HandLands(e: Engine, s: Sim, c: Config, deck: nat -> seq<Card>, script: seq<Action>, k: nat, i: nat)
    requires Completes(e, s, c, deck, script, k) && i < |s.stacks|
    ensures var u := HandSetup(s, c, deck, k); var t := Played(e, u, script);
            && u.seed == c.base + k && u.cards == deck(c.base + k) && u.handId == s.nextHandId && u.dealer == s.dealer
            && u.stacks == (if c.persistent then s.stacks else s.start)
            && |PlayHand(e, s, c, deck, script, k).deltas| == |t.hand.g.players| == |u.stacks| == |s.deltas|
            && PlayHand(e, s, c, deck, script, k).deltas[i] ==
               s.deltas[i] + t.hand.g.players[i].stack - u.stacks[i]
  {
    hide Playable, Played, HandSeats, AddDeltas, AddChips, ReportedOnce, NextFunded;
    var u := HandSetup(s, c, deck, k);
    HandFits(e, u, script);
    var os := HandSeats(e, u, script);
    DeltaLands(s.deltas, os, u.stacks, |os|, i);
    HandReports(e, u, script, i);
  }

  /** What the result says of a seat is what happened to its stack. */
  lemma HandReports(e: Engine, u: Setup, script: seq<Action>, i: nat)
    requires Playable(u) && Played(e, u, script).phase.Terminal? && i < |u.stacks|
    ensures var os, ps := HandSeats(e, u, script), Played(e, u, script).hand.g.players;
            && |ps| == |u.stacks|
            && ((exists j :: 0 <= j < |os| && os[j].seat == i && os[j].chipDelta == ps[i].stack as int - u.stacks[i]) ||
                (ps[i].stack == u.stacks[i] && forall j :: 0 <= j < |os| ==> os[j].seat != i))
  {
    hide New, Drive, Outcomes, Good;
    ResultReports(e, u, script, i);
    var t := Played(e, u, script);
    PlayedGood(e, u, script);
    GoodPaysWithin(e, u, t);
    OutSeats(e, u, t);
    GoodOut(e, u, t, i);
    if u.stacks[i] > 0 {
      var o := SeatOutcome(i, t.hand.g.players[i].hole, t.hand.g.players[i].stack as int - u.stacks[i],
                           IsDead(u.kinds, i));
      var os := HandSeats(e, u, script);
      var j :| 0 <= j < |os| && os[j] == o;
    }
  }

  /** Hand `i` of thread `t` is dealt with the seed at its place in the whole run. */
  lemma SeedOfHand(base: nat, total: nat, threads: nat, t: nat, i: nat, k: nat, s: Sim, persistent: bool,
      deck: nat -> seq<Card>)
    requires threads > 0 && Runs(total, threads, t, i, k)
    ensures var u := HandSetup(s, Config(base + Before(total, threads, t), persistent), deck, i);
            u.seed == base + k && u.cards == deck(base + k)
  {
  }

  /** The next hand's dealer is the first seat clockwise of this one's that has chips after the
      hand, and stays if no seat has; hands are numbered one after the other. */
  lemma DealerMovesOn(s: Sim, c: Config, os: seq<SeatOutcome>, i: nat)
    requires |s.deltas| == |s.stacks| && (forall j :: 0 <= j < |os| ==> os[j].seat < |s.stacks|) && i < |s.stacks|
    ensures var r, n := AfterHand(s, c, os), |s.stacks|;
            && r.nextHandId == s.nextHandId + 1
            && (r.stacks[i] > 0 ==>
                  && r.dealer < n && r.stacks[r.dealer] > 0
                  && StepsTo(n, s.dealer, r.dealer) <= StepsTo(n, s.dealer, i))
            && ((forall j :: 0 <= j < n ==> r.stacks[j] == 0) ==> r.dealer == s.dealer)
  {
    hide StepsTo, Scan, AddChips, AddDeltas;
    var r := AfterHand(s, c, os);
    ScanFinds(Funded(r.stacks), s.dealer);
    if r.stacks[i] > 0 { NextFundedIsFirst(r.stacks, s.dealer, i); }
  }

  lemma AppliedCarries(s: Sim, c: Config, os: seq<SeatOutcome>, i: nat)
    requires |s.deltas| == |s.stacks| == |s.start| && Fits(os, if c.persistent then s.stacks else s.start) &&
             i < |s.stacks|
    ensures var r := AfterHand(s, c, os);
            && |r.stacks| == |r.deltas| == |s.stacks| && r.start == s.start
            && (c.persistent ==> r.stacks[i] + s.deltas[i] == s.stacks[i] + r.deltas[i])
            && (!c.persistent ==> r.stacks == s.stacks)
  {
    hide NextFunded;
    if c.persistent { StacksFollowDeltas(s.stacks, s.deltas, os, |os|, i); }
  }

  lemma HandCarries(e: Engine, s: Sim, c: Config, deck: nat -> seq<Card>, script: seq<Action>, k: nat, i: nat)
    requires |s.stacks| == |s.start| == |s.deltas| && i < |s.stacks|
    ensures var r := PlayHand(e, s, c, deck, script, k);
            && |r.stacks| == |r.deltas| == |s.stacks| && r.start == s.start
            && (c.persistent ==> r.stacks[i] + s.deltas[i] == s.stacks[i] + r.deltas[i])
            && (!c.persistent ==> r.stacks == s.stacks)
  {
    hide Playable, Played, HandSeats, AfterHand;
    if Completes(e, s, c, deck, script, k) {
      var u := HandSetup(s, c, deck, k);
      HandFits(e, u, script);
      AppliedCarries(s, c, HandSeats(e, u, script), i);
    }
  }

  /** In a persistent run every stack is its starting stack plus what the seat has won so far;
      otherwise stacks never change. */
  lemma {:induction false} StacksCarry(e: Engine, s: Sim, c: Config, deck: nat -> seq<Card>,
      scripts: seq<seq<Action>>, k: nat, i: nat)
    requires k <= |scripts| && |s.stacks| == |s.start| == |s.deltas| && i < |s.stacks|
    ensures var r := After(e, s, c, deck, scripts, k);
            && |r.stacks| == |r.deltas| == |s.stacks| && r.start == s.start
            && (c.persistent ==> r.stacks[i] + s.deltas[i] == s.stacks[i] + r.deltas[i])
            && (!c.persistent ==> r.stacks == s.stacks)
  {
    hide Completes, PlayHand, HandSetup, TwoHaveChips;
    if k > 0 {
      StacksCarry(e, s, c, deck, scripts, k - 1, i);
      var r := After(e, s, c, deck, scripts, k - 1);
      HandCarries(e, r, c, deck, scripts[k - 1], k - 1, i);
    }
  }

  function SumInt(v: seq<int>): int { if v == [] then 0 else SumInt(v[..|v| - 1]) + v[|v| - 1] }

  lemma {:induction false} SumIntUpdate(v: seq<int>, i: nat, x: int)
    requires i < |v|
    ensures SumInt(v[i := x]) == SumInt(v) - v[i] + x
  {
    var n := |v| - 1;
    if i == n {
      assert v[i := x][..n] == v[..n];
    } else {
      assert v[i := x][..n] == v[..n][i := x];
      SumIntUpdate(v[..n], i, x);
    }
  }

  lemma {:induction false} DeltasSum(deltas: seq<int>, os: seq<SeatOutcome>, k: nat)
    requires k <= |os| && forall j :: 0 <= j < |os| ==> os[j].seat < |deltas|
    ensures SumInt(AddDeltas(deltas, os, k)) == SumInt(deltas) + SumDelta(os[..k])
  {
    if k > 0 {
      DeltasSum(deltas, os, k - 1);
      var r := AddDeltas(deltas, os, k - 1);
      SumIntUpdate(r, os[k - 1].seat, r[os[k - 1].seat] + os[k - 1].chipDelta);
      assert os[..k][..k - 1] == os[..k - 1];
    }
  }

  ghost predicate TwoHaveChips(stacks: seq<nat>) {
    exists i, j :: 0 <= i < j < |stacks| && stacks[i] > 0 && stacks[j] > 0
  }

  lemma ResultsNet(e: Engine, u: Setup, script: seq<Action>)
    requires Playable(u) && Played(e, u, script).phase.Terminal? && e.rules.bigBlind > 0 && u.kinds.None? &&
             TwoHaveChips(u.stacks)
    ensures SumDelta(HandSeats(e, u, script)) == 0
  {
    hide New, Drive, Outcomes;
    var i, j :| 0 <= i < j < |u.stacks| && u.stacks[i] > 0 && u.stacks[j] > 0;
    assert LiveSeat(u, i) && LiveSeat(u, j);
    ResultsSumToZero(e, u, script);
  }

  lemma HandNets(e: Engine, s: Sim, c: Config, deck: nat -> seq<Card>, script: seq<Action>, k: nat)
    requires e.rules.bigBlind > 0 && TwoHaveChips(HandSetup(s, c, deck, k).stacks)
    ensures SumInt(PlayHand(e, s, c, deck, script, k).deltas) == SumInt(s.deltas)
  {
    hide Playable, Played, HandSeats;
    if Completes(e, s, c, deck, script, k) {
      var u := HandSetup(s, c, deck, k);
      HandFits(e, u, script);
      ResultsNet(e, u, script);
      var os := HandSeats(e, u, script);
      DeltasSum(s.deltas, os, |os|);
      assert os[..|os|] == os;
    }
  }

  /** As long as every hand starts with two funded seats, what the seats win sums to zero. */
  lemma {:induction false} RunNets(e: Engine, s: Sim, c: Config, deck: nat -> seq<Card>, scripts: seq<seq<Action>>,
      k: nat)
    requires k <= |scripts| && e.rules.bigBlind > 0
    requires forall j :: 0 <= j < k ==> TwoHaveChips(HandSetup(After(e, s, c, deck, scripts, j), c, deck, j).stacks)
    ensures SumInt(After(e, s, c, deck, scripts, k).deltas) == SumInt(s.deltas)
  {
    hide Completes, PlayHand, HandSetup, TwoHaveChips;
    if k > 0 {
      RunNets(e, s, c, deck, scripts, k - 1);
      var r := After(e, s, c, deck, scripts, k - 1);
      HandNets(e, r, c, deck, scripts[k - 1], k - 1);
    }
  }

  // ---------------------------------------------------------------------------
  // Merging
  // ---------------------------------------------------------------------------

  datatype SimResult = SimResult(hands: nat, deltas: seq<int>, stacks: seq<nat>)

  function TotalHands(rs: seq<SimResult>): nat {
    if rs == [] then 0 else TotalHands(rs[..|rs| - 1]) + rs[|rs| - 1].hands
  }

  function TotalDelta(rs: seq<SimResult>, i: nat): int
    requires forall r :: r in rs ==> i < |r.deltas|
  {
    if rs == [] then 0 else TotalDelta(rs[..|rs| - 1], i) + rs[|rs| - 1].deltas[i]
  }

  /** `SimResult::merge`. */
  method Merge(rs: seq<SimResult>) returns (m: SimResult)
    requires rs != [] && forall r :: r in rs ==> |r.deltas| == |rs[0].deltas|
    ensures m.hands == TotalHands(rs) && m.stacks == rs[|rs| - 1].stacks && |m.deltas| == |rs[0].deltas|
    ensures forall i :: 0 <= i < |m.deltas| ==> m.deltas[i] == TotalDelta(rs, i)
  {
    var n := |rs[0].deltas|;
    var deltas, hands := seq(n, i => 0), 0;
    for k := 0 to |rs|
      invariant hands == TotalHands(rs[..k]) && |deltas| == n
      invariant forall i :: 0 <= i < n ==> deltas[i] == TotalDelta(rs[..k], i)
    {
      assert rs[..k + 1][..k] == rs[..k];
      assert rs[k] in rs;
      hands := hands + rs[k].hands;
      ghost var before := deltas;
      for i := 0 to n
        invariant |deltas| == n
        invariant forall j :: 0 <= j < i ==> deltas[j] == before[j] + rs[k].deltas[j]
        invariant forall j :: i <= j < n ==> deltas[j] == before[j]
      {
        deltas := deltas[i := deltas[i] + rs[k].deltas[i]];
      }
    }
    assert rs[..|rs|] == rs;
    return SimResult(hands, deltas, rs[|rs| - 1].stacks);
  }

  // ---------------------------------------------------------------------------
  // The runner
  // ---------------------------------------------------------------------------

  method AddToDeltas(deltas: seq<int>, os: seq<SeatOutcome>) returns (r: seq<int>)
    requires forall j :: 0 <= j < |os| ==> os[j].seat < |deltas|
    ensures r == AddDeltas(deltas, os, |os|)
  {
    r := deltas;
    for k := 0 to |os|
      invariant r == AddDeltas(deltas, os, k)
    {
      r := r[os[k].seat := r[os[k].seat] + os[k].chipDelta];
    }
  }

  method AddToStacks(stacks: seq<nat>, os: seq<SeatOutcome>) returns (r: seq<nat>)
    requires forall j :: 0 <= j < |os| ==> os[j].seat < |stacks|
    ensures r == AddChips(stacks, os, |os|)
  {
    r := stacks;
    for k := 0 to |os|
      invariant r == AddChips(stacks, os, k)
    {
      r := r[os[k].seat := Max(0, r[os[k].seat] + os[k].chipDelta)];
    }
  }

  class SimRunner {
    const engine: Engine
    const start: seq<nat>
    var stacks: seq<nat>
    var dealer: nat
    var nextHandId: nat

    ghost function View(deltas: seq<int>): Sim
      reads this
    {
      Sim(stacks, start, dealer, nextHandId, deltas)
    }

    constructor (e: Engine, s: seq<nat>)
      ensures engine == e && start == s && View([]) == Sim(s, s, 0, 1, [])
    {
      engine, start, stacks, dealer, nextHandId := e, s, s, 0, 1;
    }

    method OneHand(c: Config, deck: nat -> seq<Card>, script: seq<Action>, k: nat,
        deltas: seq<int>) returns (r: seq<int>)
      requires Completes(engine, View(deltas), c, deck, script, k)
      modifies this
      ensures View(r) == PlayHand(engine, old(View(deltas)), c, deck, script, k)
    {
      hide Playable, Played, HandSeats, Drive, New, BuildResult;
      var handStacks := if c.persistent then stacks else start;
      var u := Setup(nextHandId, c.base + k, deck(c.base + k), handStacks, dealer, None);
      HandFits(engine, u, script);
      var out, result, log := RunHand(engine, u, script);
      FinishedResult(engine, u, script);
      var os := result.value.seats;
      nextHandId := nextHandId + 1;
      r := AddToDeltas(deltas, os);
      if c.persistent { stacks := AddToStacks(stacks, os); }
      var next := FindSeat(Funded(stacks), dealer);
      if next.Some? { dealer := next.value; }
    }

    /** Hands one after the other, each to its end. */
    method Run(c: Config, deck: nat -> seq<Card>, scripts: seq<seq<Action>>) returns (r: SimResult)
      requires |stacks| == |start|
      requires forall k :: 0 <= k < |scripts| ==>
                 Completes(engine, After(engine, View(Zeros(|stacks|)), c, deck, scripts, k), c, deck, scripts[k], k)
      modifies this
      ensures View(r.deltas) == After(engine, old(View(Zeros(|stacks|))), c, deck, scripts, |scripts|)
      ensures r.hands == |scripts| && r.stacks == stacks
    {
      hide Completes, PlayHand;
      var deltas := Zeros(|stacks|);
      for k := 0 to |scripts|
        invariant View(deltas) == After(engine, old(View(Zeros(|stacks|))), c, deck, scripts, k)
      {
        deltas := OneHand(c, deck, scripts[k], k, deltas);
      }
      return SimResult(|scripts|, deltas, stacks);
    }
  }

  /** What the engine returns for a hand that ended. */
  lemma FinishedResult(e: Engine, u: Setup, script: seq<Action>)
    requires Playable(u) && Played(e, u, script).phase.Terminal?
    ensures var out := OutcomeOf(Drive(e, New(e, u), script, []));
            && out.Done? && |out.players| == |out.satOut| == |out.deltas|
            && BuildResult(u.handId, out).seats == HandSeats(e, u, script)
  {
    hide New, Drive;
    OutcomeLengths(e, u, script);
  }

  function Zeros(n: nat): (v: seq<int>)
    ensures |v| == n && forall i :: 0 <= i < n ==> v[i] == 0
  {
    seq(n, i => 0)
  }
}
