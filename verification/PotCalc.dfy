/** Street bets and the layered side pots of a showdown (game/pot_calc.rs). */
module PotCalc {
  import opened Types
  import opened Sums

  function BetOf(p: Player): nat { p.bet }
  function CommittedOf(p: Player): nat { p.committed }

  function SumBets(ps: seq<Player>): nat { Sum(ps, BetOf) }
  function SumCommitted(ps: seq<Player>): nat { Sum(ps, CommittedOf) }

  function ZeroBets(ps: seq<Player>): (r: seq<Player>)
    ensures |r| == |ps|
    ensures forall i :: 0 <= i < |ps| ==> r[i] == ps[i].(bet := 0)
  {
    seq(|ps|, i requires 0 <= i < |ps| => ps[i].(bet := 0))
  }

  /** Move every street bet into the pot and clear it, in place. */
  method CollectStreetBets(players: array<Player>, pot: nat) returns (main: nat)
    modifies players
    ensures main == pot + SumBets(old(players[..]))
    ensures players[..] == ZeroBets(old(players[..]))
  {
    main := pot;
    for i := 0 to players.Length
      invariant players[..] == old(players[..])
      invariant main == pot + SumBets(players[..i])
    {
      assert players[..i + 1][..i] == players[..i];
      main := main + players[i].bet;
    }
    assert players[..players.Length] == players[..];
    for i := 0 to players.Length
      invariant forall k :: 0 <= k < i ==> players[k] == old(players[k]).(bet := 0)
      invariant forall k :: i <= k < players.Length ==> players[k] == old(players[k])
    {
      players[i] := players[i].(bet := 0);
    }
  }

  // ---------------------------------------------------------------------------
  // Commitment levels
  // ---------------------------------------------------------------------------

  ghost predicate Ascending(levels: seq<nat>) {
    forall i, j :: 0 <= i < j < |levels| ==> levels[i] < levels[j]
  }

  function InsertLevel(levels: seq<nat>, x: nat): (r: seq<nat>)
    requires Ascending(levels)
    ensures Ascending(r)
    ensures forall y :: y in r <==> y == x || y in levels
  {
    if levels == [] then [x]
    else
      var n := |levels| - 1;
      if levels[n] < x then levels + [x]
      else if levels[n] == x then levels
      else
        var rest := InsertLevel(levels[..n], x);
        assert forall y :: y in levels <==> y in levels[..n] || y == levels[n];
        assert forall i :: 0 <= i < |rest| ==> rest[i] in rest;
        rest + [levels[n]]
  }

  /** How many seats, folded or not, put in at least `level`. */
  function Contributors(ps: seq<Player>, level: nat): nat {
    Sum(ps, (p: Player) => if p.committed >= level then 1 else 0)
  }

  /** The highest commitment of all, folded seats included. */
  function Highest(ps: seq<Player>): nat {
    if ps == [] then 0 else Max(Highest(ps[..|ps| - 1]), ps[|ps| - 1].committed)
  }

  lemma {:induction false} HighestPaid(ps: seq<Player>) returns (i: nat)
    requires Highest(ps) > 0
    ensures i < |ps| && ps[i].committed == Highest(ps)
  {
    if ps[|ps| - 1].committed == Highest(ps) { i := |ps| - 1; } else { i := HighestPaid(ps[..|ps| - 1]); }
  }

  /** `levels` ascends, lists every positive commitment, and nothing above all of them. */
  ghost predicate AreLevels(ps: seq<Player>, levels: seq<nat>) {
    && Ascending(levels)
    && (forall k :: 0 <= k < |levels| ==> 0 < levels[k] <= Highest(ps))
    && (forall i {:trigger Listed(ps, levels, i)} :: 0 <= i < |ps| ==> Listed(ps, levels, i))
  }

  ghost predicate Listed(ps: seq<Player>, levels: seq<nat>, i: nat)
    requires i < |ps|
  {
    ps[i].committed > 0 ==> ps[i].committed in levels
  }

  /** The distinct positive commitments, ascending (sort and dedup in the source). */
  function Levels(ps: seq<Player>): (r: seq<nat>)
    ensures Ascending(r)
  {
    if ps == [] then []
    else
      var n := |ps| - 1;
      var rest := Levels(ps[..n]);
      if ps[n].committed == 0 then rest else InsertLevel(rest, ps[n].committed)
  }

  lemma {:induction false} LevelPaid(ps: seq<Player>, level: nat) returns (p: nat)
    requires level in Levels(ps)
    ensures p < |ps| && ps[p].committed == level
  {
    var n := |ps| - 1;
    if ps[n].committed == level { p := n; } else { p := LevelPaid(ps[..n], level); }
  }

  ghost predicate Committed(ps: seq<Player>, level: nat) {
    exists i :: 0 <= i < |ps| && ps[i].committed == level
  }

  lemma {:induction false} LevelsAreLevels(ps: seq<Player>)
    ensures AreLevels(ps, Levels(ps))
  {
    if ps != [] {
      var n := |ps| - 1;
      LevelsAreLevels(ps[..n]);
      var rest, levels := Levels(ps[..n]), Levels(ps);
      forall k | 0 <= k < |levels| ensures 0 < levels[k] <= Highest(ps) {
        assert levels[k] in levels;
      }
      forall i {:trigger Listed(ps, levels, i)} | 0 <= i < |ps| ensures Listed(ps, levels, i) {
        if i < n { assert Listed(ps[..n], rest, i); }
      }
    }
  }

  /** The levels are exactly the positive commitments, each once, ascending. */
  lemma LevelsExact(ps: seq<Player>, level: nat)
    ensures Ascending(Levels(ps))
    ensures level in Levels(ps) <==> level > 0 && Committed(ps, level)
  {
    hide Levels;
    LevelsAreLevels(ps);
    if level in Levels(ps) {
      var p := LevelPaid(ps, level);
      var k :| 0 <= k < |Levels(ps)| && Levels(ps)[k] == level;
    }
    if level > 0 && Committed(ps, level) {
      var i :| 0 <= i < |ps| && ps[i].committed == level;
      assert Listed(ps, Levels(ps), i);
    }
  }

  // ---------------------------------------------------------------------------
  // Pots
  // ---------------------------------------------------------------------------

  datatype SidePot = SidePot(amount: nat, eligible: seq<nat>)

  function AmountOf(p: SidePot): nat { p.amount }

  predicate Contends(p: Player, level: nat) {
    p.committed >= level && p.status != Folded
  }

  /** What those seats put in between `prev` and `level`. */
  function Slice(ps: seq<Player>, prev: nat, level: nat): nat {
    Sum(ps, (p: Player) => if p.committed >= level then Monus(level, prev) else 0)
  }

  lemma {:induction false} SliceIsProduct(ps: seq<Player>, prev: nat, level: nat)
    ensures Slice(ps, prev, level) == Monus(level, prev) * Contributors(ps, level)
  {
    if ps != [] {
      var n := |ps| - 1;
      SliceIsProduct(ps[..n], prev, level);
      var d, c := Monus(level, prev), Contributors(ps[..n], level);
      assert d * (c + 1) == d * c + d;
    }
  }

  function Eligible(ps: seq<Player>, level: nat): (r: seq<nat>)
    ensures Ascending(r)
    ensures forall i {:trigger i in r} :: i in r <==> 0 <= i < |ps| && Contends(ps[i], level)
  {
    if ps == [] then []
    else
      var n := |ps| - 1;
      var rest := Eligible(ps[..n], level);
      assert forall k :: 0 <= k < |rest| ==> rest[k] in rest;
      if Contends(ps[n], level) then rest + [n] else rest
  }

  /** One turn of the loop over levels. */
  function AddLevel(ps: seq<Player>, pots: seq<SidePot>, prev: nat, level: nat): seq<SidePot> {
    var slice := Slice(ps, prev, level);
    var eligible := Eligible(ps, level);
    if slice == 0 then pots
    else if eligible != [] then pots + [SidePot(slice, eligible)]
    else if pots == [] then pots
    else
      var last := pots[|pots| - 1];
      pots[|pots| - 1 := last.(amount := last.amount + slice)]
  }

  /** The level just under level `k` (0 under the first). */
  function Under(levels: seq<nat>, k: nat): nat
    requires k <= |levels|
  {
    if k == 0 then 0 else levels[k - 1]
  }

  /** The pots after the first `k` levels. */
  function PotsUpTo(ps: seq<Player>, levels: seq<nat>, k: nat): seq<SidePot>
    requires k <= |levels|
  {
    if k == 0 then [] else AddLevel(ps, PotsUpTo(ps, levels, k - 1), Under(levels, k - 1), levels[k - 1])
  }

  function ShowdownPots(ps: seq<Player>): seq<SidePot> { PotsUpTo(ps, Levels(ps), |Levels(ps)|) }

  /** The loop over ascending levels, with the source's product for each slice. */
  method PotsByLevel(ps: seq<Player>, levels: seq<nat>) returns (result: seq<SidePot>)
    ensures result == PotsUpTo(ps, levels, |levels|)
  {
    result := [];
    var prev := 0;
    for k := 0 to |levels|
      invariant prev == Under(levels, k)
      invariant result == PotsUpTo(ps, levels, k)
    {
      var slice := Monus(levels[k], prev) * Contributors(ps, levels[k]);
      SliceIsProduct(ps, prev, levels[k]);
      if slice != 0 {
        var eligible := Eligible(ps, levels[k]);
        if eligible == [] {
          if result != [] {
            var last := result[|result| - 1];
            result := result[|result| - 1 := last.(amount := last.amount + slice)];
          }
        } else {
          result := result + [SidePot(slice, eligible)];
        }
      }
      prev := levels[k];
    }
  }

  method BuildShowdownPots(ps: seq<Player>) returns (result: seq<SidePot>)
    ensures result == ShowdownPots(ps)
  {
    result := PotsByLevel(ps, Levels(ps));
  }

  // ---------------------------------------------------------------------------
  // What the pots hold
  // ---------------------------------------------------------------------------

  /** Chips that seats put in up to `level` each: the sum of min(c_p, level). */
  function UpTo(ps: seq<Player>, level: nat): nat {
    Sum(ps, (p: Player) => Min(p.committed, level))
  }

  /** Chips of each seat above `level`. */
  function Above(ps: seq<Player>, level: nat): nat {
    Sum(ps, (p: Player) => Monus(p.committed, level))
  }

  /** The highest commitment of a seat that has not folded (0 when there is none). */
  function Top(ps: seq<Player>): (t: nat)
    ensures forall i :: 0 <= i < |ps| && ps[i].status != Folded ==> ps[i].committed <= t
    ensures t > 0 ==> exists i :: 0 <= i < |ps| && ps[i].status != Folded && ps[i].committed == t
  {
    if ps == [] then 0
    else
      var n := |ps| - 1;
      var t := Top(ps[..n]);
      if ps[n].status != Folded && ps[n].committed > t then ps[n].committed else t
  }

  /** Nothing is committed strictly between two neighbouring levels. */
  lemma LevelGap(ps: seq<Player>, levels: seq<nat>, k: nat, i: nat)
    requires AreLevels(ps, levels) && k < |levels| && i < |ps|
    ensures ps[i].committed <= Under(levels, k) || ps[i].committed >= levels[k]
  {
    assert Listed(ps, levels, i);
    if ps[i].committed > 0 {
      var j :| 0 <= j < |levels| && levels[j] == ps[i].committed;
    }
  }

  lemma SliceIsDifference(ps: seq<Player>, levels: seq<nat>, k: nat)
    requires AreLevels(ps, levels) && k < |levels|
    ensures var prev := Under(levels, k);
            && UpTo(ps, levels[k]) == UpTo(ps, prev) + Slice(ps, prev, levels[k])
            && Slice(ps, prev, levels[k]) > 0
  {
    var prev, level := Under(levels, k), levels[k];
    assert prev < level;
    forall i | 0 <= i < |ps| ensures ps[i].committed <= prev || ps[i].committed >= level {
      LevelGap(ps, levels, k, i);
    }
    SumSplit(ps, (p: Player) => Min(p.committed, level), ps, (p: Player) => Min(p.committed, prev),
             ps, (p: Player) => if p.committed >= level then Monus(level, prev) else 0);
    var i := HighestPaid(ps);
    SumAtLeast(ps, (p: Player) => if p.committed >= level then Monus(level, prev) else 0, i);
  }

  /** Only levels up to the top live commitment have an eligible seat. */
  lemma EligibleUpToTop(ps: seq<Player>, level: nat)
    requires level > 0
    ensures Eligible(ps, level) != [] <==> level <= Top(ps)
  {
    if level <= Top(ps) {
      var i :| 0 <= i < |ps| && ps[i].status != Folded && ps[i].committed == Top(ps);
      assert i in Eligible(ps, level);
    } else {
      forall i ensures i !in Eligible(ps, level) { }
      assert forall r: seq<nat> :: r != [] ==> r[0] in r;
    }
  }

  /** The pot of level `k` before any folded excess joins it. */
  function Layer(ps: seq<Player>, levels: seq<nat>, k: nat): SidePot
    requires k < |levels|
  {
    SidePot(Slice(ps, Under(levels, k), levels[k]), Eligible(ps, levels[k]))
  }

  /** The pots of the first `k` levels. */
  function Layers(ps: seq<Player>, levels: seq<nat>, k: nat): (r: seq<SidePot>)
    requires k <= |levels|
    ensures |r| == k
  {
    if k == 0 then [] else Layers(ps, levels, k - 1) + [Layer(ps, levels, k - 1)]
  }

  lemma {:induction false} LayerAt(ps: seq<Player>, levels: seq<nat>, k: nat, j: nat)
    requires j < k <= |levels|
    ensures Layers(ps, levels, k)[j] == Layer(ps, levels, j)
  {
    if j < k - 1 { LayerAt(ps, levels, k - 1, j); }
  }

  function AddToLast(pots: seq<SidePot>, chips: nat): seq<SidePot> {
    if pots == [] then [] else
      var last := pots[|pots| - 1];
      pots[|pots| - 1 := last.(amount := last.amount + chips)]
  }

  lemma AddTwice(pots: seq<SidePot>, a: nat, b: nat)
    ensures AddToLast(AddToLast(pots, a), b) == AddToLast(pots, a + b)
    ensures AddToLast(pots, 0) == pots
  {
  }

  lemma AddToLastSums(pots: seq<SidePot>, chips: nat, i: nat)
    requires pots != []
    ensures Sum(AddToLast(pots, chips), AmountOf) == Sum(pots, AmountOf) + chips
    ensures Contested(AddToLast(pots, chips), i) ==
            Contested(pots, i) + if i in pots[|pots| - 1].eligible then chips else 0
  {
    var n := |pots| - 1;
    assert AddToLast(pots, chips)[..n] == pots[..n];
  }

  lemma PotsStep(ps: seq<Player>, levels: seq<nat>, k: nat)
    requires AreLevels(ps, levels) && k < |levels|
    ensures PotsUpTo(ps, levels, k + 1) ==
            if levels[k] <= Top(ps) then PotsUpTo(ps, levels, k) + [Layer(ps, levels, k)]
            else AddToLast(PotsUpTo(ps, levels, k), Layer(ps, levels, k).amount)
  {
    SliceIsDifference(ps, levels, k);
    EligibleUpToTop(ps, levels[k]);
  }

  /** Up to the top live commitment every level makes its own pot. */
  lemma {:induction false} LayersBelow(ps: seq<Player>, levels: seq<nat>, k: nat)
    requires AreLevels(ps, levels) && k <= |levels|
    requires k > 0 ==> levels[k - 1] <= Top(ps)
    ensures PotsUpTo(ps, levels, k) == Layers(ps, levels, k)
  {
    if k > 0 {
      LayersBelow(ps, levels, k - 1);
      PotsStep(ps, levels, k - 1);
    }
  }

  /** The slices of the levels above level `t`, up to the first `k`. */
  function Excess(ps: seq<Player>, levels: seq<nat>, t: nat, k: nat): nat
    requires k <= |levels|
  {
    if k <= t + 1 then 0 else Excess(ps, levels, t, k - 1) + Layer(ps, levels, k - 1).amount
  }

  lemma {:induction false} ExcessIsAbove(ps: seq<Player>, levels: seq<nat>, t: nat, k: nat)
    requires AreLevels(ps, levels) && t < k <= |levels|
    ensures UpTo(ps, levels[k - 1]) == UpTo(ps, levels[t]) + Excess(ps, levels, t, k)
  {
    if k > t + 1 {
      ExcessIsAbove(ps, levels, t, k - 1);
      SliceIsDifference(ps, levels, k - 1);
    }
  }

  lemma PotsStepAbove(ps: seq<Player>, levels: seq<nat>, k: nat, layers: seq<SidePot>, excess: nat)
    requires AreLevels(ps, levels) && k < |levels| && levels[k] > Top(ps)
    requires PotsUpTo(ps, levels, k) == AddToLast(layers, excess)
    ensures PotsUpTo(ps, levels, k + 1) == AddToLast(layers, excess + Layer(ps, levels, k).amount)
  {
    PotsStep(ps, levels, k);
    AddTwice(layers, excess, Layer(ps, levels, k).amount);
  }

  /** Above it every slice is folded money and joins the pot of the top live level. */
  lemma {:induction false} LayersAbove(ps: seq<Player>, levels: seq<nat>, t: nat, k: nat, layers: seq<SidePot>)
    requires AreLevels(ps, levels) && t < k <= |levels| && levels[t] == Top(ps)
    requires PotsUpTo(ps, levels, t + 1) == layers
    ensures PotsUpTo(ps, levels, k) == AddToLast(layers, Excess(ps, levels, t, k))
  {
    hide PotsUpTo, AddToLast, Layer, Top;
    AddTwice(layers, 0, 0);
    if k > t + 1 {
      LayersAbove(ps, levels, t, k - 1, layers);
      PotsStepAbove(ps, levels, k - 1, layers, Excess(ps, levels, t, k - 1));
    }
  }

  lemma UpToLast(ps: seq<Player>, levels: seq<nat>)
    requires AreLevels(ps, levels)
    ensures UpTo(ps, Under(levels, |levels|)) == SumCommitted(ps)
  {
    forall i | 0 <= i < |ps| ensures ps[i].committed <= Under(levels, |levels|) {
      assert Listed(ps, levels, i);
      if ps[i].committed > 0 { var j :| 0 <= j < |levels| && levels[j] == ps[i].committed; }
    }
    SumSame(ps, (p: Player) => Min(p.committed, Under(levels, |levels|)), ps, CommittedOf);
  }

  lemma UpToAbove(ps: seq<Player>, level: nat)
    ensures SumCommitted(ps) == UpTo(ps, level) + Above(ps, level)
  {
    SumSplit(ps, CommittedOf, ps, (p: Player) => Min(p.committed, level), ps, (p: Player) => Monus(p.committed, level));
  }

  lemma TopLevel(ps: seq<Player>, levels: seq<nat>) returns (t: nat)
    requires AreLevels(ps, levels) && Top(ps) > 0
    ensures t < |levels| && levels[t] == Top(ps)
  {
    var i :| 0 <= i < |ps| && ps[i].status != Folded && ps[i].committed == Top(ps);
    assert Listed(ps, levels, i);
    t :| 0 <= t < |levels| && levels[t] == ps[i].committed;
  }

  lemma ExcessTotal(ps: seq<Player>, levels: seq<nat>, t: nat)
    requires AreLevels(ps, levels) && t < |levels|
    ensures Excess(ps, levels, t, |levels|) == Above(ps, levels[t])
  {
    ExcessIsAbove(ps, levels, t, |levels|);
    UpToLast(ps, levels);
    UpToAbove(ps, levels[t]);
  }

  lemma WithExcess(ps: seq<Player>, levels: seq<nat>, t: nat, layers: seq<SidePot>)
    requires AreLevels(ps, levels) && t < |levels| && levels[t] == Top(ps)
    requires PotsUpTo(ps, levels, t + 1) == layers
    ensures PotsUpTo(ps, levels, |levels|) == AddToLast(layers, Above(ps, Top(ps)))
  {
    LayersAbove(ps, levels, t, |levels|, layers);
    ExcessTotal(ps, levels, t);
  }

  /** The pots in closed form: one per level up to the top live commitment, each holding
      exactly its slice, the last one also every folded chip above it. */
  lemma PotsAreLayers(ps: seq<Player>) returns (t: nat)
    requires Top(ps) > 0
    ensures AreLevels(ps, Levels(ps)) && t < |Levels(ps)| && Levels(ps)[t] == Top(ps)
    ensures ShowdownPots(ps) == AddToLast(Layers(ps, Levels(ps), t + 1), Above(ps, Top(ps)))
  {
    LevelsAreLevels(ps);
    t := TopLevel(ps, Levels(ps));
    LayersBelow(ps, Levels(ps), t + 1);
    WithExcess(ps, Levels(ps), t, Layers(ps, Levels(ps), t + 1));
  }

  lemma {:induction false} NoContender(ps: seq<Player>, levels: seq<nat>, k: nat)
    requires AreLevels(ps, levels) && k <= |levels| && Top(ps) == 0
    ensures PotsUpTo(ps, levels, k) == []
  {
    if k > 0 {
      NoContender(ps, levels, k - 1);
      PotsStep(ps, levels, k - 1);
    }
  }

  /** No live commitment, no pot. */
  lemma NoPots(ps: seq<Player>)
    requires Top(ps) == 0
    ensures ShowdownPots(ps) == []
  {
    LevelsAreLevels(ps);
    NoContender(ps, Levels(ps), |Levels(ps)|);
  }

  lemma LayeredEligible(ps: seq<Player>, levels: seq<nat>, t: nat, chips: nat, k: nat)
    requires k <= t < |levels|
    ensures AddToLast(Layers(ps, levels, t + 1), chips)[k].eligible == Eligible(ps, levels[k])
  {
    LayerAt(ps, levels, t + 1, k);
  }

  /** Eligible seats form a decreasing chain and no pot is without a contender. */
  lemma PotsNest(ps: seq<Player>, a: nat, b: nat)
    requires a <= b < |ShowdownPots(ps)|
    ensures ShowdownPots(ps)[b].eligible != []
    ensures forall i {:trigger i in ShowdownPots(ps)[b].eligible} ::
              i in ShowdownPots(ps)[b].eligible ==> i in ShowdownPots(ps)[a].eligible
  {
    if Top(ps) == 0 { NoPots(ps); }
    var t := PotsAreLayers(ps);
    var levels := Levels(ps);
    LayeredEligible(ps, levels, t, Above(ps, Top(ps)), a);
    LayeredEligible(ps, levels, t, Above(ps, Top(ps)), b);
    EligibleUpToTop(ps, levels[b]);
    forall i | i in Eligible(ps, levels[b]) ensures i in Eligible(ps, levels[a]) { }
  }

  // ---------------------------------------------------------------------------
  // What each seat can win
  // ---------------------------------------------------------------------------

  /** The chips of the pots that seat `i` contends for. */
  function Contested(pots: seq<SidePot>, i: nat): nat {
    Sum(pots, (p: SidePot) => if i in p.eligible then p.amount else 0)
  }

  /** What seat `i` can win at most: everyone's chips up to its own commitment, and, when
      nobody live committed more, the folded chips above it too. */
  function Entitlement(ps: seq<Player>, i: nat): nat
    requires i < |ps|
  {
    UpTo(ps, ps[i].committed) + if ps[i].committed == Top(ps) then Above(ps, Top(ps)) else 0
  }

  lemma UpToZero(ps: seq<Player>)
    ensures UpTo(ps, 0) == 0
  {
    SumZero(ps, (p: Player) => Min(p.committed, 0));
  }

  lemma {:induction false} LayersAmount(ps: seq<Player>, levels: seq<nat>, k: nat)
    requires AreLevels(ps, levels) && k <= |levels|
    ensures Sum(Layers(ps, levels, k), AmountOf) == UpTo(ps, Under(levels, k))
  {
    if k == 0 {
      UpToZero(ps);
    } else {
      LayersAmount(ps, levels, k - 1);
      SliceIsDifference(ps, levels, k - 1);
      assert Layers(ps, levels, k)[..k - 1] == Layers(ps, levels, k - 1);
    }
  }

  lemma {:induction false} LayersContested(ps: seq<Player>, levels: seq<nat>, k: nat, i: nat)
    requires AreLevels(ps, levels) && k <= |levels|
    requires i < |ps| && ps[i].status != Folded
    ensures Contested(Layers(ps, levels, k), i) == UpTo(ps, Min(Under(levels, k), ps[i].committed))
  {
    if k == 0 {
      UpToZero(ps);
    } else {
      LayersContested(ps, levels, k - 1, i);
      assert Layers(ps, levels, k)[..k - 1] == Layers(ps, levels, k - 1);
      assert i in Layers(ps, levels, k)[k - 1].eligible <==> ps[i].committed >= levels[k - 1];
      LevelGap(ps, levels, k - 1, i);
      SliceIsDifference(ps, levels, k - 1);
    }
  }

  /** Every live seat that put chips in contends for exactly its entitlement, and the pots
      together hold every committed chip. */
  lemma ContestedIsEntitlement(ps: seq<Player>, i: nat)
    requires i < |ps| && ps[i].status != Folded && Top(ps) > 0
    ensures Contested(ShowdownPots(ps), i) == if ps[i].committed == 0 then 0 else Entitlement(ps, i)
    ensures Sum(ShowdownPots(ps), AmountOf) == SumCommitted(ps)
  {
    var levels := Levels(ps);
    var t := PotsAreLayers(ps);
    AddToLastSums(Layers(ps, levels, t + 1), Above(ps, Top(ps)), i);
    LayersAmount(ps, levels, t + 1);
    LayersContested(ps, levels, t + 1, i);
    UpToAbove(ps, Top(ps));
    UpToZero(ps);
    assert i in Layers(ps, levels, t + 1)[t].eligible <==> ps[i].committed == Top(ps);
  }

  /** The pots hold every committed chip exactly when a live seat put some in (or there is
      nothing to hold): otherwise the folded chips are orphaned. */
  lemma PotsHoldEverything(ps: seq<Player>)
    ensures Sum(ShowdownPots(ps), AmountOf) == SumCommitted(ps) <==> Top(ps) > 0 || SumCommitted(ps) == 0
  {
    if Top(ps) > 0 {
      var i :| 0 <= i < |ps| && ps[i].status != Folded && ps[i].committed == Top(ps);
      ContestedIsEntitlement(ps, i);
    } else {
      NoPots(ps);
    }
  }
}
