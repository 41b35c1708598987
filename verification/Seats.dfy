/** Clockwise searches round the table: the first marked seat strictly after another. */
module Seats {
  import opened Types

  /** Seats `from + i`, `from + i + 1`, ... `from + n` in turn, wrapping around. */
  function Scan(mask: seq<bool>, from: nat, i: nat): (r: Option<nat>)
    ensures r.Some? ==> r.value < |mask| && mask[r.value]
    decreases |mask| + 1 - i
  {
    if i > |mask| || mask == [] then None
    else
      var seat := (from + i) % |mask|;
      if mask[seat] then Some(seat) else Scan(mask, from, i + 1)
  }

  /** The loop of `next_active_after`, its in-list twin and the tree's next-seat search. */
  method FindSeat(mask: seq<bool>, from: nat) returns (r: Option<nat>)
    ensures r == Scan(mask, from, 1)
    ensures r.None? <==> forall s :: 0 <= s < |mask| ==> !mask[s]
  {
    ScanFinds(mask, from);
    for i := 1 to |mask| + 1
      invariant Scan(mask, from, 1) == Scan(mask, from, i)
    {
      var seat := (from + i) % |mask|;
      if mask[seat] { return Some(seat); }
    }
    return None;
  }

  /** Every seat is `from + i` for one step count `i` in 1..n. */
  function StepsTo(n: nat, from: nat, seat: nat): (i: nat)
    requires seat < n
    ensures 1 <= i <= n && (from + i) % n == seat
  {
    var f := from % n;
    var i := if seat > f then seat - f else seat + n - f;
    StepsModulo(n, from, i, seat);
    i
  }

  lemma StepsModulo(n: nat, from: nat, i: nat, seat: nat)
    requires seat < n && (from % n + i == seat || from % n + i == seat + n)
    ensures (from + i) % n == seat
  {
    var q := from / n;
    assert from == n * q + from % n;
    if from % n + i == seat {
      Remainder(from + i, n, q, seat);
    } else {
      assert n * (q + 1) == n * q + n;
      Remainder(from + i, n, q + 1, seat);
    }
  }

  /** The remainder is unique. */
  lemma Remainder(x: nat, n: nat, q: nat, r: nat)
    requires r < n && x == n * q + r
    ensures x % n == r
  {
    var p := x / n;
    assert x == n * p + x % n;
    if p < q { Scale(n, p + 1, q); } else if q < p { Scale(n, q + 1, p); }
  }

  lemma Scale(n: nat, a: nat, b: nat)
    requires a <= b
    ensures n * a <= n * b && n * a == n * (a - 1) + n
  {
  }

  lemma {:induction false} ScanReaches(mask: seq<bool>, from: nat, i: nat, k: nat)
    requires 1 <= i <= k <= |mask| && mask[(from + k) % |mask|]
    ensures Scan(mask, from, i).Some?
    decreases k - i
  {
    if i < k && !mask[(from + i) % |mask|] { ScanReaches(mask, from, i + 1, k); }
  }

  /** The search fails only when no seat is marked. */
  lemma ScanFinds(mask: seq<bool>, from: nat)
    ensures Scan(mask, from, 1).None? <==> forall s :: 0 <= s < |mask| ==> !mask[s]
  {
    if Scan(mask, from, 1).None? {
      forall s | 0 <= s < |mask| ensures !mask[s] {
        if mask[s] {
          var k := StepsTo(|mask|, from, s);
          ScanReaches(mask, from, 1, k);
        }
      }
    }
  }

  lemma {:induction false} ScanStops(mask: seq<bool>, from: nat, i: nat, k: nat) returns (j: nat)
    requires 1 <= i <= k <= |mask| && mask[(from + k) % |mask|]
    ensures i <= j <= k && Scan(mask, from, i) == Some((from + j) % |mask|)
    decreases k - i
  {
    if mask[(from + i) % |mask|] { j := i; } else { j := ScanStops(mask, from, i + 1, k); }
  }

  /** No two step counts within one round reach the same seat. */
  lemma StepsUnique(n: nat, from: nat, i: nat)
    requires 1 <= i <= n
    ensures StepsTo(n, from, (from + i) % n) == i
  {
    var j := StepsTo(n, from, (from + i) % n);
    var p, q := (from + i) / n, (from + j) / n;
    assert from + i == n * p + (from + i) % n && from + j == n * q + (from + i) % n;
    if p < q { Scale(n, p + 1, q); } else if q < p { Scale(n, q + 1, p); }
  }

  /** Seen from a seat of the table, the others are less than a round away and it is a whole one. */
  lemma StepsWithin(n: nat, from: nat, seat: nat)
    requires from < n && seat < n
    ensures StepsTo(n, from, seat) == if seat > from then seat - from else seat + n - from
  {
    Remainder(from, n, 0, from);
  }

  /** What the search finds: of all marked seats, the one the fewest steps clockwise of `from`,
      where `from` itself is a whole round away. */
  lemma ScanIsFirst(mask: seq<bool>, from: nat, seat: nat)
    requires seat < |mask| && mask[seat]
    ensures var r := Scan(mask, from, 1);
            r.Some? && StepsTo(|mask|, from, r.value) <= StepsTo(|mask|, from, seat)
  {
    var j := ScanStops(mask, from, 1, StepsTo(|mask|, from, seat));
    StepsUnique(|mask|, from, j);
  }
}
