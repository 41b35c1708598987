/** The 52-card deck: an in-place Fisher-Yates shuffle driven by a generator whose outputs are
    arbitrary, and a dealing cursor. */
module DeckShuffle {
  import opened Types
  import opened Tree
  import opened Story
  import opened Theorems

  function Swapped(s: seq<Card>, i: nat, j: nat): (r: seq<Card>)
    requires i < |s| && j < |s|
    ensures |r| == |s|
    ensures forall k :: 0 <= k < |s| ==> r[k] == if k == i then s[j] else if k == j then s[i] else s[k]
  {
    s[i := s[j]][j := s[i]]
  }

  /** Generator outputs: entry `i` is the draw from `0..=i`. */
  ghost predicate Picks(ps: seq<nat>) { forall i :: 0 <= i < |ps| ==> ps[i] <= i }

  /** Swaps at positions `top`, `top - 1`, ... 1. */
  function Shuffled(s: seq<Card>, ps: seq<nat>, top: nat): (r: seq<Card>)
    requires |ps| == |s| && Picks(ps) && (s == [] || top < |s|)
    ensures |r| == |s|
    decreases top
  {
    if top == 0 || s == [] then s else Shuffled(Swapped(s, top, ps[top]), ps, top - 1)
  }

  /** Positions above the current one are final. */
  lemma {:induction false} ShuffledAbove(s: seq<Card>, ps: seq<nat>, top: nat, k: nat)
    requires |ps| == |s| && Picks(ps) && top < k < |s|
    ensures Shuffled(s, ps, top)[k] == s[k]
    decreases top
  {
    if top > 0 { ShuffledAbove(Swapped(s, top, ps[top]), ps, top - 1, k); }
  }

  /** The last card is the one drawn for it among all cards; the rest is shuffled in the same way. */
  lemma {:induction false} LastCardDrawn(s: seq<Card>, ps: seq<nat>, top: nat)
    requires |ps| == |s| && Picks(ps) && top < |s|
    ensures Shuffled(s, ps, top)[top] == s[ps[top]]
  {
    if top > 0 { ShuffledAbove(Swapped(s, top, ps[top]), ps, top - 1, top); }
  }

  lemma SwappedKeeps(s: seq<Card>, i: nat, j: nat)
    requires i < |s| && j < |s|
    ensures multiset(Swapped(s, i, j)) == multiset(s)
    ensures Distinct(s) ==> Distinct(Swapped(s, i, j))
  {
  }

  /** Whatever the generator says, the shuffle permutes the deck. */
  lemma {:induction false} ShuffleIsPermutation(s: seq<Card>, ps: seq<nat>, top: nat)
    requires |ps| == |s| && Picks(ps) && (s == [] || top < |s|)
    ensures multiset(Shuffled(s, ps, top)) == multiset(s)
    ensures Distinct(s) ==> Distinct(Shuffled(s, ps, top))
    decreases top
  {
    if top > 0 && s != [] {
      SwappedKeeps(s, top, ps[top]);
      ShuffleIsPermutation(Swapped(s, top, ps[top]), ps, top - 1);
    }
  }

  /** Different draws give different orders: no permutation comes out twice. */
  lemma {:induction false} ShuffleIsInjective(s: seq<Card>, ps: seq<nat>, qs: seq<nat>, top: nat, i: nat)
    requires |ps| == |qs| == |s| && Picks(ps) && Picks(qs) && top < |s| && Distinct(s)
    requires Shuffled(s, ps, top) == Shuffled(s, qs, top) && i <= top
    ensures ps[i] == qs[i]
    decreases top
  {
    if top > 0 {
      LastCardDrawn(s, ps, top);
      LastCardDrawn(s, qs, top);
      assert s[ps[top]] == s[qs[top]];
      if i < top {
        SwappedKeeps(s, top, ps[top]);
        ShuffleIsInjective(Swapped(s, top, ps[top]), ps, qs, top - 1, i);
      }
    }
  }

  /** Only the draws up to `top` matter. */
  lemma {:induction false} ShuffledUpTo(s: seq<Card>, ps: seq<nat>, qs: seq<nat>, top: nat)
    requires |ps| == |qs| == |s| && Picks(ps) && Picks(qs) && top < |s|
    requires forall i :: 0 <= i <= top ==> ps[i] == qs[i]
    ensures Shuffled(s, ps, top) == Shuffled(s, qs, top)
    decreases top
  {
    if top > 0 { ShuffledUpTo(Swapped(s, top, ps[top]), ps, qs, top - 1); }
  }

  /** Two orders of the same cards that agree above `top`: the card due at `top` is below. */
  lemma CardBelow(s: seq<Card>, t: seq<Card>, top: nat) returns (j: nat)
    requires |s| == |t| && Distinct(t) && multiset(s) == multiset(t) && top < |t|
    requires forall k :: top < k < |s| ==> s[k] == t[k]
    ensures j <= top && s[j] == t[top]
  {
    assert t[top] in multiset(t);
    assert t[top] in multiset(s);
    j :| 0 <= j < |s| && s[j] == t[top];
  }

  /** Every order of the deck comes out for some draws. With `ShuffleIsInjective`: for exactly
      one list of draws, so evenly drawn numbers shuffle evenly. */
  lemma {:induction false} ShuffleReachesAll(s: seq<Card>, t: seq<Card>, top: nat) returns (ps: seq<nat>)
    requires |s| == |t| && Distinct(s) && Distinct(t) && multiset(s) == multiset(t) && top < |s|
    requires forall k :: top < k < |s| ==> s[k] == t[k]
    ensures |ps| == |s| && Picks(ps) && Shuffled(s, ps, top) == t
    decreases top
  {
    hide Distinct, Picks, Swapped;
    var j := CardBelow(s, t, top);
    if top == 0 {
      ps := seq(|s|, i => 0);
      ZeroPicks(ps);
      assert s == t;
    } else {
      SwappedKeeps(s, top, j);
      var rest := ShuffleReachesAll(Swapped(s, top, j), t, top - 1);
      ps := rest[top := j];
      PickUpdate(rest, top, j);
      ShuffledUpTo(Swapped(s, top, j), ps, rest, top - 1);
    }
  }

  lemma ZeroPicks(ps: seq<nat>)
    requires forall i :: 0 <= i < |ps| ==> ps[i] == 0
    ensures Picks(ps)
  {
  }

  lemma PickUpdate(ps: seq<nat>, i: nat, j: nat)
    requires Picks(ps) && j <= i < |ps|
    ensures Picks(ps[i := j])
  {
  }

  function InOrder(n: nat): (s: seq<Card>)
    ensures |s| == n && forall i :: 0 <= i < n ==> s[i] == i
    ensures Distinct(s)
  {
    seq<Card>(n, (i: nat) => i)
  }

  /** A hand dealt from a shuffled deck to at most 23 seats never deals a card twice and never
      runs out of cards, whatever the generator drew and the players do. */
  lemma DealIsSound(e: Engine, u: Setup, script: seq<Action>, draws: seq<nat>)
    requires |draws| == 52 && Picks(draws) && u.cards == Shuffled(InOrder(52), draws, 51)
    requires Playable(u) && |u.stacks| <= 23
    ensures var h := Played(e, u, script).hand;
            Distinct(Holes(h.g.players) + h.g.board) && h.deck.cursor <= 52
  {
    hide Played, Shuffled, Playable;
    ShuffleIsPermutation(InOrder(52), draws, 51);
    CardsDistinct(e, u, script);
  }

  class ShuffledDeck {
    const cards: array<Card>
    var cursor: nat

    /** `Deck::new`: all 52 cards, shuffled with the generator's outputs. */
    constructor (draws: seq<nat>)
      requires |draws| == 52 && Picks(draws)
      ensures fresh(cards) && cards.Length == 52 && cursor == 0
      ensures cards[..] == Shuffled(InOrder(52), draws, 51)
      ensures multiset(cards[..]) == multiset(InOrder(52)) && Distinct(cards[..])
    {
      cards := new Card[52](i requires 0 <= i < 52 => i);
      cursor := 0;
      new;
      assert cards[..] == InOrder(52);
      Shuffle(draws);
      ShuffleIsPermutation(InOrder(52), draws, 51);
    }

    method Shuffle(draws: seq<nat>)
      requires |draws| == cards.Length == 52 && Picks(draws)
      modifies cards
      ensures cards[..] == Shuffled(old(cards[..]), draws, 51)
    {
      var i := 51;
      while i > 0
        invariant 0 <= i <= 51
        invariant Shuffled(cards[..], draws, i) == Shuffled(old(cards[..]), draws, 51)
      {
        var j := draws[i];
        ghost var before := cards[..];
        cards[i], cards[j] := cards[j], cards[i];
        assert cards[..] == Swapped(before, i, j);
        i := i - 1;
      }
    }

    /** The next card; the source panics on an exhausted deck. */
    method Deal() returns (card: Card)
      requires cards.Length == 52 && cursor < 52
      modifies this`cursor
      ensures cursor == old(cursor) + 1 && card == cards[old(cursor)]
      ensures card == Deck(cards[..], old(cursor)).At(old(cursor))
    {
      card := cards[cursor];
      cursor := cursor + 1;
    }
  }
}
