/** Seats, cards, hands and the full deck: the vocabulary every other module shares. */
module Cards {

  /** Seats are the indices of `seats_to_array`: N = 0, E = 1, S = 2, W = 3. */
  type Seat = s: int | 0 <= s < 4

  datatype Suit = Clubs | Diamonds | Hearts | Spades

  /** 11, 12, 13 and 14 stand for J, Q, K and A. */
  type Rank = r: int | 2 <= r <= 14 witness 2

  datatype Card = Card(rank: Rank, suit: Suit)

  /** The cards of one suit from rank `r` upwards. */
  function SuitFrom(suit: Suit, r: int): seq<Card>
    requires 2 <= r
    decreases 15 - r
  {
    if r > 14 then [] else [Card(r, suit)] + SuitFrom(suit, r + 1)
  }

  function Deck(): seq<Card> {
    SuitFrom(Clubs, 2) + SuitFrom(Diamonds, 2) + SuitFrom(Hearts, 2) + SuitFrom(Spades, 2)
  }

  lemma {:induction false} SuitFromDistinct(suit: Suit, r: int, c: Card)
    requires 2 <= r
    ensures multiset(SuitFrom(suit, r))[c] == if c.suit == suit && r <= c.rank then 1 else 0
    decreases 15 - r
  {
    if r <= 14 {
      SuitFromDistinct(suit, r + 1, c);
      assert multiset(SuitFrom(suit, r)) == multiset{Card(r, suit)} + multiset(SuitFrom(suit, r + 1));
    }
  }

  /** The deck holds every card exactly once. */
  lemma DeckDistinct(c: Card)
    ensures multiset(Deck())[c] == 1
  {
    hide SuitFrom;
    SuitFromDistinct(Clubs, 2, c);
    SuitFromDistinct(Diamonds, 2, c);
    SuitFromDistinct(Hearts, 2, c);
    SuitFromDistinct(Spades, 2, c);
  }

  /** `vector::erase` of the first occurrence that `find` returns; no change when absent. */
  function Erase(hand: seq<Card>, c: Card): seq<Card> {
    if hand == [] then []
    else if hand[0] == c then hand[1..]
    else [hand[0]] + Erase(hand[1..], c)
  }

  lemma {:induction false} EraseBag(hand: seq<Card>, c: Card)
    ensures multiset(Erase(hand, c)) == multiset(hand) - multiset{c}
    ensures forall d :: d in Erase(hand, c) ==> d in hand
  {
    if hand != [] {
      assert hand == [hand[0]] + hand[1..];
      if hand[0] != c {
        EraseBag(hand[1..], c);
      }
    }
  }

  lemma {:induction false} EraseAt(hand: seq<Card>, k: nat)
    requires k < |hand| && hand[k] !in hand[..k]
    ensures Erase(hand, hand[k]) == hand[..k] + hand[k + 1..]
  {
    if k > 0 {
      assert hand[0] == hand[..k][0];
      assert hand[1..][..k - 1] == hand[..k][1..];
      EraseAt(hand[1..], k - 1);
      assert hand[1..][k..] == hand[k + 1..];
      assert [hand[0]] + hand[1..][..k - 1] == hand[..k];
    }
  }

  /** `std::find`: the first position of `c`, or the length when it is absent. */
  method Find(hand: seq<Card>, c: Card) returns (k: nat)
    ensures k <= |hand| && c !in hand[..k]
    ensures k < |hand| <==> c in hand
    ensures k < |hand| ==> hand[k] == c && Erase(hand, c) == hand[..k] + hand[k + 1..]
    ensures k == |hand| ==> Erase(hand, c) == hand
  {
    k := 0;
    while k < |hand| && hand[k] != c
      invariant k <= |hand| && c !in hand[..k]
    {
      k := k + 1;
    }
    assert hand[..|hand|] == hand;
    if k < |hand| {
      EraseAt(hand, k);
    } else {
      EraseAbsent(hand, c);
    }
  }

  lemma {:induction false} EraseAbsent(hand: seq<Card>, c: Card)
    requires c !in hand
    ensures Erase(hand, c) == hand
  {
    if hand != [] {
      EraseAbsent(hand[1..], c);
    }
  }

  /** The seat that plays `p` places after `leader`. */
  function Place(leader: Seat, p: int): Seat
    requires 0 <= p < 4
  {
    if leader + p < 4 then leader + p else leader + p - 4
  }

  /** Place of seat `s` in the playing order of a trick led by `leader`. */
  function Pos(leader: Seat, s: Seat): (p: nat)
    ensures p < 4
  {
    if leader <= s then s - leader else s + 4 - leader
  }

  lemma PlaceMod(leader: Seat, p: int)
    requires 0 <= p < 4
    ensures Place(leader, p) == (leader + p) % 4
    ensures Pos(leader, Place(leader, p)) == p
  {
  }

  function Sum(xs: seq<int>): int {
    if xs == [] then 0 else Sum(xs[..|xs| - 1]) + xs[|xs| - 1]
  }

  lemma Sum4(xs: seq<int>)
    requires |xs| == 4
    ensures Sum(xs) == xs[0] + xs[1] + xs[2] + xs[3]
  {
    assert xs[..3][..2] == xs[..2];
    assert xs[..2][..1] == xs[..1];
    assert xs[..1][..0] == [];
    assert Sum(xs[..1]) == xs[0];
    assert Sum(xs[..2]) == xs[0] + xs[1];
    assert Sum(xs[..3]) == xs[0] + xs[1] + xs[2];
  }
}
