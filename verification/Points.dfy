/** points_calculator.cpp: who takes a trick and how many points it costs. */
module Points {
  import opened Cards

  // ---- What a trick is worth, read off its cards -------------------------------------------

  /** Penalty of one card under trick type `kind`. */
  function CardWeight(kind: int, c: Card): nat {
    match kind
    case 2 => if c.suit == Hearts then 1 else 0
    case 3 => if c.rank == 12 then 5 else 0
    case 4 => if c.rank == 11 || c.rank == 13 then 2 else 0
    case 5 => if c.suit == Hearts && c.rank == 13 then 18 else 0
    case 7 => CardWeight(2, c) + CardWeight(3, c) + CardWeight(4, c) + CardWeight(5, c)
    case _ => 0
  }

  /** Penalty of a trick that does not depend on its cards.  Tricks 7 and 13 cost 40: the source adds
      10 once per loop turn (10 per trick was probably intended). */
  function TrickBonus(kind: int, trick: int): nat {
    match kind
    case 1 => 1
    case 6 => if trick == 7 || trick == 13 then 40 else 0
    case 7 => TrickBonus(1, trick) + TrickBonus(6, trick)
    case _ => 0
  }

  function Weight(kind: int, cards: seq<Card>): nat {
    if cards == [] then 0 else Weight(kind, cards[..|cards| - 1]) + CardWeight(kind, cards[|cards| - 1])
  }

  function TrickPoints(kind: int, trick: int, cards: seq<Card>): nat {
    TrickBonus(kind, trick) + Weight(kind, cards)
  }

  lemma {:induction false} WeightAppend(kind: int, a: seq<Card>, b: seq<Card>)
    ensures Weight(kind, a + b) == Weight(kind, a) + Weight(kind, b)
  {
    if b == [] {
      assert a + b == a;
    } else {
      assert (a + b)[..|a + b| - 1] == a + b[..|b| - 1];
      WeightAppend(kind, a, b[..|b| - 1]);
    }
  }

  /** The weight of a pile depends only on which cards are in it. */
  lemma {:induction false} WeightOfBag(kind: int, a: seq<Card>, b: seq<Card>)
    requires multiset(a) == multiset(b)
    ensures Weight(kind, a) == Weight(kind, b)
    decreases |a|
  {
    if a == [] {
      assert |multiset(a)| == |b|;
    } else {
      var n := |a| - 1;
      var c := a[n];
      assert a == a[..n] + [c];
      assert c in multiset(b);
      var k :| 0 <= k < |b| && b[k] == c;
      var rest := b[..k] + b[k + 1..];
      assert b == b[..k] + [c] + b[k + 1..];
      assert multiset(rest) == multiset(b) - multiset{c} == multiset(a[..n]);
      WeightOfBag(kind, a[..n], rest);
      WeightAppend(kind, b[..k], [c]);
      WeightAppend(kind, b[..k] + [c], b[k + 1..]);
      WeightAppend(kind, b[..k], b[k + 1..]);
      assert Weight(kind, [c]) == CardWeight(kind, c);
    }
  }

  /** How many of the cards have a property. */
  function HowMany(cards: seq<Card>, p: Card -> bool): nat {
    if cards == [] then 0 else HowMany(cards[..|cards| - 1], p) + if p(cards[|cards| - 1]) then 1 else 0
  }

  /** A rule that costs `n` for each card of a kind costs `n` times their number. */
  lemma {:induction false} WeightCounts(kind: int, cards: seq<Card>, p: Card -> bool, n: nat)
    requires forall c: Card :: CardWeight(kind, c) == if p(c) then n else 0
    ensures Weight(kind, cards) == n * HowMany(cards, p)
  {
    hide CardWeight;
    if cards != [] {
      WeightCounts(kind, cards[..|cards| - 1], p, n);
    }
  }

  lemma {:induction false} WeightBandit(cards: seq<Card>)
    ensures Weight(7, cards) == Weight(2, cards) + Weight(3, cards) + Weight(4, cards) + Weight(5, cards)
    ensures Weight(1, cards) == Weight(6, cards) == 0
  {
    if cards != [] {
      WeightBandit(cards[..|cards| - 1]);
    }
  }

  // ---- Who takes it ---------------------------------------------------------------------------

  /** `w` is the place, in playing order, of the highest card of the led suit (the first such card
      should two be equal, which cannot happen within one pack). */
  ghost predicate Wins(cards: seq<Card>, w: nat) {
    && w < |cards|
    && cards[w].suit == cards[0].suit
    && (forall j | 0 <= j < |cards| && cards[j].suit == cards[0].suit :: cards[j].rank <= cards[w].rank)
    && (forall j | 0 <= j < w && cards[j].suit == cards[0].suit :: cards[j].rank < cards[w].rank)
  }

  function WinnerIndex(cards: seq<Card>): (w: nat)
    requires cards != []
    ensures w < |cards|
  {
    if |cards| == 1 then 0
    else
      var v := WinnerIndex(cards[..|cards| - 1]);
      var last := cards[|cards| - 1];
      if last.suit == cards[0].suit && last.rank > cards[v].rank then |cards| - 1 else v
  }

  lemma {:induction false} WinnerWins(cards: seq<Card>)
    requires cards != []
    ensures Wins(cards, WinnerIndex(cards))
  {
    var front := cards[..|cards| - 1];
    if |cards| > 1 {
      WinnerWins(front);
      assert forall j | 0 <= j < |front| :: front[j] == cards[j];
    }
  }

  function Taker(cards: seq<Card>, starter: Seat): Seat
    requires |cards| == 4
  {
    Place(starter, WinnerIndex(cards))
  }

  /** The taker is the one seat whose card is of the led suit and beats every other such card. */
  lemma TakerIsHighest(cards: seq<Card>, starter: Seat, t: Seat)
    requires |cards| == 4
    requires forall i, j | 0 <= i < j < 4 :: cards[i] != cards[j]
    ensures t == Taker(cards, starter) <==>
            var c := cards[Pos(starter, t)];
            && c.suit == cards[0].suit
            && forall u: Seat | u != t && cards[Pos(starter, u)].suit == c.suit :: cards[Pos(starter, u)].rank < c.rank
  {
    var w := WinnerIndex(cards);
    WinnerWins(cards);
    var p := Pos(starter, t);
    if t == Taker(cards, starter) {
      forall u: Seat | u != t && cards[Pos(starter, u)].suit == cards[p].suit
        ensures cards[Pos(starter, u)].rank < cards[p].rank
      {
        var q := Pos(starter, u);
        assert q != p;
        assert cards[q] != cards[p];
      }
    } else if cards[p].suit == cards[0].suit {
      var u := Taker(cards, starter);
      assert cards[Pos(starter, u)].suit == cards[p].suit && cards[p].rank <= cards[Pos(starter, u)].rank;
    }
  }

  /** Moving the starter round the table moves the taker by as much. */
  lemma TakerRotates(cards: seq<Card>, starter: Seat, k: nat)
    requires |cards| == 4
    ensures Taker(cards, (starter + k) % 4) == (Taker(cards, starter) + k) % 4
  {
  }

  // ---- The calculator itself -----------------------------------------------------------------

  /** The four cards in seat order, as the rotated arrays hold them. */
  ghost function BySeat(cards: seq<Card>, starter: Seat): (r: seq<Card>)
    requires |cards| == 4
    ensures |r| == 4 && forall s: Seat :: r[s] == cards[Pos(starter, s)]
  {
    [cards[Pos(starter, 0)], cards[Pos(starter, 1)], cards[Pos(starter, 2)], cards[Pos(starter, 3)]]
  }

  lemma RotationBag(row: seq<Card>, cards: seq<Card>, k: nat)
    requires k <= |cards| && row == cards[k..] + cards[..k]
    ensures multiset(row) == multiset(cards)
  {
    assert cards == cards[..k] + cards[k..];
  }

  lemma BySeatBag(cards: seq<Card>, starter: Seat)
    requires |cards| == 4
    ensures multiset(BySeat(cards, starter)) == multiset(cards)
  {
    var row, k := BySeat(cards, starter), 4 - starter;
    forall i | 0 <= i < 4 ensures row[i] == (cards[k..] + cards[..k])[i] {
      assert row[i] == cards[Pos(starter, i)];
    }
    RotationBag(row, cards, k);
  }

  class PointsCalculator {
    const kind: int
    const trick: int
    const starter: Seat
    const colors: array<Suit>
    const figures: array<int>
    ghost const played: seq<Card>

    ghost predicate Valid()
      reads colors, figures
    {
      && |played| == 4
      && colors.Length == figures.Length == 4
      && forall s: Seat :: colors[s] == BySeat(played, starter)[s].suit && figures[s] == BySeat(played, starter)[s].rank
    }

    constructor (cards: seq<Card>, starter: Seat, kind: int, trick: int)
      requires |cards| == 4
      ensures Valid() && fresh(colors) && fresh(figures)
      ensures this.played == cards && this.starter == starter && this.kind == kind && this.trick == trick
    {
      this.kind, this.trick, this.starter, this.played := kind, trick, starter, cards;
      colors := new Suit[4];
      figures := new int[4];
      new;
      for i := 0 to 4
        invariant colors.Length == figures.Length == 4
        invariant forall s: Seat | Pos(starter, s) < i ::
            colors[s] == cards[Pos(starter, s)].suit && figures[s] == cards[Pos(starter, s)].rank
      {
        PlaceMod(starter, i);
        colors[(starter + i) % 4] := cards[i].suit;
        figures[(starter + i) % 4] := cards[i].rank;
      }
    }

    method FindTaker() returns (taker: Seat)
      requires Valid()
      ensures taker == Taker(played, starter)
    {
      ghost var w := 0;
      taker := starter;
      var startingColor, maxFigure := colors[starter], figures[starter];
      for i := 1 to 4
        invariant w == WinnerIndex(played[..i]) && taker == Place(starter, w)
        invariant maxFigure == played[w].rank && startingColor == played[0].suit
      {
        var s: Seat := (starter + i) % 4;
        PlaceMod(starter, i);
        assert played[..i + 1][..i] == played[..i];
        if colors[s] == startingColor && figures[s] > maxFigure {
          maxFigure, taker, w := figures[s], s, i;
        }
      }
      assert played[..4] == played;
    }

    method NoTricks() returns (points: int)
      ensures points == 1 == TrickBonus(1, trick)
    {
      points := 1;
    }

    method NoHearts() returns (points: int)
      requires Valid()
      ensures points == Weight(2, played) == HowMany(played, (c: Card) => c.suit == Hearts)
    {
      WeightCounts(2, played, (c: Card) => c.suit == Hearts, 1);
      points := 0;
      ghost var row := BySeat(played, starter);
      for i := 0 to 4
        invariant points == Weight(2, row[..i])
      {
        assert row[..i + 1][..i] == row[..i];
        if colors[i] == Hearts { points := points + 1; }
      }
      FinishRule(2);
    }

    method NoQueens() returns (points: int)
      requires Valid()
      ensures points == Weight(3, played) == 5 * HowMany(played, (c: Card) => c.rank == 12)
    {
      WeightCounts(3, played, (c: Card) => c.rank == 12, 5);
      points := 0;
      ghost var row := BySeat(played, starter);
      for i := 0 to 4
        invariant points == Weight(3, row[..i])
      {
        assert row[..i + 1][..i] == row[..i];
        if figures[i] == 12 { points := points + 5; }
      }
      FinishRule(3);
    }

    method NoMisters() returns (points: int)
      requires Valid()
      ensures points == Weight(4, played) == 2 * HowMany(played, (c: Card) => c.rank == 11 || c.rank == 13)
    {
      WeightCounts(4, played, (c: Card) => c.rank == 11 || c.rank == 13, 2);
      points := 0;
      ghost var row := BySeat(played, starter);
      for i := 0 to 4
        invariant points == Weight(4, row[..i])
      {
        assert row[..i + 1][..i] == row[..i];
        if figures[i] == 11 || figures[i] == 13 { points := points + 2; }
      }
      FinishRule(4);
    }

    method NoHeartsKing() returns (points: int)
      requires Valid()
      ensures points == Weight(5, played) == 18 * HowMany(played, (c: Card) => c == Card(13, Hearts))
    {
      WeightCounts(5, played, (c: Card) => c == Card(13, Hearts), 18);
      points := 0;
      ghost var row := BySeat(played, starter);
      for i := 0 to 4
        invariant points == Weight(5, row[..i])
      {
        assert row[..i + 1][..i] == row[..i];
        if colors[i] == Hearts && figures[i] == 13 { points := points + 18; }
      }
      FinishRule(5);
    }

    /** The bonus is added inside the loop, once per seat. */
    method NoSeventhLastTrick() returns (points: int)
      ensures points == (if trick == 7 || trick == 13 then 40 else 0) == TrickBonus(6, trick)
    {
      points := 0;
      for i := 0 to 4
        invariant points == if trick == 7 || trick == 13 then 10 * i else 0
      {
        if trick == 7 || trick == 13 { points := points + 10; }
      }
    }

    method Bandit() returns (points: int)
      requires Valid()
      ensures points == TrickPoints(7, trick, played)
    {
      points := 0;
      var p := NoTricks();
      points := points + p;
      p := NoHearts();
      points := points + p;
      p := NoQueens();
      points := points + p;
      p := NoMisters();
      points := points + p;
      p := NoHeartsKing();
      points := points + p;
      p := NoSeventhLastTrick();
      points := points + p;
      WeightBandit(played);
      assert TrickBonus(7, trick) == 1 + TrickBonus(6, trick);
    }

    method CalculatePoints() returns (taker: Seat, points: int)
      requires Valid()
      ensures taker == Taker(played, starter)
      ensures points == if 1 <= kind <= 7 then TrickPoints(kind, trick, played) else -1
    {
      taker := FindTaker();
      WeightBandit(played);
      if kind == 1 { points := NoTricks(); }
      else if kind == 2 { points := NoHearts(); }
      else if kind == 3 { points := NoQueens(); }
      else if kind == 4 { points := NoMisters(); }
      else if kind == 5 { points := NoHeartsKing(); }
      else if kind == 6 { points := NoSeventhLastTrick(); }
      else if kind == 7 { points := Bandit(); }
      else { points := -1; }
    }

    lemma FinishRule(rule: int)
      requires Valid()
      ensures Weight(rule, BySeat(played, starter)[..4]) == Weight(rule, played)
    {
      var row := BySeat(played, starter);
      assert row[..4] == row;
      BySeatBag(played, starter);
      WeightOfBag(rule, row, played);
    }
  }

  // ---- A whole pack -------------------------------------------------------------------------

  /** Points of all thirteen tricks of a deal, as coded. */
  function DealTotal(kind: int): nat {
    match kind
    case 1 => 13
    case 2 => 13
    case 3 => 20
    case 4 => 16
    case 5 => 18
    case 6 => 80
    case 7 => 160
    case _ => 0
  }

  lemma {:induction false} SuitWeight(kind: int, suit: Suit, r: int)
    requires 2 <= r && 2 <= kind <= 5
    ensures Weight(kind, SuitFrom(suit, r)) ==
            match kind
            case 2 => if suit == Hearts && r <= 14 then 15 - r else 0
            case 3 => if r <= 12 then 5 else 0
            case 4 => if r <= 11 then 4 else if r <= 13 then 2 else 0
            case _ => if suit == Hearts && r <= 13 then 18 else 0
    decreases 15 - r
  {
    if r <= 14 {
      var c, rest := Card(r, suit), SuitFrom(suit, r + 1);
      SuitWeight(kind, suit, r + 1);
      assert SuitFrom(suit, r) == [c] + rest;
      assert Weight(kind, [c]) == CardWeight(kind, c);
      hide Weight, SuitFrom;
      WeightAppend(kind, [c], rest);
    }
  }

  lemma DeckWeight(kind: int)
    requires 1 <= kind <= 7
    ensures Weight(kind, Deck()) == match kind case 1 => 0 case 6 => 0 case 7 => 67 case _ => DealTotal(kind)
  {
    WeightBandit(Deck());
    forall k | 2 <= k <= 5 ensures Weight(k, Deck()) == DealTotal(k) {
      SuitWeight(k, Clubs, 2);
      SuitWeight(k, Diamonds, 2);
      SuitWeight(k, Hearts, 2);
      SuitWeight(k, Spades, 2);
      WeightAppend(k, SuitFrom(Clubs, 2), SuitFrom(Diamonds, 2));
      WeightAppend(k, SuitFrom(Clubs, 2) + SuitFrom(Diamonds, 2), SuitFrom(Hearts, 2));
      WeightAppend(k, SuitFrom(Clubs, 2) + SuitFrom(Diamonds, 2) + SuitFrom(Hearts, 2), SuitFrom(Spades, 2));
    }
  }
}
