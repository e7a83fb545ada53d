/** regex.cpp and the texts of cards, seats and numbers: how they are written and how they are found again. */
module Text {
  import opened Cards

  const CRLF := "\r\n"

  // ---- Numbers --------------------------------------------------------------------------------------------

  predicate IsDigit(c: char) {
    '0' <= c <= '9'
  }

  function Digit(d: nat): (c: char)
    requires d < 10
    ensures IsDigit(c) && DigitValue(c) == d
  {
    '0' + d as char
  }

  function DigitValue(c: char): (d: nat)
    requires IsDigit(c)
    ensures d < 10
  {
    (c - '0') as nat
  }

  /** `std::to_string` of a number that is not negative. */
  function NatText(n: nat): (s: string)
    ensures s != [] && IsDigit(s[0])
  {
    if n < 10 then [Digit(n)] else NatText(n / 10) + [Digit(n % 10)]
  }

  predicate AllDigits(s: string) {
    forall i | 0 <= i < |s| :: IsDigit(s[i])
  }

  function Value(s: string): nat
    requires AllDigits(s)
  {
    if s == [] then 0 else 10 * Value(s[..|s| - 1]) + DigitValue(s[|s| - 1])
  }

  /** Length of the run of digits at the start. */
  function DigitRun(s: string): (k: nat)
    ensures k <= |s| && AllDigits(s[..k]) && (k < |s| ==> !IsDigit(s[k]))
  {
    if s != [] && IsDigit(s[0]) then
      assert forall i | 0 < i < 1 + DigitRun(s[1..]) :: s[i] == s[1..][i - 1];
      1 + DigitRun(s[1..])
    else 0
  }

  /** `std::stoi` of a text that starts with a digit: what follows the digits is ignored. */
  function Stoi(s: string): nat
    requires s != [] && IsDigit(s[0])
  {
    Value(s[..DigitRun(s)])
  }

  lemma {:induction false} NatDigits(n: nat)
    ensures AllDigits(NatText(n)) && Value(NatText(n)) == n
  {
    if n >= 10 {
      NatDigits(n / 10);
      assert NatText(n)[..|NatText(n)| - 1] == NatText(n / 10);
    }
  }

  /** Digits up to a character that is none. */
  lemma {:induction false} RunEnds(a: string, b: string)
    requires AllDigits(a) && (b != [] ==> !IsDigit(b[0]))
    ensures DigitRun(a + b) == |a|
  {
    if a == [] {
      assert a + b == b;
    } else {
      assert (a + b)[1..] == a[1..] + b;
      RunEnds(a[1..], b);
    }
  }

  /** A number is read back whatever text comes after it, as long as that starts with no digit. */
  lemma StoiNat(n: nat, rest: string)
    requires rest != [] ==> !IsDigit(rest[0])
    ensures Stoi(NatText(n) + rest) == n
  {
    NatDigits(n);
    RunEnds(NatText(n), rest);
    assert (NatText(n) + rest)[..|NatText(n)|] == NatText(n);
  }

  lemma TrickNumbers(n: nat)
    requires n < 100
    ensures n < 10 ==> NatText(n) == [Digit(n)]
    ensures n >= 10 ==> NatText(n) == [Digit(n / 10), Digit(n % 10)]
    ensures |NatText(n)| == if n < 10 then 1 else 2
  {
  }

  // ---- Seats and cards --------------------------------------------------------------------------------------

  predicate IsSeat(c: char) {
    c == 'N' || c == 'E' || c == 'S' || c == 'W'
  }

  function SeatChar(s: Seat): (c: char)
    ensures IsSeat(c)
  {
    match s
    case 0 => 'N'
    case 1 => 'E'
    case 2 => 'S'
    case _ => 'W'
  }

  /** `seats_to_array`. */
  function SeatOf(c: char): Seat
    requires IsSeat(c)
  {
    if c == 'N' then 0 else if c == 'E' then 1 else if c == 'S' then 2 else 3
  }

  lemma SeatsInverse(s: Seat, c: char)
    ensures SeatOf(SeatChar(s)) == s
    ensures IsSeat(c) ==> SeatChar(SeatOf(c)) == c
  {
  }

  predicate IsSuit(c: char) {
    c == 'C' || c == 'D' || c == 'H' || c == 'S'
  }

  function SuitChar(s: Suit): (c: char)
    ensures IsSuit(c)
  {
    match s
    case Clubs => 'C'
    case Diamonds => 'D'
    case Hearts => 'H'
    case Spades => 'S'
  }

  function SuitOf(c: char): Suit
    requires IsSuit(c)
  {
    if c == 'C' then Clubs else if c == 'D' then Diamonds else if c == 'H' then Hearts else Spades
  }

  /** Figures of one character. */
  predicate IsFigure(c: char) {
    '2' <= c <= '9' || c == 'J' || c == 'Q' || c == 'K' || c == 'A'
  }

  function RankText(r: Rank): string {
    if r < 10 then [Digit(r)] else match r case 10 => "10" case 11 => "J" case 12 => "Q" case 13 => "K" case _ => "A"
  }

  function CardText(c: Card): (t: string)
    ensures 2 <= |t| <= 3
  {
    RankText(c.rank) + [SuitChar(c.suit)]
  }

  /** The figure as `PointsCalculator` reads it: J, Q, K, A, otherwise a number. */
  function Figure(f: string): int
    requires f == "J" || f == "Q" || f == "K" || f == "A" || (f != [] && IsDigit(f[0]))
  {
    if f == "J" then 11
    else if f == "Q" then 12
    else if f == "K" then 13
    else if f == "A" then 14
    else Stoi(f)
  }

  /** Length of the card at the start of `s`, 0 if there is none: `([2-9]|1[0]|J|Q|K|A)[CDHS]`. */
  function LexCard(s: string): (k: nat)
    ensures k <= |s| && (k == 0 || k == 2 || k == 3)
  {
    if |s| >= 2 && IsFigure(s[0]) && IsSuit(s[1]) then 2
    else if |s| >= 3 && s[0] == '1' && s[1] == '0' && IsSuit(s[2]) then 3
    else 0
  }

  predicate IsCard(s: string) {
    s != [] && LexCard(s) == |s|
  }

  lemma FigureValue(r: Rank)
    ensures RankText(r) == "J" || RankText(r) == "Q" || RankText(r) == "K" || RankText(r) == "A" || IsDigit(RankText(r)[0])
    ensures Figure(RankText(r)) == r
  {
    if r <= 10 {
      StoiNat(r, []);
      assert NatText(r) + [] == RankText(r);
    }
  }

  /** A card is found at the start of any text that begins with it. */
  lemma CardLexes(c: Card, rest: string)
    ensures LexCard(CardText(c) + rest) == |CardText(c)|
    ensures IsCard(CardText(c))
  {
  }

  lemma OneDigitFigure(d: char)
    requires '2' <= d <= '9'
    ensures Figure([d]) == DigitValue(d) && RankText(DigitValue(d)) == [d]
  {
    FigureValue(DigitValue(d));
  }

  /** The card a text names: suit from the last character, rank from what precedes it. */
  function CardOf(s: string): (c: Card)
    requires IsCard(s)
    ensures CardText(c) == s
  {
    if |s| == 3 then
      FigureValue(10);
      assert s[..2] == "10";
      Card(10, SuitOf(s[2]))
    else
      assert s[..1] == [s[0]];
      if IsDigit(s[0]) then
        OneDigitFigure(s[0]);
        Card(Figure(s[..1]), SuitOf(s[1]))
      else
        Card(Figure(s[..1]), SuitOf(s[1]))
  }

  /** Different cards have different texts. */
  lemma CardsInverse(c: Card)
    ensures IsCard(CardText(c)) && CardOf(CardText(c)) == c
  {
    CardLexes(c, []);
    assert CardText(c) + [] == CardText(c);
    TextsDiffer(c, CardOf(CardText(c)));
  }

  lemma TextsDiffer(c: Card, d: Card)
    requires CardText(c) == CardText(d)
    ensures c == d
  {
    var n := |CardText(c)| - 1;
    assert CardText(c)[n] == CardText(d)[n];
    assert RankText(c.rank) == CardText(c)[..n] == CardText(d)[..n] == RankText(d.rank);
    FigureValue(c.rank);
    FigureValue(d.rank);
  }

  // ---- Rows of cards -----------------------------------------------------------------------------------------

  function CardsText(cards: seq<Card>): string {
    if cards == [] then [] else CardText(cards[0]) + CardsText(cards[1..])
  }

  function Texts(cards: seq<Card>): (r: seq<string>)
    ensures |r| == |cards| && forall i | 0 <= i < |r| :: r[i] == CardText(cards[i])
  {
    seq(|cards|, i requires 0 <= i < |cards| => CardText(cards[i]))
  }

  /** `(card){lo,hi}` over the whole text. */
  predicate CardRun(s: string, lo: nat, hi: nat) {
    if s == [] then lo == 0
    else
      var k := LexCard(s);
      k > 0 && hi > 0 && CardRun(s[k..], if lo > 0 then lo - 1 else 0, hi - 1)
  }

  lemma {:induction false} RunOfCards(cards: seq<Card>, lo: nat, hi: nat)
    requires lo <= |cards| <= hi
    ensures CardRun(CardsText(cards), lo, hi)
  {
    if cards != [] {
      var t, rest := CardText(cards[0]), CardsText(cards[1..]);
      CardLexes(cards[0], rest);
      assert (t + rest)[|t|..] == rest;
      RunOfCards(cards[1..], if lo > 0 then lo - 1 else 0, hi - 1);
    }
  }

  /** `extract_cards`: leftmost cards, one after another. */
  function Extract(s: string): seq<string> {
    if s == [] then []
    else
      var k := LexCard(s);
      if k > 0 then [s[..k]] + Extract(s[k..]) else Extract(s[1..])
  }

  method ExtractCards(s: string) returns (cards: seq<string>)
    ensures cards == Extract(s)
  {
    hide Extract, LexCard;
    ExtractNone();
    cards := [];
    var i := 0;
    while i < |s|
      invariant i <= |s| && cards + Extract(s[i..]) == Extract(s)
      decreases |s| - i
    {
      ExtractFrom(s, i);
      var k := LexCard(s[i..]);
      if k > 0 {
        cards := cards + [s[i..i + k]];
        i := i + k;
      } else {
        i := i + 1;
      }
    }
    assert s[i..] == [];
  }

  lemma ExtractNone()
    ensures Extract([]) == []
  {
  }

  lemma ExtractFrom(s: string, i: nat)
    requires i < |s|
    ensures var k := LexCard(s[i..]);
            Extract(s[i..]) == if k > 0 then [s[i..i + k]] + Extract(s[i + k..]) else Extract(s[i + 1..])
  {
    var k := LexCard(s[i..]);
    assert s[i..][..k] == s[i..i + k] && s[i..][k..] == s[i + k..] && s[i..][1..] == s[i + 1..];
    hide LexCard;
  }

  /** The scanner undoes the printing of cards, however many. */
  lemma {:induction false} ExtractInverse(cards: seq<Card>)
    ensures Extract(CardsText(cards)) == Texts(cards)
  {
    if cards != [] {
      var t, rest := CardText(cards[0]), CardsText(cards[1..]);
      CardLexes(cards[0], rest);
      assert (t + rest)[|t|..] == rest && (t + rest)[..|t|] == t;
      ExtractInverse(cards[1..]);
      assert Texts(cards) == [t] + Texts(cards[1..]);
    }
  }

  /** What is no part of a card is passed over. */
  lemma {:induction false} ExtractSkips(junk: string, s: string)
    requires forall i | 0 <= i < |junk| :: !IsFigure(junk[i]) && junk[i] != '1'
    ensures Extract(junk + s) == Extract(s)
  {
    if junk == [] {
      assert junk + s == s;
    } else {
      assert (junk + s)[1..] == junk[1..] + s;
      ExtractSkips(junk[1..], s);
    }
  }

  /** The cards that a list of card texts names. */
  predicate AllCards(texts: seq<string>) {
    forall i | 0 <= i < |texts| :: IsCard(texts[i])
  }

  function CardsOf(texts: seq<string>): (r: seq<Card>)
    requires AllCards(texts)
    ensures |r| == |texts| && forall i | 0 <= i < |r| :: r[i] == CardOf(texts[i])
  {
    seq(|texts|, i requires 0 <= i < |texts| => CardOf(texts[i]))
  }

  lemma {:induction false} ExtractFindsCards(s: string)
    ensures AllCards(Extract(s))
    decreases |s|
  {
    if s != [] {
      var k := LexCard(s);
      if k > 0 { ExtractFindsCards(s[k..]); } else { ExtractFindsCards(s[1..]); }
    }
  }

  /** What `extract_cards` finds, as cards. */
  function Found(s: string): seq<Card> {
    ExtractFindsCards(s);
    CardsOf(Extract(s))
  }

  lemma FoundInverse(cards: seq<Card>)
    ensures Found(CardsText(cards)) == cards
  {
    ExtractFindsCards(CardsText(cards));
    ExtractInverse(cards);
    forall i | 0 <= i < |cards| ensures Found(CardsText(cards))[i] == cards[i] {
      CardsInverse(cards[i]);
    }
  }

  lemma FoundFirst(s: string)
    requires LexCard(s) > 0
    ensures var k := LexCard(s);
            IsCard(s[..k]) && Found(s) == [CardOf(s[..k])] + Found(s[k..]) && CardText(CardOf(s[..k])) == s[..k]
  {
    var k := LexCard(s);
    assert IsCard(s[..k]);
    ExtractFindsCards(s);
    ExtractFindsCards(s[k..]);
    assert Extract(s) == [s[..k]] + Extract(s[k..]);
    hide Extract, CardOf, LexCard, IsCard, CardText;
  }

  lemma {:induction false} RunPrinted(s: string, lo: nat, hi: nat)
    requires lo <= hi && CardRun(s, lo, hi)
    ensures s == CardsText(Found(s)) && lo <= |Found(s)| <= hi
    decreases |s|
  {
    if s == [] {
      assert Extract(s) == [];
    } else {
      var k, lo1 := LexCard(s), if lo > 0 then lo - 1 else 0;
      assert k > 0 && hi > 0 && CardRun(s[k..], lo1, hi - 1);
      hide *;
      RunPrinted(s[k..], lo1, hi - 1);
      PrintedFirst(s, k);
    }
  }

  lemma PrintedFirst(s: string, k: nat)
    requires k == LexCard(s) > 0 && s[k..] == CardsText(Found(s[k..]))
    ensures s == CardsText(Found(s)) && |Found(s)| == |Found(s[k..])| + 1
  {
    FoundFirst(s);
    CardsCons(CardOf(s[..k]), Found(s[k..]));
    hide *;
    assert s == s[..k] + s[k..];
  }

  lemma CardsCons(c: Card, rest: seq<Card>)
    ensures CardsText([c] + rest) == CardText(c) + CardsText(rest)
  {
    assert ([c] + rest)[1..] == rest;
    hide CardText;
  }

  /** The grammar describes exactly the printed rows of cards, and extraction loses nothing of them. */
  lemma RunIsPrinted(s: string, lo: nat, hi: nat)
    requires lo <= hi
    ensures CardRun(s, lo, hi) <==> (s == CardsText(Found(s)) && lo <= |Found(s)| <= hi)
  {
    if CardRun(s, lo, hi) {
      RunPrinted(s, lo, hi);
    } else if s == CardsText(Found(s)) && lo <= |Found(s)| <= hi {
      RunOfCards(Found(s), lo, hi);
    }
    hide CardRun, Found, CardsText;
  }

  lemma CardsAppend(a: seq<Card>, c: Card)
    ensures CardsText(a + [c]) == CardsText(a) + CardText(c)
    decreases |a|
  {
    if a == [] {
      assert CardsText([c][1..]) == [];
    } else {
      CardsAppend(a[1..], c);
      assert (a + [c])[1..] == a[1..] + [c];
    }
  }

  lemma {:induction false} CardsLength(cards: seq<Card>)
    ensures 2 * |cards| <= |CardsText(cards)| <= 3 * |cards|
  {
    if cards != [] { CardsLength(cards[1..]); }
  }

  /** A row of cards starts with a figure of one character and its suit, or with 10. */
  lemma CardsStart(cards: seq<Card>)
    requires cards != []
    ensures CardsText(cards) != []
    ensures var c := CardsText(cards)[0]; IsFigure(c) || (c == '1' && |CardsText(cards)| > 1 && CardsText(cards)[1] == '0')
    ensures IsFigure(CardsText(cards)[0]) ==> IsSuit(CardsText(cards)[1])
  {
    assert CardsText(cards)[..2] == CardText(cards[0])[..2];
    assert CardsText(cards)[0] == CardText(cards[0])[0] && CardsText(cards)[1] == CardText(cards[0])[1];
  }

  /** Trick number and cards can be told apart although nothing separates them. */
  lemma NumberedInjective(n: nat, a: seq<Card>, m: nat, b: seq<Card>)
    requires 1 <= n <= 19 && 1 <= m <= 19
    requires NatText(n) + CardsText(a) == NatText(m) + CardsText(b)
    ensures n == m && a == b
  {
    TrickNumbers(n);
    TrickNumbers(m);
    var s, t := NatText(n) + CardsText(a), NatText(m) + CardsText(b);
    assert s[0] == t[0];
    if n < 10 && m >= 10 {
      ShortLong(n, a, m, b);
      assert false;
    } else if m < 10 && n >= 10 {
      ShortLong(m, b, n, a);
      assert false;
    }
    var k := |NatText(n)|;
    assert s[..k] == NatText(n) && t[..k] == NatText(m) && s[k..] == CardsText(a) && t[k..] == CardsText(b);
    StoiNat(n, []);
    StoiNat(m, []);
    assert NatText(n) + [] == NatText(m) + [];
    FoundInverse(a);
    FoundInverse(b);
  }

  lemma ShortLong(n: nat, a: seq<Card>, m: nat, b: seq<Card>)
    requires n < 10 <= m <= 19
    ensures NatText(n) + CardsText(a) != NatText(m) + CardsText(b)
  {
    TrickNumbers(n);
    TrickNumbers(m);
    var s, t := NatText(n) + CardsText(a), NatText(m) + CardsText(b);
    if a != [] {
      CardsStart(a);
      assert s[1] == CardsText(a)[0] && s[2] == CardsText(a)[1];
    }
    if b != [] {
      CardsStart(b);
      assert t[2] == CardsText(b)[0];
    }
  }
}
