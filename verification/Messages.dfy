/** senders.cpp and the checks of regex.cpp: how messages are printed, recognised and taken apart. */
module Messages {
  import opened Cards
  import opened Client
  import opened Text

  // ---- Scores ---------------------------------------------------------------------------------------------

  datatype SeatScore = SeatScore(seat: Seat, points: nat)

  function PairText(p: SeatScore): string {
    [SeatChar(p.seat)] + NatText(p.points)
  }

  function PairsText(ps: seq<SeatScore>): string {
    if ps == [] then [] else PairText(ps[0]) + PairsText(ps[1..])
  }

  function PairTexts(ps: seq<SeatScore>): (r: seq<string>)
    ensures |r| == |ps| && forall i | 0 <= i < |r| :: r[i] == PairText(ps[i])
  {
    seq(|ps|, i requires 0 <= i < |ps| => PairText(ps[i]))
  }

  /** Length of the seat with its number at the start of `s`, 0 if there is none: `[NESW]\d+`. */
  function LexPair(s: string): (k: nat)
    ensures k <= |s| && (k > 0 ==> k >= 2 && IsSeat(s[0]) && IsDigit(s[1]))
  {
    if |s| >= 2 && IsSeat(s[0]) && IsDigit(s[1]) then 1 + DigitRun(s[1..]) else 0
  }

  /** `([NESW]\d+){n}` over the whole text. */
  predicate PairRun(s: string, n: nat) {
    if s == [] then n == 0
    else
      var k := LexPair(s);
      k > 0 && n > 0 && PairRun(s[k..], n - 1)
  }

  /** `extract_seat_score`: leftmost pairs, one after another. */
  function ExtractPairs(s: string): seq<string> {
    if s == [] then []
    else
      var k := LexPair(s);
      if k > 0 then [s[..k]] + ExtractPairs(s[k..]) else ExtractPairs(s[1..])
  }

  method ExtractSeatScore(s: string) returns (pairs: seq<string>)
    ensures pairs == ExtractPairs(s)
  {
    hide ExtractPairs, LexPair;
    PairsNone();
    pairs := [];
    var i := 0;
    while i < |s|
      invariant i <= |s| && pairs + ExtractPairs(s[i..]) == ExtractPairs(s)
      decreases |s| - i
    {
      PairsFrom(s, i);
      var k := LexPair(s[i..]);
      if k > 0 {
        pairs := pairs + [s[i..i + k]];
        i := i + k;
      } else {
        i := i + 1;
      }
    }
    assert s[i..] == [];
  }

  lemma PairsNone()
    ensures ExtractPairs([]) == []
  {
  }

  lemma PairsFrom(s: string, i: nat)
    requires i < |s|
    ensures var k := LexPair(s[i..]);
            ExtractPairs(s[i..]) == if k > 0 then [s[i..i + k]] + ExtractPairs(s[i + k..]) else ExtractPairs(s[i + 1..])
  {
    var k := LexPair(s[i..]);
    assert s[i..][..k] == s[i..i + k] && s[i..][k..] == s[i + k..] && s[i..][1..] == s[i + 1..];
    hide LexPair;
  }

  lemma PairLexes(p: SeatScore, rest: string)
    requires rest != [] ==> !IsDigit(rest[0])
    ensures LexPair(PairText(p) + rest) == |PairText(p)|
  {
    var s := PairText(p) + rest;
    assert s[1..] == NatText(p.points) + rest;
    NatDigits(p.points);
    RunEnds(NatText(p.points), rest);
  }

  /** The scanner undoes the printing of any list of seats with numbers, and the grammar accepts it. */
  lemma {:induction false} PairsInverse(ps: seq<SeatScore>)
    ensures ExtractPairs(PairsText(ps)) == PairTexts(ps)
    ensures PairRun(PairsText(ps), |ps|)
  {
    if ps != [] {
      var t, rest := PairText(ps[0]), PairsText(ps[1..]);
      PairLexes(ps[0], rest);
      assert (t + rest)[|t|..] == rest && (t + rest)[..|t|] == t;
      PairsInverse(ps[1..]);
      assert PairTexts(ps) == [t] + PairTexts(ps[1..]);
    }
  }

  predicate IsPair(s: string) {
    s != [] && LexPair(s) == |s|
  }

  /** A pair is a seat and at least one digit, and nothing else. */
  lemma PairExactly(s: string)
    ensures IsPair(s) <==> |s| >= 2 && IsSeat(s[0]) && AllDigits(s[1..])
  {
    if s != [] {
      if AllDigits(s[1..]) {
        RunEnds(s[1..], []);
        assert s[1..] + [] == s[1..];
      }
      assert IsPair(s) ==> s[1..][..|s| - 1] == s[1..];
    }
  }

  function Concat(texts: seq<string>): string {
    if texts == [] then [] else texts[0] + Concat(texts[1..])
  }

  /** The grammar of scores describes exactly the texts that are `n` pairs one after another. */
  lemma {:induction false} PairRunExactly(s: string, n: nat)
    ensures PairRun(s, n) <==> Concat(ExtractPairs(s)) == s && |ExtractPairs(s)| == n
    decreases |s|
  {
    if s != [] {
      var k := LexPair(s);
      if k > 0 {
        var rest := ExtractPairs(s[k..]);
        assert ExtractPairs(s) == [s[..k]] + rest && ([s[..k]] + rest)[1..] == rest;
        assert s == s[..k] + s[k..];
        assert Concat(ExtractPairs(s)) == s[..k] + Concat(rest);
        assert Concat(ExtractPairs(s)) == s <==> Concat(rest) == s[k..] by { SameFront(s[..k], Concat(rest), s[k..]); }
        if n > 0 { PairRunExactly(s[k..], n - 1); }
      } else {
        PairsShorter(s[1..]);
      }
    }
  }

  lemma SameFront(a: string, b: string, c: string)
    ensures a + b == a + c <==> b == c
  {
    assert (a + b)[|a|..] == b && (a + c)[|a|..] == c;
  }

  lemma {:induction false} PairsShorter(s: string)
    ensures |Concat(ExtractPairs(s))| <= |s|
    decreases |s|
  {
    if s != [] {
      var k := LexPair(s);
      PairsShorter(if k > 0 then s[k..] else s[1..]);
    }
  }

  predicate AllPairs(texts: seq<string>) {
    forall i | 0 <= i < |texts| :: IsPair(texts[i])
  }

  /** The points a list of pairs gives to seat `s`; a later pair counts before an earlier one. */
  function PointsFor(texts: seq<string>, s: Seat): nat
    requires AllPairs(texts)
  {
    if texts == [] then 0
    else
      var n := |texts| - 1;
      var last := texts[n];
      if SeatOf(last[0]) == s then Stoi(last[1..]) else PointsFor(texts[..n], s)
  }

  lemma PairTextIsPair(p: SeatScore)
    ensures var t := PairText(p); IsPair(t) && SeatOf(t[0]) == p.seat && Stoi(t[1..]) == p.points
  {
    PairLexes(p, []);
    assert PairText(p) + [] == PairText(p);
    assert PairText(p)[1..] == NatText(p.points) + [];
    StoiNat(p.points, []);
    SeatsInverse(p.seat, 'N');
  }

  lemma {:induction false} ExtractFindsPairs(s: string)
    ensures AllPairs(ExtractPairs(s))
    decreases |s|
  {
    if s != [] {
      var k := LexPair(s);
      if k > 0 {
        PairPrefix(s);
        ExtractFindsPairs(s[k..]);
      } else {
        ExtractFindsPairs(s[1..]);
      }
    }
  }

  lemma PairPrefix(s: string)
    requires LexPair(s) > 0
    ensures IsPair(s[..LexPair(s)])
  {
    var k := LexPair(s);
    var run := s[1..][..k - 1];
    assert s[..k][1..] == run;
    RunEnds(run, []);
    assert run + [] == run;
  }

  /** `std::map` goes through its keys in alphabetical order: E, N, S, W. */
  function Keys(): seq<Seat> {
    [1, 0, 2, 3]
  }

  function Ordered(points: seq<int>): seq<SeatScore>
    requires |points| == 4 && forall i | 0 <= i < 4 :: points[i] >= 0
  {
    [SeatScore(1, points[1]), SeatScore(0, points[0]), SeatScore(2, points[2]), SeatScore(3, points[3])]
  }

  /** The scores a text of pairs stands for, by seat. */
  function PointsIn(s: string): seq<int> {
    ExtractFindsPairs(s);
    var texts := ExtractPairs(s);
    [PointsFor(texts, 0), PointsFor(texts, 1), PointsFor(texts, 2), PointsFor(texts, 3)]
  }

  /** The seats are named in the order E, N, S, W, each followed by its own points. */
  lemma ScoresInKeyOrder(head: string, points: seq<int>)
    requires |points| == 4 && forall i | 0 <= i < 4 :: points[i] >= 0
    ensures ScoresText(head, points)
            == head + "E" + NatText(points[1]) + "N" + NatText(points[0])
               + "S" + NatText(points[2]) + "W" + NatText(points[3]) + CRLF
  {
    var ps := Ordered(points);
    hide NatText;
    assert ps == [] + [ps[0]] + [ps[1]] + [ps[2]] + [ps[3]];
    PairsAppend([], ps[0]);
    PairsAppend([] + [ps[0]], ps[1]);
    PairsAppend([] + [ps[0]] + [ps[1]], ps[2]);
    PairsAppend([] + [ps[0]] + [ps[1]] + [ps[2]], ps[3]);
    hide PairsText;
  }

  lemma PointsForLast(texts: seq<string>, p: SeatScore, s: Seat)
    requires AllPairs(texts)
    ensures AllPairs(texts + [PairText(p)])
    ensures PointsFor(texts + [PairText(p)], s) == if p.seat == s then p.points else PointsFor(texts, s)
  {
    PairTextIsPair(p);
    assert (texts + [PairText(p)])[..|texts|] == texts;
  }

  lemma PointsInverse(points: seq<int>)
    requires |points| == 4 && forall i | 0 <= i < 4 :: points[i] >= 0
    ensures PointsIn(PairsText(Ordered(points))) == points
  {
    var ps := Ordered(points);
    PairsInverse(ps);
    ExtractFindsPairs(PairsText(ps));
    var t := PairTexts(ps);
    var t1, t2, t3 := [] + [t[0]], [] + [t[0]] + [t[1]], [] + [t[0]] + [t[1]] + [t[2]];
    assert t == t3 + [t[3]];
    hide PairText, PairsText, ExtractPairs, PointsFor;
    forall s: Seat ensures AllPairs(t) && PointsFor(t, s) == points[s] {
      PointsForLast([], ps[0], s);
      PointsForLast(t1, ps[1], s);
      PointsForLast(t2, ps[2], s);
      PointsForLast(t3, ps[3], s);
    }
  }

  // ---- Printing ---------------------------------------------------------------------------------------------

  function DealText(kind: nat, starter: Seat, hand: seq<Card>): string {
    "DEAL" + NatText(kind) + [SeatChar(starter)] + CardsText(hand) + CRLF
  }

  function TrickText(number: nat, cards: seq<Card>): string {
    "TRICK" + NatText(number) + CardsText(cards) + CRLF
  }

  function TakenText(number: nat, cards: seq<Card>, taker: Seat): string {
    "TAKEN" + NatText(number) + CardsText(cards) + [SeatChar(taker)] + CRLF
  }

  /** The seats that are taken already (senders.cpp:14). */
  function BusyText(seats: seq<Seat>): string {
    "BUSY" + seq(|seats|, i requires 0 <= i < |seats| => SeatChar(seats[i])) + CRLF
  }

  function WrongText(number: nat): string {
    "WRONG" + NatText(number) + CRLF
  }

  function ScoresText(head: string, points: seq<int>): string
    requires |points| == 4 && forall i | 0 <= i < 4 :: points[i] >= 0
  {
    head + PairsText(Ordered(points)) + CRLF
  }

  /** Appends cards one by one, as the senders do. */
  method AppendCards(head: string, cards: seq<Card>) returns (message: string)
    ensures message == head + CardsText(cards)
  {
    message := head;
    var i := 0;
    while i < |cards|
      invariant i <= |cards| && message == head + CardsText(cards[..i])
    {
      assert cards[..i + 1] == cards[..i] + [cards[i]];
      CardsAppend(cards[..i], cards[i]);
      message := message + CardText(cards[i]);
      i := i + 1;
    }
    assert cards[..i] == cards;
  }

  method SendDeal(kind: nat, starter: Seat, cards: seq<Card>) returns (message: string)
    ensures message == DealText(kind, starter, cards)
  {
    message := AppendCards("DEAL" + NatText(kind) + [SeatChar(starter)], cards);
    message := message + CRLF;
  }

  method SendTrick(number: nat, cards: seq<Card>) returns (message: string)
    ensures message == TrickText(number, cards)
  {
    message := AppendCards("TRICK" + NatText(number), cards);
    message := message + CRLF;
  }

  method SendTaken(number: nat, cards: seq<Card>, taker: Seat) returns (message: string)
    ensures message == TakenText(number, cards, taker)
  {
    message := AppendCards("TAKEN" + NatText(number), cards);
    message := message + [SeatChar(taker)] + CRLF;
  }

  method SendWrong(number: nat) returns (message: string)
    ensures message == WrongText(number)
  {
    message := "WRONG" + NatText(number) + CRLF;
  }

  lemma PairsAppend(a: seq<SeatScore>, p: SeatScore)
    ensures PairsText(a + [p]) == PairsText(a) + PairText(p)
    decreases |a|
  {
    if a == [] {
      assert PairsText([p][1..]) == [];
    } else {
      PairsAppend(a[1..], p);
      assert (a + [p])[1..] == a[1..] + [p];
    }
  }

  /** `send_score` and `send_total`, which differ in the word only. */
  method SendScores(head: string, points: seq<int>) returns (message: string)
    requires |points| == 4 && forall i | 0 <= i < 4 :: points[i] >= 0
    ensures message == ScoresText(head, points)
  {
    message := head;
    ghost var ps := Ordered(points);
    for i := 0 to 4
      invariant message == head + PairsText(ps[..i])
    {
      var s := Keys()[i];
      assert ps[i] == SeatScore(s, points[s]);
      assert ps[..i + 1] == ps[..i] + [ps[i]];
      PairsAppend(ps[..i], ps[i]);
      message := message + [SeatChar(s)] + NatText(points[s]);
    }
    assert ps[..4] == ps;
    message := message + CRLF;
  }

  /** What the server sends. */
  predicate WellFormed(m: ServerMessage) {
    match m
    case DealMsg(kind, _, hand) => 1 <= kind <= 7 && |hand| == 13
    case TrickMsg(n, table) => 1 <= n <= 13 && |table| <= 3
    case TakenMsg(n, trick, _) => 1 <= n <= 13 && |trick| == 4
    case ScoreMsg(points) => |points| == 4 && forall i | 0 <= i < 4 :: points[i] >= 0
    case TotalMsg(points) => |points| == 4 && forall i | 0 <= i < 4 :: points[i] >= 0
    case WrongMsg(n) => 0 <= n <= 13
  }

  function Print(m: ServerMessage): string
    requires WellFormed(m)
  {
    match m
    case DealMsg(kind, starter, hand) => DealText(kind, starter, hand)
    case TrickMsg(n, table) => TrickText(n, table)
    case TakenMsg(n, trick, taker) => TakenText(n, trick, taker)
    case ScoreMsg(points) => ScoresText("SCORE", points)
    case TotalMsg(points) => ScoresText("TOTAL", points)
    case WrongMsg(n) => WrongText(n)
  }

  // ---- Recognising --------------------------------------------------------------------------------------------

  /** Starts with `head`, ends with the line end, and has at least `n` characters in between. */
  predicate Framed(s: string, head: string, n: nat) {
    |s| >= |head| + n + 2 && s[..|head|] == head && s[|s| - 2..] == CRLF
  }

  predicate BusyCheck(s: string) {
    Framed(s, "BUSY", 0) && |s| <= 10 && forall i | 4 <= i < |s| - 2 :: IsSeat(s[i])
  }

  /** BUSY is recognised exactly when up to four seats are named. */
  lemma BusyExactly(s: string)
    ensures BusyCheck(s) <==> exists seats: seq<Seat> :: |seats| <= 4 && s == BusyText(seats)
  {
    if BusyCheck(s) {
      var mid := s[4..|s| - 2];
      var seats := seq(|mid|, i requires 0 <= i < |mid| => SeatOf(s[4 + i]));
      forall i | 0 <= i < |mid| ensures SeatChar(seats[i]) == mid[i] { SeatsInverse(seats[i], s[4 + i]); }
      assert s == s[..4] + mid + s[|s| - 2..] == BusyText(seats);
    }
    if seats: seq<Seat> :| |seats| <= 4 && s == BusyText(seats) {
      assert s[..4] == "BUSY" && s[|s| - 2..] == CRLF;
    }
  }

  predicate DealCheck(s: string) {
    Framed(s, "DEAL", 2) && '1' <= s[4] <= '7' && IsSeat(s[5]) && CardRun(s[6..|s| - 2], 13, 13)
  }

  predicate TrickCheck(s: string, n: nat) {
    var h := "TRICK" + NatText(n);
    Framed(s, h, 0) && CardRun(s[|h|..|s| - 2], 0, 3)
  }

  predicate WrongCheck(s: string) {
    && Framed(s, "WRONG", 1)
    && ((|s| == 8 && '1' <= s[5] <= '9') || (|s| == 9 && s[5] == '1' && '0' <= s[6] <= '3'))
  }

  predicate TakenCheck(s: string, n: nat) {
    var h := "TAKEN" + NatText(n);
    Framed(s, h, 1) && IsSeat(s[|s| - 3]) && CardRun(s[|h|..|s| - 3], 4, 4)
  }

  predicate ScoresCheck(s: string, head: string) {
    Framed(s, head, 0) && PairRun(s[|head|..|s| - 2], 4)
  }

  /** The spelling of every kind of message. */
  lemma Spelling()
    ensures DealText(7, 1, [Card(10, Spades), Card(14, Hearts)]) == "DEAL7E10SAH\r\n"
    ensures TrickText(12, [Card(10, Spades), Card(14, Hearts)]) == "TRICK1210SAH\r\n"
    ensures TakenText(3, [Card(10, Spades), Card(14, Hearts)], 3) == "TAKEN310SAHW\r\n"
    ensures WrongText(13) == "WRONG13\r\n" && BusyText([0, 2]) == "BUSYNS\r\n"
    ensures ScoresText("TOTAL", [18, 0, 5, 1073]) == "TOTALE0N18S5W1073\r\n"
  {
    hide NatText, CardsText, ScoresText;
    SpelledNumbers();
    SpelledPair();
    assert DealText(7, 1, [Card(10, Spades), Card(14, Hearts)]) == "DEAL7E10SAH\r\n";
    assert TrickText(12, [Card(10, Spades), Card(14, Hearts)]) == "TRICK1210SAH\r\n";
    hide *;
    SpelledScores();
  }

  lemma SpelledScores()
    ensures ScoresText("TOTAL", [18, 0, 5, 1073]) == "TOTALE0N18S5W1073\r\n"
  {
    hide NatText, ScoresText;
    SpelledNumbers();
    ScoresInKeyOrder("TOTAL", [18, 0, 5, 1073]);
  }

  lemma SpelledNumbers()
    ensures NatText(7) == "7" && NatText(12) == "12" && NatText(3) == "3" && NatText(13) == "13"
    ensures NatText(18) == "18" && NatText(0) == "0" && NatText(5) == "5" && NatText(1073) == "1073"
  {
    assert NatText(10) == "10" && NatText(107) == "107";
  }

  lemma SpelledPair()
    ensures CardsText([Card(10, Spades), Card(14, Hearts)]) == "10SAH"
  {
    CardsAppend([], Card(10, Spades));
    CardsAppend([Card(10, Spades)], Card(14, Hearts));
    hide CardsText;
  }

  /** The spelling of the figures and the suits. */
  lemma SpelledCards()
    ensures CardsText([Card(2, Clubs), Card(9, Hearts), Card(11, Diamonds)]) == "2C9HJD"
    ensures CardsText([Card(12, Spades), Card(13, Clubs), Card(14, Diamonds)]) == "QSKCAD"
  {
    SpelledThree(Card(2, Clubs), Card(9, Hearts), Card(11, Diamonds));
    SpelledThree(Card(12, Spades), Card(13, Clubs), Card(14, Diamonds));
    hide CardsText;
  }

  lemma SpelledThree(a: Card, b: Card, c: Card)
    ensures CardsText([a, b, c]) == CardText(a) + CardText(b) + CardText(c)
  {
    hide CardText;
    CardsAppend([], a);
    CardsAppend([a], b);
    CardsAppend([a, b], c);
    assert [] + [a] == [a] && [a] + [b] == [a, b] && [a, b] + [c] == [a, b, c];
  }

  // ---- Taking apart ---------------------------------------------------------------------------------------------

  datatype Decoded = Busy | Heard(m: ServerMessage) | Ignored

  /** The branches of `handle_client` in their order, with the widths it assumes for its own trick number. */
  function Decode(s: string, n: nat): Decoded
    requires 1 <= n < 100
  {
    TrickNumbers(n);
    if BusyCheck(s) then Busy
    else if DealCheck(s) then Heard(DealMsg(DigitValue(s[4]), SeatOf(s[5]), Found(s[6..|s| - 2])))
    else if WrongCheck(s) then Heard(WrongMsg(Stoi(s[5..|s| - 2])))
    else if TakenCheck(s, n) then
      Heard(TakenMsg(n, Found(if n < 10 then s[6..|s| - 3] else s[7..|s| - 3]), SeatOf(s[|s| - 3])))
    else if ScoresCheck(s, "SCORE") then Heard(ScoreMsg(PointsIn(s[5..|s| - 2])))
    else if ScoresCheck(s, "TOTAL") then Heard(TotalMsg(PointsIn(s[5..|s| - 2])))
    else if TrickCheck(s, n) then
      Heard(TrickMsg(n, if |s| <= 9 then [] else Found(if n < 10 then s[6..|s| - 2] else s[7..|s| - 2])))
    else Ignored
  }
}
