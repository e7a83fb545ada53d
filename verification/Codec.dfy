/** The client's decoder against the server's printers: a round trip, and exactly what is understood. */
module Codec {
  import opened Cards
  import opened Client
  import opened Text
  import opened Messages

  // ---- Texts between a head and a line end --------------------------------------------------------------------

  lemma FramedText(head: string, body: string, n: nat)
    requires n <= |body|
    ensures var s := head + body + CRLF; Framed(s, head, n) && s[|head|..|s| - 2] == body
  {
  }

  lemma FramedParts(s: string, head: string)
    requires Framed(s, head, 0)
    ensures s == head + s[|head|..|s| - 2] + CRLF
  {
    assert s == s[..|head|] + s[|head|..|s| - 2] + s[|s| - 2..];
  }

  /** The first two letters tell the kinds of messages apart. */
  lemma Heads(s: string, n: nat)
    ensures BusyCheck(s) ==> s[0] == 'B'
    ensures DealCheck(s) ==> s[0] == 'D'
    ensures WrongCheck(s) ==> s[0] == 'W'
    ensures TakenCheck(s, n) ==> s[0] == 'T' && s[1] == 'A'
    ensures ScoresCheck(s, "SCORE") ==> s[0] == 'S'
    ensures ScoresCheck(s, "TOTAL") ==> s[0] == 'T' && s[1] == 'O'
    ensures TrickCheck(s, n) ==> s[0] == 'T' && s[1] == 'R'
  {
    if BusyCheck(s) { assert s[0] == s[..4][0]; }
    if DealCheck(s) { assert s[0] == s[..4][0]; }
    if WrongCheck(s) { assert s[0] == s[..5][0]; }
    if ScoresCheck(s, "SCORE") { assert s[0] == s[..5][0]; }
    if ScoresCheck(s, "TOTAL") { assert s[0] == s[..5][0] && s[1] == s[..5][1]; }
    if TakenCheck(s, n) {
      var h := "TAKEN" + NatText(n);
      assert s[0] == s[..|h|][0] == h[0] && s[1] == s[..|h|][1] == h[1];
    }
    if TrickCheck(s, n) {
      var h := "TRICK" + NatText(n);
      assert s[0] == s[..|h|][0] == h[0] && s[1] == s[..|h|][1] == h[1];
    }
  }

  // ---- TAKEN ------------------------------------------------------------------------------------------------

  lemma TakenPrinted(n: nat, cards: seq<Card>, taker: Seat)
    requires |cards| == 4
    ensures var s := TakenText(n, cards, taker);
            && |s| > |NatText(n)| + 8
            && TakenCheck(s, n) && s[|s| - 3] == SeatChar(taker)
            && s[5 + |NatText(n)|..|s| - 3] == CardsText(cards)
  {
    var h, row := "TAKEN" + NatText(n), CardsText(cards);
    CardsLength(cards);
    RunOfCards(cards, 4, 4);
    hide CardsText, NatText, CardRun, TakenText, Framed, SeatChar;
    TakenJoined(n, cards, taker);
    LastLetter(h, row, SeatChar(taker));
  }

  lemma LastLetter(head: string, row: string, c: char)
    ensures var s := head + (row + [c]) + CRLF;
            Framed(s, head, 1) && s[|s| - 3] == c && s[|head|..|s| - 3] == row
  {
    FramedText(head, row + [c], 1);
    var s := head + (row + [c]) + CRLF;
    assert s[|head|..|s| - 3] == s[|head|..|s| - 2][..|row|];
  }

  lemma TakenExact(s: string, n: nat)
    requires TakenCheck(s, n)
    ensures var h := 5 + |NatText(n)|;
            && |s| >= h + 3
            && var cards := Found(s[h..|s| - 3]);
               |cards| == 4 && s == TakenText(n, cards, SeatOf(s[|s| - 3]))
  {
    var h := "TAKEN" + NatText(n);
    FramedParts(s, h);
    var body, seat := s[|h|..|s| - 3], s[|s| - 3];
    assert CardRun(body, 4, 4) && IsSeat(seat);
    hide *;
    RunIsPrinted(body, 4, 4);
    SeatsInverse(0, seat);
    SplitLast(s, |h|);
    TakenJoined(n, Found(body), SeatOf(seat));
  }

  lemma SplitLast(s: string, h: nat)
    requires h + 3 <= |s|
    ensures s[h..|s| - 2] == s[h..|s| - 3] + [s[|s| - 3]]
  {
  }

  lemma TakenJoined(n: nat, cards: seq<Card>, taker: Seat)
    ensures TakenText(n, cards, taker) == ("TAKEN" + NatText(n)) + (CardsText(cards) + [SeatChar(taker)]) + CRLF
  {
    hide NatText, CardsText;
  }

  lemma SameMiddle(head: string, x: string, y: string, a: string, b: string)
    requires head + x + a == head + y + b && |a| == |b|
    ensures x == y
  {
    var s, t := head + x + a, head + y + b;
    assert s[|head|..|s| - |a|] == x && t[|head|..|t| - |b|] == y;
  }

  /** TAKEN is understood exactly with the number it was printed with. */
  lemma TakenOnlyOwn(k: nat, cards: seq<Card>, taker: Seat, n: nat)
    requires 1 <= k <= 19 && 1 <= n <= 19 && |cards| == 4
    ensures TakenCheck(TakenText(k, cards, taker), n) <==> n == k
  {
    hide TakenCheck, NatText, CardsText, TakenText, Found;
    TakenPrinted(k, cards, taker);
    var s := TakenText(k, cards, taker);
    if TakenCheck(s, n) {
      TakenExact(s, n);
      var b, u := Found(s[5 + |NatText(n)|..|s| - 3]), SeatOf(s[|s| - 3]);
      TakenShape(n, b, u);
      TakenShape(k, cards, taker);
      SameMiddle("TAKEN", NatText(n) + CardsText(b), NatText(k) + CardsText(cards), [SeatChar(u)] + CRLF, [SeatChar(taker)] + CRLF);
      NumberedInjective(n, b, k, cards);
    }
  }

  lemma TakenShape(n: nat, cards: seq<Card>, taker: Seat)
    ensures TakenText(n, cards, taker) == "TAKEN" + (NatText(n) + CardsText(cards)) + ([SeatChar(taker)] + CRLF)
  {
    hide NatText, CardsText;
  }

  // ---- TRICK ------------------------------------------------------------------------------------------------

  lemma TrickPrinted(n: nat, cards: seq<Card>)
    requires |cards| <= 3
    ensures var s := TrickText(n, cards);
            && |s| == |NatText(n)| + 7 + |CardsText(cards)|
            && TrickCheck(s, n) && s[5 + |NatText(n)|..|s| - 2] == CardsText(cards)
  {
    var h := "TRICK" + NatText(n);
    RunOfCards(cards, 0, 3);
    FramedText(h, CardsText(cards), 0);
    assert h + CardsText(cards) + CRLF == TrickText(n, cards);
    hide CardsText, NatText, CardRun;
  }

  lemma TrickExact(s: string, n: nat)
    requires TrickCheck(s, n)
    ensures var h := 5 + |NatText(n)|;
            && |s| >= h + 2
            && var cards := Found(s[h..|s| - 2]);
               |cards| <= 3 && s == TrickText(n, cards)
  {
    var h := "TRICK" + NatText(n);
    FramedParts(s, h);
    RunIsPrinted(s[|h|..|s| - 2], 0, 3);
    hide Found, CardsText, NatText, CardRun;
  }

  lemma TrickOnlyOwn(k: nat, cards: seq<Card>, n: nat)
    requires 1 <= k <= 19 && 1 <= n <= 19 && |cards| <= 3
    ensures TrickCheck(TrickText(k, cards), n) <==> n == k
  {
    hide TrickCheck, NatText, CardsText, TrickText, Found;
    TrickPrinted(k, cards);
    var s := TrickText(k, cards);
    if TrickCheck(s, n) {
      TrickExact(s, n);
      var b := Found(s[5 + |NatText(n)|..|s| - 2]);
      TrickShape(n, b);
      TrickShape(k, cards);
      SameMiddle("TRICK", NatText(n) + CardsText(b), NatText(k) + CardsText(cards), CRLF, CRLF);
      NumberedInjective(n, b, k, cards);
    }
  }

  lemma TrickShape(n: nat, cards: seq<Card>)
    ensures TrickText(n, cards) == "TRICK" + (NatText(n) + CardsText(cards)) + CRLF
  {
    hide NatText, CardsText;
  }

  /** A TRICK of at most nine characters is one without cards. */
  lemma ShortTrick(n: nat, cards: seq<Card>)
    requires 1 <= n < 100 && |cards| <= 3
    ensures |TrickText(n, cards)| <= 9 <==> cards == []
  {
    TrickNumbers(n);
    CardsLength(cards);
  }

  // ---- DEAL -------------------------------------------------------------------------------------------------

  lemma DealPrinted(kind: nat, starter: Seat, hand: seq<Card>)
    requires 1 <= kind <= 7 && |hand| == 13
    ensures var s := DealText(kind, starter, hand);
            && |s| > 8 && DealCheck(s) && s[4] == Digit(kind) && s[5] == SeatChar(starter)
            && s[6..|s| - 2] == CardsText(hand)
  {
    var t := CardsText(hand);
    CardsLength(hand);
    RunOfCards(hand, 13, 13);
    DealJoined(kind, starter, hand);
    var head := [Digit(kind), SeatChar(starter)];
    hide CardsText, CardRun, NatText, DealText;
    FramedText("DEAL", head + t, 2);
    var s := "DEAL" + (head + t) + CRLF;
    assert s[6..|s| - 2] == t;
  }

  lemma DealJoined(kind: nat, starter: Seat, hand: seq<Card>)
    requires kind < 10
    ensures DealText(kind, starter, hand) == "DEAL" + ([Digit(kind), SeatChar(starter)] + CardsText(hand)) + CRLF
  {
    TrickNumbers(kind);
    hide CardsText;
  }

  lemma DealExact(s: string)
    requires DealCheck(s)
    ensures var hand := Found(s[6..|s| - 2]);
            |s| >= 8 && |hand| == 13 && 1 <= DigitValue(s[4]) <= 7 && s == DealText(DigitValue(s[4]), SeatOf(s[5]), hand)
  {
    FramedParts(s, "DEAL");
    var kind, seat, row := DigitValue(s[4]), s[5], s[6..|s| - 2];
    assert CardRun(row, 13, 13) && IsSeat(seat) && 1 <= kind <= 7 && s[4] == Digit(kind);
    assert s[4..|s| - 2] == [s[4], seat] + row;
    hide *;
    RunIsPrinted(row, 13, 13);
    SeatsInverse(0, seat);
    DealJoined(kind, SeatOf(seat), Found(row));
  }

  // ---- WRONG and the scores -------------------------------------------------------------------------------------

  lemma WrongPrinted(k: nat)
    requires k <= 13
    ensures var s := WrongText(k); WrongCheck(s) <==> k > 0
    ensures var s := WrongText(k); |s| > 7 && s[0] == 'W' && s[5..|s| - 2] == NatText(k) + [] && Stoi(s[5..|s| - 2]) == k
  {
    TrickNumbers(k);
    StoiNat(k, []);
    FramedText("WRONG", NatText(k), 1);
  }

  lemma WrongExact(s: string)
    requires WrongCheck(s)
    ensures var k := Stoi(s[5..|s| - 2]); 1 <= k <= 13 && s == WrongText(k)
  {
    FramedParts(s, "WRONG");
    var body := s[5..|s| - 2];
    var k := if |s| == 8 then DigitValue(s[5]) else 10 + DigitValue(s[6]);
    TrickNumbers(k);
    StoiNat(k, []);
    assert body == NatText(k) + [];
  }

  lemma ScoresPrinted(head: string, points: seq<int>)
    requires |head| == 5 && |points| == 4 && forall i | 0 <= i < 4 :: points[i] >= 0
    ensures var s := ScoresText(head, points);
            |s| >= 7 && ScoresCheck(s, head) && PointsIn(s[5..|s| - 2]) == points && s[..5] == head
  {
    var body := PairsText(Ordered(points));
    PairsInverse(Ordered(points));
    PointsInverse(points);
    FramedText(head, body, 0);
  }

  // ---- The round trip -------------------------------------------------------------------------------------------

  /** TRICK and TAKEN of another trick, and WRONG of trick 0 (sent before the first trick of a deal), are not
      understood; everything else is. */
  predicate Understood(m: ServerMessage, n: nat) {
    match m
    case TrickMsg(k, _) => k == n
    case TakenMsg(k, _, _) => k == n
    case WrongMsg(k) => k > 0
    case _ => true
  }

  /** Whatever the server prints, the client understands exactly that message, or ignores it when it belongs to
      another trick. */
  lemma DecodePrint(m: ServerMessage, n: nat)
    requires WellFormed(m) && 1 <= n <= 19
    ensures Decode(Print(m), n) == if Understood(m, n) then Heard(m) else Ignored
  {
    Heads(Print(m), n);
    hide BusyCheck, DealCheck, WrongCheck, TakenCheck, ScoresCheck, TrickCheck, CardsText, Stoi, Found, PointsIn, PairsText;
    match m
    case DealMsg(kind, starter, hand) =>
      DealPrinted(kind, starter, hand);
      FoundInverse(hand);
      SeatsInverse(starter, 'N');
    case WrongMsg(k) => WrongPrinted(k);
    case ScoreMsg(points) =>
      ScoresPrinted("SCORE", points);
      assert Print(m)[0] == Print(m)[..5][0];
    case TotalMsg(points) =>
      ScoresPrinted("TOTAL", points);
      assert Print(m)[0] == Print(m)[..5][0] && Print(m)[1] == Print(m)[..5][1];
    case TakenMsg(k, cards, taker) => DecodeTaken(k, cards, taker, n);
    case TrickMsg(k, cards) => DecodeTrick(k, cards, n);
  }

  lemma DecodeTaken(k: nat, cards: seq<Card>, taker: Seat, n: nat)
    requires 1 <= k <= 13 && |cards| == 4 && 1 <= n <= 19
    ensures Decode(TakenText(k, cards, taker), n) == if n == k then Heard(TakenMsg(k, cards, taker)) else Ignored
  {
    var s := TakenText(k, cards, taker);
    Heads(s, n);
    TakenPrinted(k, cards, taker);
    TakenOnlyOwn(k, cards, taker, n);
    TrickNumbers(k);
    FoundInverse(cards);
    SeatsInverse(taker, 'N');
    assert s[0] == 'T' && s[1] == 'A';
    hide BusyCheck, DealCheck, WrongCheck, TakenCheck, ScoresCheck, TrickCheck, CardsText, Found, PointsIn, NatText, TakenText;
  }

  lemma DecodeTrick(k: nat, cards: seq<Card>, n: nat)
    requires 1 <= k <= 13 && |cards| <= 3 && 1 <= n <= 19
    ensures Decode(TrickText(k, cards), n) == if n == k then Heard(TrickMsg(k, cards)) else Ignored
  {
    var s := TrickText(k, cards);
    Heads(s, n);
    TrickPrinted(k, cards);
    TrickOnlyOwn(k, cards, n);
    TrickNumbers(k);
    ShortTrick(k, cards);
    FoundInverse(cards);
    assert s[0] == 'T' && s[1] == 'R';
    hide BusyCheck, DealCheck, WrongCheck, TakenCheck, ScoresCheck, TrickCheck, CardsText, Found, PointsIn, NatText, TrickText;
  }

  /** Conversely a text heard as DEAL, TRICK, TAKEN or WRONG is the printed form of just that message. */
  lemma HeardIsPrinted(s: string, n: nat)
    requires 1 <= n <= 13 && Decode(s, n).Heard?
    ensures var m := Decode(s, n).m;
            m.ScoreMsg? || m.TotalMsg? || (WellFormed(m) && Understood(m, n) && Print(m) == s)
  {
    hide BusyCheck, DealCheck, WrongCheck, TakenCheck, ScoresCheck, TrickCheck, CardsText, Found, PointsIn, NatText, TakenText, TrickText, DealText, WrongText, Stoi;
    TrickNumbers(n);
    if DealCheck(s) {
      DealExact(s);
    } else if WrongCheck(s) {
      WrongExact(s);
    } else if TakenCheck(s, n) {
      TakenExact(s, n);
    } else if TrickCheck(s, n) {
      TrickExact(s, n);
      var cards := Found(s[5 + |NatText(n)|..|s| - 2]);
      ShortTrick(n, cards);
    }
  }

  // ---- Receiving texts ----------------------------------------------------------------------------------------

  /** One turn of `handle_client` on the text read from the socket. */
  function ReceiveText(v: View, s: string): (View, Option<Card>)
    requires 1 <= v.trickNumber < 100
  {
    match Decode(s, v.trickNumber)
    case Heard(m) => Receive(v, m)
    case _ => (v, None)
  }

  /** Through the wire a client does just what it would do on the message itself. */
  lemma TextIsMessage(v: View, m: ServerMessage)
    requires WellFormed(m) && 1 <= v.trickNumber <= 14
    ensures ReceiveText(v, Print(m)) == Receive(v, m)
  {
    DecodePrint(m, v.trickNumber);
    hide Decode, Print;
  }

  /** `handle_client` for one message: the reply to a TRICK carries the client's own trick number, and the card
      its strategy picked, or none when the hand is empty. */
  method HandleMessage(k: Klient, message: string) returns (reply: Option<string>, closed: bool)
    requires 1 <= k.trickNumber < 100
    modifies k
    ensures closed <==> BusyCheck(message)
    ensures k.State() == ReceiveText(old(k.State()), message).0
    ensures reply == Reply(old(k.State()), message)
  {
    TrickNumbers(k.trickNumber);
    hide CardRun, PairRun, Extract, Found, NatText, TrickText, PointsIn, EraseEach, Answer, IsSeat, Stoi, AllCards, CardsOf;
    reply, closed := None, false;
    if BusyCheck(message) {
      closed := true;
    } else if DealCheck(message) {
      var cards := FindCards(message[6..|message| - 2]);
      ghost var m := DealMsg(DigitValue(message[4]), SeatOf(message[5]), cards);
      k.OnDeal(cards);
      assert k.State() == Receive(old(k.State()), m).0;
    } else if WrongCheck(message) {
    } else if TakenCheck(message, k.trickNumber) {
      var row := if k.trickNumber < 10 then message[6..|message| - 3] else message[7..|message| - 3];
      var cards := FindCards(row);
      k.OnTaken(k.trickNumber, cards, SeatOf(message[|message| - 3]));
    } else if ScoresCheck(message, "SCORE") {
      k.gotScore := true;
    } else if ScoresCheck(message, "TOTAL") {
      k.gotTotal := true;
    } else if TrickCheck(message, k.trickNumber) {
      reply := HandleTrick(k, message);
    }
  }

  method HandleTrick(k: Klient, message: string) returns (reply: Option<string>)
    requires 1 <= k.trickNumber < 100 && TrickCheck(message, k.trickNumber)
    modifies k
    ensures var n := old(k.trickNumber);
            var cards := if |message| <= 9 then [] else Found(if n < 10 then message[6..|message| - 2] else message[7..|message| - 2]);
            var (v, card) := Receive(old(k.State()), TrickMsg(n, cards));
            && k.State() == v
            && reply == if |cards| > 3 then None else Some(TrickText(n, if card == None then [] else [card.value]))
  {
    TrickNumbers(k.trickNumber);
    hide CardRun, Extract, Found, NatText, TrickText, Answer, CardsOf;
    var cards := [];
    if |message| > 9 {
      cards := FindCards(if k.trickNumber < 10 then message[6..|message| - 2] else message[7..|message| - 2]);
    }
    var number := k.trickNumber;
    var card := k.OnTrick(number, cards);
    if |cards| <= 3 {
      var text := SendTrick(number, if card == None then [] else [card.value]);
      reply := Some(text);
    } else {
      reply := None;
    }
  }

  method FindCards(s: string) returns (cards: seq<Card>)
    ensures cards == Found(s)
  {
    var texts := ExtractCards(s);
    ExtractFindsCards(s);
    cards := CardsOf(texts);
  }

  function Reply(v: View, s: string): Option<string>
    requires 1 <= v.trickNumber < 100
  {
    match Decode(s, v.trickNumber)
    case Heard(m) =>
      if m.TrickMsg? && Accepts(v, m) then
        var card := Receive(v, m).1;
        Some(TrickText(v.trickNumber, if card == None then [] else [card.value]))
      else None
    case _ => None
  }
}
