/** `parse_message` on the text a client sent: exactly one text per legal card is taken up, although the width
    of the trick number in it is guessed from the server's own. */
module Acceptance {
  import opened Cards
  import opened GameModel
  import opened Text
  import opened Messages
  import opened Codec

  // ---- What a client may send ---------------------------------------------------------------------------------

  /** `TRICK_client_check`: number 1 to 13 and one card. */
  predicate TrickClientCheck(s: string) {
    && Framed(s, "TRICK", 3)
    && (('1' <= s[5] <= '9' && IsCard(s[6..|s| - 2]))
        || (|s| >= 11 && s[5] == '1' && '0' <= s[6] <= '3' && IsCard(s[7..|s| - 2])))
  }

  /** What such a text says. */
  function Said(s: string): (p: Input)
    requires TrickClientCheck(s)
    ensures 1 <= p.number <= 13
  {
    if '1' <= s[5] <= '9' && IsCard(s[6..|s| - 2]) then Input(DigitValue(s[5]), CardOf(s[6..|s| - 2]))
    else Input(10 + DigitValue(s[6]), CardOf(s[7..|s| - 2]))
  }

  lemma OneCard(c: Card)
    ensures CardsText([c]) == CardText(c)
  {
    assert CardsText([c][1..]) == [];
  }

  lemma SaidIsPrinted(s: string)
    requires TrickClientCheck(s)
    ensures s == TrickText(Said(s).number, [Said(s).card])
  {
    var p := Said(s);
    OneCard(p.card);
    FramedParts(s, "TRICK");
    TrickNumbers(p.number);
    var k := |NatText(p.number)|;
    assert s[5..|s| - 2] == s[5..5 + k] + s[5 + k..|s| - 2];
    assert NatText(p.number) == s[5..5 + k];
    hide NatText, CardText, CardsText, CardOf;
  }

  lemma PrintedChecks(n: nat, c: Card)
    requires 1 <= n <= 13
    ensures TrickClientCheck(TrickText(n, [c]))
  {
    OneCard(c);
    TrickPrinted(n, [c]);
    TrickNumbers(n);
    CardsInverse(c);
    var s := TrickText(n, [c]);
    FramedText("TRICK", NatText(n) + CardText(c), 3);
    assert s == "TRICK" + (NatText(n) + CardText(c)) + CRLF;
    assert s[5] == NatText(n)[0] && (n >= 10 ==> s[6] == NatText(n)[1]);
    hide NatText, CardText, CardsText, IsCard, Framed;
  }

  /** The grammar of client messages is exactly what `send_trick` prints for one card, and no text can be read in
      two ways. */
  lemma SaidExactly(s: string, n: nat, c: Card)
    requires 1 <= n <= 13
    ensures s == TrickText(n, [c]) <==> TrickClientCheck(s) && Said(s) == Input(n, c)
  {
    if s == TrickText(n, [c]) {
      PrintedChecks(n, c);
      SaidIsPrinted(s);
      var p := Said(s);
      TrickShape(n, [c]);
      TrickShape(p.number, [p.card]);
      hide NatText, CardsText, TrickText, Said, TrickClientCheck;
      SameMiddle("TRICK", NatText(n) + CardsText([c]), NatText(p.number) + CardsText([p.card]), CRLF, CRLF);
      NumberedInjective(n, [c], p.number, [p.card]);
      assert [c][0] == [p.card][0];
    }
    if TrickClientCheck(s) && Said(s) == Input(n, c) {
      SaidIsPrinted(s);
    }
  }

  // ---- The guess --------------------------------------------------------------------------------------------------

  /** Trick number and card as `parse_message` cuts them out (783-792). */
  function CutOut(s: string, currentTrick: int): (r: (int, string))
    requires TrickClientCheck(s)
    ensures r.1 != []
  {
    if currentTrick < 10 then (Stoi(s[5..6]), s[6..|s| - 2]) else (Stoi(s[5..7]), s[7..|s| - 2])
  }

  /** Cut at the wrong place, a card text has one character too many or one too few, and is no card. */
  lemma WrongCut(t: string, d: char)
    requires IsCard(t) && IsDigit(d)
    ensures !IsCard(t[1..])
    ensures '0' <= d <= '3' ==> !IsCard([d] + t)
  {
  }

  lemma CutWidth(s: string, currentTrick: int)
    requires TrickClientCheck(s)
    ensures var (n, t) := CutOut(s, currentTrick); var p := Said(s);
            if (currentTrick < 10) == (p.number < 10) then n == p.number && t == CardText(p.card) else !IsCard(t)
  {
    var p := Said(s);
    TrickNumbers(p.number);
    StoiNat(p.number, []);
    if p.number < 10 {
      var t := s[6..|s| - 2];
      assert s[5..6] == NatText(p.number) + [];
      assert t[1..] == s[7..|s| - 2];
      WrongCut(t, '0');
    } else {
      var t := s[7..|s| - 2];
      assert s[5..7] == NatText(p.number) + [];
      assert [s[6]] + t == s[6..|s| - 2];
      WrongCut(t, s[6]);
    }
    hide Stoi, CardText, IsCard, NatText;
  }

  /** The guess is harmless: what is cut out is the running trick and a card of the hand exactly when the
      message says so. */
  lemma GuessIsRight(s: string, currentTrick: int, hand: seq<Card>)
    requires TrickClientCheck(s)
    ensures var (n, t) := CutOut(s, currentTrick);
            n == currentTrick && t in Texts(hand) <==> Said(s).number == currentTrick && Said(s).card in hand
  {
    var (n, t) := CutOut(s, currentTrick);
    var c := Said(s).card;
    CutWidth(s, currentTrick);
    hide CutOut, Said, TrickClientCheck, IsCard, CardText;
    if t in Texts(hand) {
      var i :| 0 <= i < |hand| && Texts(hand)[i] == t;
      CardsInverse(hand[i]);
      if t == CardText(c) { TextsDiffer(hand[i], c); }
    }
    if c in hand {
      var i :| 0 <= i < |hand| && hand[i] == c;
      assert Texts(hand)[i] == CardText(c);
    }
  }

  /** For a seat that is asked, a text is taken up if and only if it is TRICK, the running trick number and one
      card of the hand, followed by the line end, the card following the led suit unless the hand is void. */
  lemma AcceptedExactly(s: string, currentTrick: nat, hand: seq<Card>, table: seq<Card>)
    requires 1 <= currentTrick <= 13
    ensures (TrickClientCheck(s) && Said(s).number == currentTrick && Legal(hand, table, Said(s).card))
            <==> exists c :: Legal(hand, table, c) && s == TrickText(currentTrick, [c])
  {
    if c :| Legal(hand, table, c) && s == TrickText(currentTrick, [c]) {
      SaidExactly(s, currentTrick, c);
    }
    if TrickClientCheck(s) && Said(s).number == currentTrick && Legal(hand, table, Said(s).card) {
      SaidIsPrinted(s);
    }
  }

  // ---- The locked section on texts -----------------------------------------------------------------------------

  /** A refusal is answered with a WRONG message. */
  datatype Outcome = Accepted | Refused(wrong: string) | Closed

  /** The last character of a card text is its suit. */
  lemma LastIsSuit(c: Card, d: Card)
    ensures var t, u := CardText(c), CardText(d); t[|t| - 1] == u[|u| - 1] <==> c.suit == d.suit
  {
  }

  /** Cards of the server as it keeps them: as texts. */
  class Hands {
    var cards: seq<seq<string>>
    var cardsOnTable: seq<string>

    /** The texts are those of these hands and this table. */
    ghost predicate Shows(hands: seq<seq<Card>>, table: seq<Card>)
      reads this
    {
      && |hands| == |cards| == 4 && (forall s: Seat :: cards[s] == Texts(hands[s]))
      && cardsOnTable == Texts(table)
    }

    constructor (hands: seq<seq<string>>)
      ensures cards == hands && cardsOnTable == []
    {
      cards, cardsOnTable := hands, [];
    }

    static method FindText(texts: seq<string>, t: string) returns (k: nat)
      ensures k <= |texts| && t !in texts[..k]
      ensures k < |texts| ==> texts[k] == t
    {
      k := 0;
      while k < |texts| && texts[k] != t
        invariant k <= |texts| && t !in texts[..k]
      {
        k := k + 1;
      }
    }

    /** Whether some card of the hand ends in this suit letter. */
    static method HasSuit(texts: seq<string>, letter: char, ghost hand: seq<Card>, ghost led: Card) returns (found: bool)
      requires texts == Texts(hand) && letter == CardText(led)[|CardText(led)| - 1]
      ensures found <==> !NoSuit(hand, led.suit)
    {
      found := false;
      var i := 0;
      while i < |texts|
        invariant i <= |texts|
        invariant forall j | 0 <= j < i :: hand[j].suit != led.suit
      {
        LastIsSuit(hand[i], led);
        if texts[i][|texts[i]| - 1] == letter {
          assert hand[i] in hand;
          return true;
        }
        i := i + 1;
      }
    }

    /** Follow-suit test (799-815), for a text that turns out to be a card. */
    method RightColor(message: string, seat: Seat, ghost hands: seq<seq<Card>>, ghost table: seq<Card>, ghost c: Card)
      returns (right: bool)
      requires Shows(hands, table) && table != [] && message != []
      ensures message == CardText(c) ==> (right <==> c.suit == table[0].suit || NoSuit(hands[seat], table[0].suit))
    {
      var mainColor := cardsOnTable[0][|cardsOnTable[0]| - 1];
      LastIsSuit(table[0], c);
      right := mainColor == message[|message| - 1];
      if !right {
        var found := HasSuit(cards[seat], mainColor, hands[seat], table[0]);
        right := !found;
      }
    }

    /** Moves the text at `k` from the hand to the table. */
    method TakeUp(message: string, seat: Seat, k: nat, ghost hands: seq<seq<Card>>, ghost table: seq<Card>, ghost c: Card)
      requires Shows(hands, table) && message == CardText(c)
      requires k < |cards[seat]| && cards[seat][k] == message && message !in cards[seat][..k]
      modifies this
      ensures Shows(hands[seat := Erase(hands[seat], c)], table + [c])
    {
      Removed(hands[seat], k, c);
      TextsAppend(table, c);
      hide Texts, CardText;
      cards := cards[seat := cards[seat][..k] + cards[seat][k + 1..]];
      cardsOnTable := cardsOnTable + [message];
    }

    /** `parse_message`.  No cut and no conversion fails on any text: each slice and number below is checked. */
    method ParseMessage(s: string, seat: Seat, destined: bool, currentTrick: nat,
                        ghost hands: seq<seq<Card>>, ghost table: seq<Card>) returns (outcome: Outcome)
      requires Shows(hands, table)
      modifies this
      ensures outcome.Closed? <==> !TrickClientCheck(s)
      ensures outcome.Accepted? <==> TrickClientCheck(s) && destined && Said(s).number == currentTrick
                                     && Legal(hands[seat], table, Said(s).card)
      ensures outcome.Accepted? ==> Shows(hands[seat := Erase(hands[seat], Said(s).card)], table + [Said(s).card])
      ensures outcome.Refused? ==> outcome.wrong == WrongText(currentTrick)
      ensures !outcome.Accepted? ==> cards == old(cards) && cardsOnTable == old(cardsOnTable)
    {
      if !TrickClientCheck(s) {
        return Closed;
      }
      var wrong := SendWrong(currentTrick);
      if !destined {
        return Refused(wrong);
      }
      ghost var hand, c := hands[seat], Said(s).card;
      GuessIsRight(s, currentTrick, hand);
      GoodCut(s, currentTrick, hand);
      hide TrickClientCheck, Said, CutOut, CardText, NoSuit;
      var (extracted, message) := CutOut(s, currentTrick);
      var k := FindText(cards[seat], message);
      var rightColor := extracted == currentTrick;
      if |cardsOnTable| > 0 && rightColor {
        rightColor := RightColor(message, seat, hands, table, c);
      }
      assert cards[seat] == Texts(hand) && |cardsOnTable| == |table|;
      hide Texts;
      if k == |cards[seat]| {
        assert cards[seat][..k] == cards[seat];
        return Refused(wrong);
      }
      assert message in Texts(hand);
      if !rightColor {
        return Refused(wrong);
      }
      TakeUp(message, seat, k, hands, table, c);
      return Accepted;
    }
  }

  lemma GoodCut(s: string, currentTrick: int, hand: seq<Card>)
    requires TrickClientCheck(s)
    ensures var (n, t) := CutOut(s, currentTrick);
            n == currentTrick && t in Texts(hand) ==> t == CardText(Said(s).card)
  {
    var (n, t) := CutOut(s, currentTrick);
    GuessIsRight(s, currentTrick, hand);
    CutWidth(s, currentTrick);
  }

  lemma TextsAppend(table: seq<Card>, c: Card)
    ensures Texts(table + [c]) == Texts(table) + [CardText(c)]
  {
    hide CardText;
  }

  lemma Removed(hand: seq<Card>, k: nat, c: Card)
    requires k < |hand| && Texts(hand)[k] == CardText(c) && CardText(c) !in Texts(hand)[..k]
    ensures Texts(Erase(hand, c)) == Texts(hand)[..k] + Texts(hand)[k + 1..]
  {
    hide CardText, Erase;
    TextsDiffer(hand[k], c);
    var t := Texts(hand);
    forall i | 0 <= i < k ensures hand[i] != c {
      assert t[i] == t[..k][i];
    }
    EraseAt(hand, k);
    var rest := hand[..k] + hand[k + 1..];
    forall i | 0 <= i < |rest| ensures Texts(rest)[i] == (t[..k] + t[k + 1..])[i] {
      assert Texts(rest)[i] == CardText(rest[i]);
    }
    assert Texts(rest) == t[..k] + t[k + 1..];
  }
}
