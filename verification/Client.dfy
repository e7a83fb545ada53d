/** klient.cpp: the automatic client's view of its hand, rebuilt from the server's messages. */
module Client {
  import opened Cards

  datatype Option<T> = None | Some(value: T)

  /** Messages of the server, already decoded; `Text` relates them to the wire. */
  datatype ServerMessage =
    | DealMsg(kind: int, starter: Seat, hand: seq<Card>)
    | TrickMsg(number: int, table: seq<Card>)
    | TakenMsg(number: int, trick: seq<Card>, taker: Seat)
    | ScoreMsg(points: seq<int>)
    | TotalMsg(points: seq<int>)
    | WrongMsg(number: int)

  datatype View = View(
    seat: Seat,
    my: seq<Card>,              // my_cards
    played: seq<Card>,          // played_cards: sent since the last TAKEN
    trickNumber: int,
    taken: seq<seq<Card>>,      // taken_tricks
    gotScore: bool,
    gotTotal: bool)

  /** A client as it starts. */
  function NewView(seat: Seat): View {
    View(seat, [], [], 1, [], false, false)
  }

  // ---- Functions that specify the handlers -------------------------------------------------------

  /** First position of a card of `suit`; the length when there is none. */
  function FirstOf(cards: seq<Card>, suit: Suit): (k: nat)
    ensures k <= |cards|
    ensures k < |cards| ==> cards[k].suit == suit
    ensures forall i | 0 <= i < k :: cards[i].suit != suit
  {
    if cards == [] then 0
    else if cards[0].suit == suit then 0
    else 1 + FirstOf(cards[1..], suit)
  }

  /** The card `strategy` picks: the first one of the asked colour, otherwise the last of the hand. */
  function Pick(cards: seq<Card>, color: Option<Suit>): (k: nat)
    requires cards != []
    ensures k < |cards|
  {
    if color.Some? && FirstOf(cards, color.value) < |cards| then FirstOf(cards, color.value) else |cards| - 1
  }

  function Color(table: seq<Card>): Option<Suit> {
    if table == [] then None else Some(table[0].suit)
  }

  /** `strategy`: moves the picked card to the played ones; an empty hand answers with an empty card. */
  function Answer(v: View, color: Option<Suit>): (View, Option<Card>) {
    if v.my == [] then (v, None)
    else
      var k := Pick(v.my, color);
      (v.(my := v.my[..k] + v.my[k + 1..], played := v.played + [v.my[k]]), Some(v.my[k]))
  }

  /** The rule of the strategy, from a hand to what is left of it and the card played: the first card of the asked
      suit; the last card of the hand if no suit is asked or the hand has none of it; no card from an empty hand. */
  ghost predicate Plays(hand: seq<Card>, color: Option<Suit>, rest: seq<Card>, card: Option<Card>) {
    if hand == [] then rest == [] && card == None
    else if color.Some? && exists c :: c in hand && c.suit == color.value then
      exists k ::
        && 0 <= k < |hand| && hand[k].suit == color.value && (forall j | 0 <= j < k :: hand[j].suit != color.value)
        && card == Some(hand[k]) && rest == hand[..k] + hand[k + 1..]
    else
      card == Some(hand[|hand| - 1]) && rest == hand[..|hand| - 1]
  }

  lemma PlaysAnswer(v: View, color: Option<Suit>)
    ensures var (u, card) := Answer(v, color); Plays(v.my, color, u.my, card)
  {
    if v.my != [] {
      var n := |v.my|;
      assert v.my[..n - 1] + v.my[n..] == v.my[..n - 1];
      if color.Some? {
        var k := FirstOf(v.my, color.value);
        if k == n {
          forall c | c in v.my ensures c.suit != color.value { }
        } else {
          assert v.my[k] in v.my;
        }
      }
    }
  }

  function EraseEach(cards: seq<Card>, gone: seq<Card>): seq<Card>
    decreases |gone|
  {
    if gone == [] then cards else EraseEach(Erase(cards, gone[0]), gone[1..])
  }

  /** A TAKEN or TRICK message counts only when it carries the client's own trick number, and a DEAL only when it
      deals thirteen cards. */
  predicate Accepts(v: View, m: ServerMessage) {
    match m
    case DealMsg(_, _, hand) => |hand| == 13
    case TakenMsg(n, trick, _) => n == v.trickNumber && |trick| == 4
    case TrickMsg(n, table) => n == v.trickNumber && |table| <= 3
    case _ => true
  }

  /** One turn of `handle_client`: the new view and the answer sent to a TRICK. */
  function Receive(v: View, m: ServerMessage): (View, Option<Card>) {
    if !Accepts(v, m) then (v, None)
    else
      match m
      case DealMsg(_, _, hand) =>
        (v.(my := hand, trickNumber := 1, taken := [], gotScore := false, gotTotal := false), None)
      case TrickMsg(_, table) => Answer(v, Color(table))
      case TakenMsg(_, trick, taker) =>
        (v.(my := EraseEach(v.my + v.played, trick), played := [], trickNumber := v.trickNumber + 1,
            taken := if taker == v.seat then v.taken + [trick] else v.taken), None)
      case ScoreMsg(_) => (v.(gotScore := true), None)
      case TotalMsg(_) => (v.(gotTotal := true), None)
      case WrongMsg(_) => (v, None)
  }

  function ReceiveAll(v: View, ms: seq<ServerMessage>): View {
    if ms == [] then v else Receive(ReceiveAll(v, ms[..|ms| - 1]), ms[|ms| - 1]).0
  }

  lemma ReceiveLast(v: View, ms: seq<ServerMessage>, m: ServerMessage)
    ensures ReceiveAll(v, ms + [m]) == Receive(ReceiveAll(v, ms), m).0
  {
    assert (ms + [m])[..|ms|] == ms;
  }

  // ---- The client object --------------------------------------------------------------------------

  class Klient {
    const seat: Seat
    var myCards: seq<Card>
    var playedCards: seq<Card>
    var trickNumber: int
    var takenTricks: seq<seq<Card>>
    var gotScore: bool
    var gotTotal: bool

    function State(): View
      reads this
    {
      View(seat, myCards, playedCards, trickNumber, takenTricks, gotScore, gotTotal)
    }

    constructor (seat: Seat)
      ensures State() == NewView(seat)
    {
      this.seat := seat;
      myCards, playedCards, trickNumber, takenTricks, gotScore, gotTotal := [], [], 1, [], false, false;
    }

    method Strategy(color: Option<Suit>) returns (card: Option<Card>)
      modifies this
      ensures (State(), card) == Answer(old(State()), color)
      ensures Plays(old(myCards), color, myCards, card)
      ensures playedCards == old(playedCards) + if card == None then [] else [card.value]
    {
      hide Plays, Pick, FirstOf;
      ghost var hand := myCards;
      PlaysAnswer(State(), color);
      if |myCards| == 0 {
        return None;
      }
      if color.Some? {
        var i := 0;
        while i < |myCards|
          invariant i <= |myCards| && State() == old(State())
          invariant myCards == hand && forall j | 0 <= j < i :: hand[j].suit != color.value
        {
          if myCards[i].suit == color.value {
            PickFirst(hand, color.value, i);
            card := Some(myCards[i]);
            playedCards := playedCards + [myCards[i]];
            myCards := myCards[..i] + myCards[i + 1..];
            return;
          }
          i := i + 1;
        }
      }
      PickLast(hand, color);
      var last := |myCards| - 1;
      card := Some(myCards[last]);
      playedCards := playedCards + [myCards[last]];
      myCards := myCards[..last];
    }

    method OnDeal(hand: seq<Card>)
      modifies this
      ensures forall kind, starter :: State() == Receive(old(State()), DealMsg(kind, starter, hand)).0
    {
      if |hand| != 13 {
        return;
      }
      trickNumber, gotScore, gotTotal, takenTricks := 1, false, false, [];
      myCards := hand;
    }

    method OnTaken(number: int, trick: seq<Card>, taker: Seat)
      modifies this
      ensures State() == Receive(old(State()), TakenMsg(number, trick, taker)).0
    {
      if number != trickNumber || |trick| != 4 {
        return;
      }
      var i := 0;
      while i < |playedCards|
        invariant i <= |playedCards|
        invariant State() == old(State()).(my := old(myCards) + playedCards[..i])
      {
        assert playedCards[..i + 1] == playedCards[..i] + [playedCards[i]];
        myCards := myCards + [playedCards[i]];
        i := i + 1;
      }
      assert playedCards[..i] == playedCards;
      playedCards := [];
      i := 0;
      while i < |trick|
        invariant i <= |trick| && playedCards == []
        invariant EraseEach(myCards, trick[i..]) == EraseEach(old(myCards) + old(playedCards), trick)
        invariant State() == old(State()).(my := myCards, played := [])
      {
        var k := Find(myCards, trick[i]);
        if k != |myCards| {
          myCards := myCards[..k] + myCards[k + 1..];
        }
        i := i + 1;
      }
      if taker == seat {
        takenTricks := takenTricks + [trick];
      }
      trickNumber := trickNumber + 1;
    }

    method OnTrick(number: int, table: seq<Card>) returns (card: Option<Card>)
      modifies this
      ensures (State(), card) == Receive(old(State()), TrickMsg(number, table))
    {
      if number != trickNumber || |table| > 3 {
        return None;
      }
      if |table| == 0 {
        card := Strategy(None);
      } else {
        card := Strategy(Some(table[0].suit));
      }
    }
  }

  lemma {:induction false} FirstOfIs(cards: seq<Card>, suit: Suit, k: nat)
    requires k < |cards| && cards[k].suit == suit && forall j | 0 <= j < k :: cards[j].suit != suit
    ensures FirstOf(cards, suit) == k
  {
    if k > 0 { FirstOfIs(cards[1..], suit, k - 1); }
  }

  lemma PickFirst(cards: seq<Card>, suit: Suit, k: nat)
    requires k < |cards| && cards[k].suit == suit && forall j | 0 <= j < k :: cards[j].suit != suit
    ensures Pick(cards, Some(suit)) == k
  {
    FirstOfIs(cards, suit, k);
  }

  lemma PickLast(cards: seq<Card>, color: Option<Suit>)
    requires cards != [] && (color.Some? ==> forall j | 0 <= j < |cards| :: cards[j].suit != color.value)
    ensures var n := |cards| - 1; Pick(cards, color) == n && cards[..n] + cards[n + 1..] == cards[..n]
  {
  }

  // ---- Resynchronisation -----------------------------------------------------------------------

  lemma {:induction false} EraseEachBag(cards: seq<Card>, gone: seq<Card>)
    ensures multiset(EraseEach(cards, gone)) == multiset(cards) - multiset(gone)
    decreases |gone|
  {
    if gone != [] {
      EraseBag(cards, gone[0]);
      EraseEachBag(Erase(cards, gone[0]), gone[1..]);
      assert gone == [gone[0]] + gone[1..];
      MinusTwice(multiset(cards), multiset{gone[0]}, multiset(gone[1..]));
    }
  }

  lemma MinusTwice(a: multiset<Card>, b: multiset<Card>, c: multiset<Card>)
    ensures (a - b) - c == a - (b + c)
  {
  }

  /** Everything the client still counts as its own. */
  ghost function Held(v: View): multiset<Card> {
    multiset(v.my) + multiset(v.played)
  }

  lemma AnswerHeld(v: View, color: Option<Suit>)
    ensures Held(Answer(v, color).0) == Held(v)
  {
    if v.my != [] {
      var k := Pick(v.my, color);
      assert v.my == v.my[..k] + [v.my[k]] + v.my[k + 1..];
    }
  }

  lemma TakenHeld(v: View, m: ServerMessage)
    requires m.TakenMsg? && Accepts(v, m)
    ensures Held(Receive(v, m).0) == Held(v) - multiset(m.trick)
    ensures Receive(v, m).0.played == []
  {
    EraseEachBag(v.my + v.played, m.trick);
  }

  /** Cards of the TAKEN messages that the client accepts along a run. */
  ghost function TakenAlong(v: View, ms: seq<ServerMessage>): multiset<Card> {
    if ms == [] then multiset{}
    else
      var front, last := ms[..|ms| - 1], ms[|ms| - 1];
      TakenAlong(v, front)
      + if last.TakenMsg? && Accepts(ReceiveAll(v, front), last) then multiset(last.trick) else multiset{}
  }

  /** Within a deal, whatever is received and however often TRICK is repeated, the client holds what it held
      at the start less the cards of the accepted TAKENs; right after a TAKEN nothing is pending. */
  lemma {:induction false} Resynchronised(v: View, ms: seq<ServerMessage>)
    requires forall m | m in ms :: !m.DealMsg?
    ensures Held(ReceiveAll(v, ms)) == Held(v) - TakenAlong(v, ms)
    ensures ms != [] && ms[|ms| - 1].TakenMsg? && Accepts(ReceiveAll(v, ms[..|ms| - 1]), ms[|ms| - 1])
            ==> ReceiveAll(v, ms).played == []
  {
    if ms != [] {
      var front, last := ms[..|ms| - 1], ms[|ms| - 1];
      var u := ReceiveAll(v, front);
      Resynchronised(v, front);
      if last.TakenMsg? && Accepts(u, last) {
        TakenHeld(u, last);
        MinusTwice(Held(v), TakenAlong(v, front), multiset(last.trick));
      } else if last.TrickMsg? && Accepts(u, last) {
        AnswerHeld(u, Color(last.table));
      }
    }
  }

  /** DEAL resets the hand but not the played cards: the view is exactly the hand dealt if and only if no
      card was pending when it arrived. */
  lemma DealResets(v: View, m: ServerMessage)
    requires m.DealMsg? && Accepts(v, m)
    ensures Receive(v, m).0.my == m.hand
    ensures Held(Receive(v, m).0) == multiset(m.hand) <==> v.played == []
  {
    assert Held(Receive(v, m).0) == multiset(m.hand) + multiset(v.played);
    if v.played != [] {
      assert v.played[0] in multiset(v.played);
      assert |Held(Receive(v, m).0)| == |m.hand| + |v.played|;
    }
  }

  lemma ThreeMessages(v: View, a: ServerMessage, b: ServerMessage, c: ServerMessage)
    ensures ReceiveAll(v, [a, b, c]) == Receive(Receive(Receive(v, a).0, b).0, c).0
  {
    hide Receive;
    ReceiveLast(v, [], a);
    ReceiveLast(v, [a], b);
    ReceiveLast(v, [a, b], c);
    assert [] + [a] == [a] && [a] + [b] == [a, b] && [a, b] + [c] == [a, b, c];
  }

  /** Whatever two hands are dealt: a DEAL between a TRICK and its TAKEN leaves the card that was sent for the TRICK,
      the last of the first hand, counted beside the second hand. */
  lemma DealKeepsPending(seat: Seat, a: seq<Card>, b: seq<Card>, kind: int, starter: Seat)
    requires |a| == |b| == 13
    ensures Held(ReceiveAll(NewView(seat), [DealMsg(kind, starter, a), TrickMsg(1, []), DealMsg(kind, starter, b)]))
            == multiset{a[12]} + multiset(b)
  {
    var m0, m1, m2 := DealMsg(kind, starter, a), TrickMsg(1, []), DealMsg(kind, starter, b);
    ThreeMessages(NewView(seat), m0, m1, m2);
    var v0 := Receive(NewView(seat), m0).0;
    var v1 := Receive(v0, m1).0;
    assert v1.played == [] + [a[12]];
  }

  /** From a whole deal on, however the run goes: dealt less accepted. */
  lemma HandFromDeal(v: View, deal: ServerMessage, ms: seq<ServerMessage>)
    requires deal.DealMsg? && Accepts(v, deal) && v.played == [] && forall m | m in ms :: !m.DealMsg?
    ensures var u := Receive(v, deal).0;
            Held(ReceiveAll(u, ms)) == multiset(deal.hand) - TakenAlong(u, ms)
  {
    DealResets(v, deal);
    Resynchronised(Receive(v, deal).0, ms);
  }

  /** A TRICK of the client's own number is answered by the rule of the strategy, asked for the suit of the first card
      on the table; the card played is pending from then on. */
  lemma TrickPlays(v: View, m: ServerMessage)
    requires m.TrickMsg? && Accepts(v, m)
    ensures var (u, card) := Receive(v, m);
            && Plays(v.my, if m.table == [] then None else Some(m.table[0].suit), u.my, card)
            && u == v.(my := u.my, played := v.played + if card == None then [] else [card.value])
  {
    PlaysAnswer(v, Color(m.table));
    hide Plays;
  }

  /** The cards that are not among `gone`, in their order. */
  function Without(cards: seq<Card>, gone: seq<Card>): seq<Card> {
    if cards == [] then []
    else (if cards[0] in gone then [] else [cards[0]]) + Without(cards[1..], gone)
  }

  lemma {:induction false} WithoutNone(cards: seq<Card>)
    ensures Without(cards, []) == cards
  {
    if cards != [] { WithoutNone(cards[1..]); }
  }

  /** No card twice. */
  predicate Distinct(cards: seq<Card>) {
    forall i, j | 0 <= i < j < |cards| :: cards[i] != cards[j]
  }

  lemma {:induction false} EraseOne(cards: seq<Card>, c: Card, gone: seq<Card>)
    requires Distinct(cards)
    ensures Without(Erase(cards, c), gone) == Without(cards, [c] + gone)
    ensures Distinct(Erase(cards, c))
  {
    if cards != [] {
      var rest := cards[1..];
      assert forall i | 0 <= i < |rest| :: rest[i] == cards[i + 1];
      if cards[0] == c {
        NotIn(rest, c, gone);
      } else {
        EraseOne(rest, c, gone);
        EraseBag(rest, c);
        assert cards[0] !in rest;
        var e := [cards[0]] + Erase(rest, c);
        assert e[1..] == Erase(rest, c);
      }
    }
  }

  lemma {:induction false} NotIn(cards: seq<Card>, c: Card, gone: seq<Card>)
    requires c !in cards
    ensures Without(cards, gone) == Without(cards, [c] + gone)
  {
    if cards != [] { NotIn(cards[1..], c, gone); }
  }

  lemma {:induction false} EraseEachOrder(cards: seq<Card>, gone: seq<Card>)
    requires Distinct(cards)
    ensures EraseEach(cards, gone) == Without(cards, gone)
    decreases |gone|
  {
    if gone == [] {
      WithoutNone(cards);
    } else {
      EraseOne(cards, gone[0], gone[1..]);
      EraseEachOrder(Erase(cards, gone[0]), gone[1..]);
      assert gone == [gone[0]] + gone[1..];
    }
  }

  lemma {:induction false} WithoutAppend(a: seq<Card>, b: seq<Card>, gone: seq<Card>)
    ensures Without(a + b, gone) == Without(a, gone) + Without(b, gone)
  {
    if a == [] {
      assert a + b == b;
    } else {
      assert (a + b)[1..] == a[1..] + b;
      WithoutAppend(a[1..], b, gone);
    }
  }

  /** After a TAKEN the hand is in its old order without the cards of the trick, and pending cards that were not in the
      trick follow it in the order in which they were sent. */
  lemma TakenOrder(v: View, m: ServerMessage)
    requires m.TakenMsg? && Accepts(v, m) && Distinct(v.my + v.played)
    ensures Receive(v, m).0.my == Without(v.my, m.trick) + Without(v.played, m.trick)
  {
    EraseEachOrder(v.my + v.played, m.trick);
    WithoutAppend(v.my, v.played, m.trick);
  }

  /** A client has its score, or the totals, of a deal just when it was sent a SCORE, or a TOTAL, since the DEAL. */
  lemma {:induction false} ScoreFlags(v: View, deal: ServerMessage, ms: seq<ServerMessage>)
    requires deal.DealMsg? && Accepts(v, deal) && forall m | m in ms :: !m.DealMsg?
    ensures var w := ReceiveAll(Receive(v, deal).0, ms);
            && (w.gotScore <==> exists m :: m in ms && m.ScoreMsg?)
            && (w.gotTotal <==> exists m :: m in ms && m.TotalMsg?)
  {
    if ms != [] {
      var n := |ms| - 1;
      assert ms == ms[..n] + [ms[n]];
      ScoreFlags(v, deal, ms[..n]);
      hide EraseEach, Answer;
    }
  }
}
