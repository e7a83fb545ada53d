/** The server's game and the automatic clients' views side by side: replay to a reconnecting client, and
    four automatic clients playing the whole game file. */
module Match {
  import opened Cards
  import opened Points
  import opened GameModel
  import opened Conduct
  import opened Client

  // ---- Cards are where the records say -------------------------------------------------------------

  lemma {:induction false} PlayedInPile(rounds: seq<seq<Card>>, leaders: seq<Seat>, s: Seat)
    requires |rounds| <= |leaders|
    ensures multiset(PlayedBy(rounds, leaders, s)) <= Pile(rounds)
  {
    if rounds != [] {
      var n := |rounds| - 1;
      PlayedInPile(rounds[..n], leaders, s);
      OwnInTrick(rounds[n], leaders[n], s);
    }
  }

  lemma OwnInTrick(trick: seq<Card>, leader: Seat, s: Seat)
    ensures multiset(Own(trick, leader, s)) <= multiset(trick)
  {
    var o := Own(trick, leader, s);
    if o != [] {
      assert o == [o[0]] && o[0] in trick;
    }
  }

  /** The card seat `s` has on the table in a trick that is not recorded yet. */
  function Pending(g: Game, s: Seat): seq<Card> {
    if g.phase == Trick then Own(g.table, g.lastTaker, s) else []
  }

  /** No card of a hand has been played, and each card was played once. */
  lemma OnePlace(g: Game, s: Seat, c: Card)
    requires FileOk(g.file) && Valid(g) && g.next > 0
    ensures multiset(g.hands[s])[c] + Pile(Rounds(g))[c] <= 1
  {
    hide *;
    PackParts(g, c);
    InHands(g.hands, s, c);
    assert (HandsBag(g.hands) + Pile(Rounds(g)))[c] == HandsBag(g.deal)[c];
  }

  lemma PackParts(g: Game, c: Card)
    requires FileOk(g.file) && Valid(g) && g.next > 0
    ensures |g.hands| == |g.deal| == 4
    ensures HandsBag(g.hands) + Pile(Rounds(g)) == HandsBag(g.deal) && HandsBag(g.deal)[c] == 1
  {
    hide Scored, Void, NoRevoke, HandsConserved, Rounds, Pile, HandsBag;
    assert FullPack(g.file[g.next - 1]);
  }

  lemma InHands(hands: seq<seq<Card>>, s: Seat, c: Card)
    requires |hands| == 4
    ensures multiset(hands[s])[c] <= HandsBag(hands)[c]
  {
  }

  lemma PlayedSplits(g: Game, s: Seat)
    requires Valid(g) && g.next > 0
    ensures PlayedBy(Rounds(g), Leaders(g), s) == PlayedBy(g.tricks, Leaders(g), s) + Pending(g, s)
    ensures Pile(Rounds(g)) == Pile(g.tricks) + multiset(if g.phase == Trick then g.table else [])
  {
    hide Scored, Void, NoRevoke, HandsConserved, PackConserved, PlayedBy, Pile, Own;
    if g.phase == Trick {
      PlayedByLast(g.tricks, g.table, Leaders(g), s);
      PileLast(g.tricks, g.table);
    } else {
      assert Rounds(g) == g.tricks;
      assert PlayedBy(g.tricks, Leaders(g), s) + [] == PlayedBy(g.tricks, Leaders(g), s);
    }
  }

  /** The dealt hand less all recorded tricks is the hand held plus the card still on the table. */
  lemma HandLeft(g: Game, s: Seat)
    requires FileOk(g.file) && Valid(g) && g.next > 0
    ensures multiset(g.deal[s]) - Pile(g.tricks) == multiset(g.hands[s]) + multiset(Pending(g, s))
  {
    hide FileOk, Scored, Void, NoRevoke, PackConserved, PlayedBy, Pile, Own, Rounds;
    PlayedSplits(g, s);
    PlayedInPile(g.tricks, Leaders(g), s);
    OwnInTrick(g.table, g.lastTaker, s);
    forall c: Card ensures (multiset(g.deal[s]) - Pile(g.tricks))[c]
                           == (multiset(g.hands[s]) + multiset(Pending(g, s)))[c]
    {
      OnePlace(g, s, c);
    }
  }

  // ---- Replay to a reconnecting client -------------------------------------------------------------

  /** serwer.cpp:693-715: the hand as dealt, then a TAKEN for each recorded trick. */
  function Replay(g: Game, s: Seat, n: nat): seq<ServerMessage>
    requires |g.deal| == 4 && n <= |g.tricks| == |g.takers|
  {
    if n == 0 then [DealMsg(g.kind, g.starter, g.deal[s])]
    else Replay(g, s, n - 1) + [TakenMsg(n, g.tricks[n - 1], g.takers[n - 1])]
  }

  function TakenBy(g: Game, s: Seat, n: nat): seq<seq<Card>>
    requires n <= |g.tricks| == |g.takers|
  {
    if n == 0 then [] else TakenBy(g, s, n - 1) + if g.takers[n - 1] == s then [g.tricks[n - 1]] else []
  }

  ghost predicate ReplayedTo(g: Game, s: Seat, n: nat, v: View)
    requires |g.deal| == 4 && n <= |g.tricks| == |g.takers|
  {
    && v.trickNumber == n + 1 && v.played == [] && v.seat == s && v.taken == TakenBy(g, s, n)
    && multiset(v.my) == multiset(g.deal[s]) - Pile(g.tricks[..n])
  }

  lemma HeldAll(v: View)
    requires v.played == []
    ensures Held(v) == multiset(v.my)
  {
  }

  lemma ReplayOne(g: Game, s: Seat, n: nat, u: View)
    requires |g.deal| == 4 && n < |g.tricks| == |g.takers| && |g.tricks[n]| == 4
    requires ReplayedTo(g, s, n, u)
    ensures ReplayedTo(g, s, n + 1, Receive(u, TakenMsg(n + 1, g.tricks[n], g.takers[n])).0)
  {
    var m := TakenMsg(n + 1, g.tricks[n], g.takers[n]);
    TakenHeld(u, m);
    HeldAll(u);
    HeldAll(Receive(u, m).0);
    assert g.tricks[..n + 1] == g.tricks[..n] + [g.tricks[n]];
    PileLast(g.tricks[..n], g.tricks[n]);
    MinusTwice(multiset(g.deal[s]), Pile(g.tricks[..n]), multiset(g.tricks[n]));
    hide EraseEach, Pile;
  }

  lemma ReplayStart(g: Game, s: Seat)
    requires |g.deal| == 4 && |g.deal[s]| == 13 && |g.tricks| == |g.takers|
    ensures ReplayedTo(g, s, 0, ReceiveAll(NewView(s), Replay(g, s, 0)))
  {
    ReceiveLast(NewView(s), [], Replay(g, s, 0)[0]);
    assert g.tricks[..0] == [];
    assert [] + Replay(g, s, 0) == Replay(g, s, 0);
  }

  /** A hand of the file has thirteen cards, and before the first trick a seat still holds it. */
  lemma DealtHand(g: Game, s: Seat)
    requires FileOk(g.file) && Valid(g) && g.next > 0
    ensures |g.deal| == |g.hands| == 4 && |g.deal[s]| == 13
    ensures g.phase == Dealt ==> |g.hands[s]| == 13
  {
    hide PackConserved, Void, NoRevoke, Scored, FullPack;
    assert Sized(g.file[g.next - 1]);
    if g.phase == Dealt {
      assert Rounds(g) == [];
    }
  }

  lemma {:induction false} ReplayPrefix(g: Game, s: Seat, n: nat)
    requires |g.deal| == 4 && |g.deal[s]| == 13
    requires n <= |g.tricks| == |g.takers| && forall t | t in g.tricks :: |t| == 4
    ensures ReplayedTo(g, s, n, ReceiveAll(NewView(s), Replay(g, s, n)))
  {
    if n == 0 {
      ReplayStart(g, s);
    } else {
      ReplayPrefix(g, s, n - 1);
      var u := ReceiveAll(NewView(s), Replay(g, s, n - 1));
      ReceiveLast(NewView(s), Replay(g, s, n - 1), TakenMsg(n, g.tricks[n - 1], g.takers[n - 1]));
      ReplayOne(g, s, n - 1, u);
      hide ReplayedTo, ReceiveAll, Receive;
    }
  }

  /** A client that reconnects at any moment of a deal rebuilds its seat: every TAKEN is accepted in turn, the
      next trick number is right, and its hand is the server's plus its own card still on the table. */
  lemma ReplayAgrees(g: Game, s: Seat)
    requires FileOk(g.file) && Valid(g) && g.next > 0
    ensures var v := ReceiveAll(NewView(s), Replay(g, s, |g.tricks|));
            && v.trickNumber == |g.tricks| + 1 && v.played == [] && v.taken == TakenBy(g, s, |g.tricks|)
            && multiset(v.my) == multiset(g.hands[s]) + multiset(Pending(g, s))
  {
    assert g.tricks[..|g.tricks|] == g.tricks;
    DealtHand(g, s);
    ReplayPrefix(g, s, |g.tricks|);
    HandLeft(g, s);
  }

  // ---- Four automatic clients ---------------------------------------------------------------------

  /** The card an automatic client answers with is one the server accepts. */
  lemma AnswerLegal(v: View, hand: seq<Card>, table: seq<Card>)
    requires multiset(v.my) == multiset(hand) && hand != []
    ensures var (u, c) := Answer(v, Color(table));
            && c.Some? && Legal(hand, table, c.value)
            && multiset(u.my) == multiset(Erase(hand, c.value)) && u.played == v.played + [c.value]
            && u.trickNumber == v.trickNumber
  {
    assert |multiset(v.my)| == |v.my| && |multiset(hand)| == |hand|;
    var k := Pick(v.my, Color(table));
    PickRemoves(v.my, k);
    PickFollows(v.my, table);
    SameCards(v.my, hand);
    EraseBag(hand, v.my[k]);
    hide Pick, Color, Erase;
  }

  lemma PickRemoves(cards: seq<Card>, k: nat)
    requires k < |cards|
    ensures cards[k] in cards && multiset(cards[..k] + cards[k + 1..]) == multiset(cards) - multiset{cards[k]}
  {
    assert cards == cards[..k] + [cards[k]] + cards[k + 1..];
  }

  /** The strategy leaves the asked suit only when the hand has none of it. */
  lemma PickFollows(cards: seq<Card>, table: seq<Card>)
    requires cards != []
    ensures Legal(cards, table, cards[Pick(cards, Color(table))])
  {
  }

  /** What is legal depends on the cards held, not on their order. */
  lemma SameCards(a: seq<Card>, b: seq<Card>)
    requires multiset(a) == multiset(b)
    ensures forall table, c :: Legal(a, table, c) <==> Legal(b, table, c)
  {
    assert forall d :: d in a <==> d in multiset(a);
    assert forall d :: d in b <==> d in multiset(b);
  }

  /** A client that reconnects when it is its turn is sent TRICK after the replay (716-727), and answers with a
      card that the server accepts. */
  lemma ReplayAnswered(g: Game)
    requires FileOk(g.file) && Valid(g) && g.phase == Trick && |g.table| < 4 && g.next > 0
    ensures |g.hands| == 4
    ensures var s := Turn(g);
            var v := ReceiveAll(NewView(s), Replay(g, s, |g.tricks|));
            var m := TrickMsg(g.trickNumber, g.table);
            var c := Receive(v, m).1;
            Accepts(v, m) && c.Some? && Legal(g.hands[s], g.table, c.value)
  {
    hide FileOk, StaleTable, HandsConserved, PackConserved, Void, NoRevoke, Scored, ReceiveAll, Replay, Legal, Answer;
    var s := Turn(g);
    ReplayAgrees(g, s);
    TurnHasCards(g);
    PlaceMod(g.lastTaker, |g.table|);
    assert Pending(g, s) == [];
    AnswerLegal(ReceiveAll(NewView(s), Replay(g, s, |g.tricks|)), g.hands[s], g.table);
  }

  datatype Match = Match(g: Game, views: seq<View>)

  /** What seat `s` is sent when the trick on the table is closed. */
  function TakenOf(g: Game): ServerMessage
    requires g.tricks != [] && g.takers != []
  {
    TakenMsg(g.trickNumber, g.tricks[|g.tricks| - 1], g.takers[|g.takers| - 1])
  }

  function Broadcast(views: seq<View>, m: Seat -> ServerMessage): seq<View>
    requires |views| == 4
  {
    [Receive(views[0], m(0)).0, Receive(views[1], m(1)).0, Receive(views[2], m(2)).0, Receive(views[3], m(3)).0]
  }

  /** The seat in turn is sent TRICK and its answer is offered to the server. */
  predicate AnswerAccepted(m: Match)
    requires |m.views| == |m.g.hands| == 4 && |m.g.table| < 4
  {
    var s := Turn(m.g);
    var c := Receive(m.views[s], TrickMsg(m.g.trickNumber, m.g.table)).1;
    c.Some? && Legal(m.g.hands[s], m.g.table, c.value)
  }

  predicate AsksForCard(m: Match) {
    m.g.phase == Trick && |m.g.table| < 4
  }

  predicate Ready(m: Match) {
    && |m.views| == |m.g.hands| == |m.g.scores| == |m.g.totalScores| == 4
    && m.g.next <= |m.g.file| && |m.g.table| <= 4
    && (m.g.phase == Dealt ==> m.g.next > 0)
    && (forall i | 0 <= i < |m.g.file| :: |m.g.file[i].hands| == 4)
  }

  /** One step of the server with its four clients; a refused answer would leave the game where it is. */
  function Advance(m: Match): (r: Match)
    requires Ready(m)
    ensures Ready(r)
  {
    var g := m.g;
    match g.phase
    case Idle => if g.next < |g.file| then m.(g := DoLoad(g)) else m
    case Dealt =>
      var h := DoOpen(g);
      Match(h, Broadcast(m.views, (s: Seat) => DealMsg(h.kind, h.starter, h.hands[s])))
    case Lead =>
      if g.trickNumber < 13 then m.(g := DoBegin(g)) else m.(g := DoCloseDeal(g))
    case Trick =>
      if |g.table| == 4 then
        var h := DoCloseTrick(g, g.lastTaker, g.trickNumber);
        Match(h, Broadcast(m.views, (s: Seat) => TakenOf(h)))
      else
        var s := Turn(g);
        var (v, c) := Receive(m.views[s], TrickMsg(g.trickNumber, g.table));
        Match(if AnswerAccepted(m) then DoPlay(g, s, c.value) else g, m.views[s := v])
  }

  /** Clients and server agree on every hand. */
  ghost predicate Agree(m: Match) {
    FileOk(m.g.file) && Valid(m.g) && |m.views| == 4 && AgreeAll(m.g, m.views)
  }

  ghost predicate AgreeAll(g: Game, views: seq<View>)
    requires |g.hands| == |views| == 4
  {
    forall s: Seat :: AgreeAt(g, views[s], s)
  }

  ghost predicate AgreeAt(g: Game, v: View, s: Seat)
    requires |g.hands| == 4
  {
    match g.phase
    case Lead => v.trickNumber == g.trickNumber + 1 && v.played == [] && multiset(v.my) == multiset(g.hands[s])
    case Trick => v.trickNumber == g.trickNumber && multiset(v.my) == multiset(g.hands[s])
                  && v.played == Own(g.table, g.lastTaker, s)
    case _ => v.played == []
  }

  /** Steps left until the whole file is played. */
  function Left(g: Game): int {
    81 * (|g.file| - g.next) +
    match g.phase
    case Idle => 0
    case Dealt => 80
    case Lead => 6 * (13 - g.trickNumber) + 1
    case Trick => 6 * (13 - g.trickNumber) + 6 - |g.table|
  }

  function CardsLeft(g: Game): nat
    requires |g.hands| == 4
  {
    |g.hands[0]| + |g.hands[1]| + |g.hands[2]| + |g.hands[3]|
  }

  /** The seat in turn has played once in each recorded trick. */
  lemma TurnHandSize(g: Game)
    requires FileOk(g.file) && Valid(g) && g.phase == Trick && |g.table| < 4
    ensures |g.hands| == 4 && |g.hands[Turn(g)]| == 14 - g.trickNumber
    ensures 1 <= g.trickNumber <= 13
  {
    hide Scored, Void, NoRevoke, PackConserved;
    var s := Turn(g);
    PlayedSplits(g, s);
    PlayedCount(g.tricks, Leaders(g), s);
    PlaceMod(g.lastTaker, |g.table|);
    assert Pending(g, s) == [];
    assert Sized(g.file[g.next - 1]);
    var mine := PlayedBy(Rounds(g), Leaders(g), s);
    assert |multiset(g.deal[s])| == |multiset(g.hands[s])| + |multiset(mine)|;
  }

  lemma TurnHasCards(g: Game)
    requires FileOk(g.file) && Valid(g) && g.phase == Trick && |g.table| < 4
    ensures g.hands[Turn(g)] != []
  {
    TurnHandSize(g);
    hide Valid, FileOk;
  }

  lemma {:induction false} PlayedCount(tricks: seq<seq<Card>>, leaders: seq<Seat>, s: Seat)
    requires |tricks| <= |leaders| && forall t | t in tricks :: |t| == 4
    ensures |PlayedBy(tricks, leaders, s)| == |tricks|
  {
    if tricks != [] { PlayedCount(tricks[..|tricks| - 1], leaders, s); }
  }

  /** The asked client's answer: accepted, and the step is that play. */
  lemma AnswerGood(m: Match) returns (u: View, c: Card)
    requires Agree(m) && Ready(m) && AsksForCard(m)
    ensures var g, s := m.g, Turn(m.g);
            && AnswerAccepted(m) && Legal(g.hands[s], g.table, c)
            && Advance(m) == Match(DoPlay(g, s, c), m.views[s := u])
            && multiset(u.my) == multiset(Erase(g.hands[s], c)) && u.played == m.views[s].played + [c]
            && u.trickNumber == g.trickNumber == m.views[s].trickNumber
  {
    hide FileOk, StaleTable, HandsConserved, PackConserved, Void, NoRevoke, Scored, Erase, Own, Place;
    var g, s := m.g, Turn(m.g);
    TurnHasCards(g);
    assert AgreeAt(g, m.views[s], s);
    AnswerLegal(m.views[s], g.hands[s], g.table);
    var (v, o) := Receive(m.views[s], TrickMsg(g.trickNumber, g.table));
    hide Answer, Legal;
    u, c := v, o.value;
  }

  /** A play changes only the hand, the place on the table and the view of the seat that made it. */
  lemma PlayAgrees(g: Game, c: Card, u: View, v: View, t: Seat)
    requires Shape(g) && Counters(g) && g.phase == Trick && |g.table| < 4 && AgreeAt(g, v, t)
    requires t == Turn(g) ==> u.trickNumber == v.trickNumber && u.played == v.played + [c]
                              && multiset(u.my) == multiset(Erase(g.hands[t], c))
    requires t != Turn(g) ==> u == v
    ensures AgreeAt(DoPlay(g, Turn(g), c), u, t)
  {
    hide Erase, Own, Place;
    OwnAfterPlay(g.table, c, g.lastTaker, t);
  }

  lemma AnswerViews(m: Match)
    requires Agree(m) && Ready(m) && AsksForCard(m)
    ensures AgreeAll(Advance(m).g, Advance(m).views)
  {
    var g := m.g;
    var u, c := AnswerGood(m);
    hide FileOk, StaleTable, HandsConserved, PackConserved, Void, NoRevoke, Scored, AgreeAt, Advance, AnswerAccepted, Place;
    forall t: Seat ensures AgreeAt(Advance(m).g, Advance(m).views[t], t) {
      PlayAgrees(g, c, m.views[Turn(g) := u][t], m.views[t], t);
    }
  }

  /** Playing on: the answer is accepted. */
  lemma AnswerStep(m: Match)
    requires Agree(m) && Ready(m) && AsksForCard(m)
    ensures AnswerAccepted(m) && Agree(Advance(m))
    ensures Advance(m).g.file == m.g.file && Left(Advance(m).g) == Left(m.g) - 1
  {
    hide Valid, FileOk, Agree, AgreeAll, Advance, AnswerAccepted, Legal, Left, Place, Enabled, Apply, DoPlay;
    AnswerViews(m);
    var u, c := AnswerGood(m);
    AgreeParts(m);
    TurnPlay(m.g, c);
    MoveValid(m.g, Play(c));
    AgreeWhole(Advance(m));
  }

  lemma AgreeParts(m: Match)
    requires Agree(m)
    ensures FileOk(m.g.file) && Valid(m.g) && |m.views| == |m.g.hands| == 4 && AgreeAll(m.g, m.views)
  {
    hide FileOk, AgreeAll, Counters, StaleTable, HandsConserved, PackConserved, Void, NoRevoke, Scored;
  }

  lemma AgreeWhole(m: Match)
    requires FileOk(m.g.file) && Valid(m.g) && |m.views| == |m.g.hands| == 4 && AgreeAll(m.g, m.views)
    ensures Agree(m)
  {
    hide FileOk, Valid, AgreeAll;
  }

  lemma TurnPlay(g: Game, c: Card)
    requires Valid(g) && g.phase == Trick && |g.table| < 4 && |g.hands| == 4
    requires Legal(g.hands[Turn(g)], g.table, c)
    ensures Enabled(g, Play(c)) && Apply(g, Play(c)) == DoPlay(g, Turn(g), c)
    ensures Left(DoPlay(g, Turn(g), c)) == Left(g) - 1 && DoPlay(g, Turn(g), c).file == g.file
  {
    hide Valid, Legal, Erase, Place;
  }

  lemma PlayUsesCard(g: Game, s: Seat, c: Card)
    requires |g.hands| == 4 && c in g.hands[s]
    ensures CardsLeft(DoPlay(g, s, c)) == CardsLeft(g) - 1
  {
    EraseBag(g.hands[s], c);
    assert |multiset(Erase(g.hands[s], c))| == |multiset(g.hands[s])| - 1;
  }

  /** The cards in hand are the termination measure: a step that asks for a card uses up exactly one. */
  lemma AnswerUsesCard(m: Match)
    requires Agree(m) && Ready(m) && AsksForCard(m)
    ensures CardsLeft(Advance(m).g) == CardsLeft(m.g) - 1
  {
    var u, c := AnswerGood(m);
    hide Valid, FileOk, AgreeAll, Advance, AnswerAccepted, CardsLeft, NoSuit;
    PlayUsesCard(m.g, Turn(m.g), c);
  }

  /** TAKEN removes exactly the client's own card of the trick. */
  lemma TakenAgrees(g: Game, v: View, s: Seat)
    requires FileOk(g.file) && Valid(g) && AgreeAt(g, v, s) && g.phase == Trick && |g.table| == 4
    ensures var h := DoCloseTrick(g, g.lastTaker, g.trickNumber);
            AgreeAt(h, Receive(v, TakenOf(h)).0, s)
  {
    var h := DoCloseTrick(g, g.lastTaker, g.trickNumber);
    var t := TakenOf(h);
    assert t.trick == g.table && t.number == g.trickNumber;
    TakenHeld(v, t);
    TakenLeaves(g, s);
    hide Valid, FileOk, Shape, Counters, Own, Taker, EraseEach;
  }

  lemma TakenLeaves(g: Game, s: Seat)
    requires FileOk(g.file) && Valid(g) && g.phase == Trick
    ensures multiset(g.hands[s]) + multiset(Own(g.table, g.lastTaker, s)) - multiset(g.table) == multiset(g.hands[s])
  {
    PlayedSplits(g, s);
    OwnInTrick(g.table, g.lastTaker, s);
    hide FileOk, Scored, Void, NoRevoke, HandsConserved, PackConserved, PlayedBy, Pile, Own, Rounds;
    forall c: Card ensures (multiset(g.hands[s]) + multiset(Own(g.table, g.lastTaker, s)) - multiset(g.table))[c]
                           == multiset(g.hands[s])[c]
    {
      OnePlace(g, s, c);
    }
  }

  /** Every step keeps client and server in agreement, is accepted, and brings the end one step nearer. */
  lemma AdvanceAgrees(m: Match)
    requires Agree(m) && Ready(m) && Left(m.g) > 0
    ensures Agree(Advance(m)) && Advance(m).g.file == m.g.file
    ensures Left(Advance(m).g) == Left(m.g) - 1
    ensures AsksForCard(m) ==> AnswerAccepted(m)
  {
    hide Valid, FileOk, AgreeAt, Advance;
    if AsksForCard(m) {
      AnswerStep(m);
    } else {
      QuietStep(m);
    }
  }

  /** Steps that ask no client for a card. */
  lemma QuietStep(m: Match)
    requires Agree(m) && Ready(m) && Left(m.g) > 0 && !AsksForCard(m)
    ensures Agree(Advance(m)) && Advance(m).g.file == m.g.file
    ensures Left(Advance(m).g) == Left(m.g) - 1
  {
    var g := m.g;
    hide FileOk, StaleTable, HandsConserved, PackConserved, Void, NoRevoke, Scored, Taker, EraseEach;
    hide AgreeAt, Receive, Broadcast;
    forall s: Seat { QuietAt(m, s); }
    hide AgreeAll;
    match g.phase {
      case Idle => MoveValid(g, Load);
      case Dealt => MoveValid(g, Open);
      case Lead => MoveValid(g, if g.trickNumber < 13 then Begin else CloseDeal);
      case Trick => MoveValid(g, CloseTrick);
    }
  }

  lemma QuietAt(m: Match, s: Seat)
    requires Agree(m) && Ready(m) && !AsksForCard(m)
    ensures AgreeAt(Advance(m).g, Advance(m).views[s], s)
  {
    hide Valid, FileOk, AgreeAt, Advance, DoCloseTrick, Receive, TakenOf;
    assert AgreeAt(m.g, m.views[s], s);
    if m.g.phase == Trick {
      TakenAgrees(m.g, m.views[s], s);
      TellsTaken(m, s);
    } else {
      UntrickedAt(m, s);
    }
  }

  lemma TellsTaken(m: Match, s: Seat)
    requires Ready(m) && m.g.phase == Trick && |m.g.table| == 4
    ensures var h := DoCloseTrick(m.g, m.g.lastTaker, m.g.trickNumber);
            && Advance(m).g == h && h.tricks != [] && h.takers != []
            && |Advance(m).views| == 4 && Advance(m).views[s] == Receive(m.views[s], TakenOf(h)).0
  {
    hide Receive, Taker, TrickPoints;
  }

  lemma UntrickedAt(m: Match, s: Seat)
    requires Agree(m) && Ready(m) && m.g.phase != Trick && AgreeAt(m.g, m.views[s], s)
    ensures AgreeAt(Advance(m).g, Advance(m).views[s], s)
  {
    AgreeParts(m);
    hide Agree, AgreeAll, Valid, FileOk;
    if m.g.phase == Dealt {
      DealtHand(m.g, s);
      TellsDeal(m, s);
    } else {
      hide AgreeAt, Advance;
      TellsNobody(m, s);
    }
  }

  lemma TellsNobody(m: Match, s: Seat)
    requires Ready(m) && (m.g.phase == Idle || m.g.phase == Lead) && AgreeAt(m.g, m.views[s], s)
    ensures AgreeAt(Advance(m).g, Advance(m).views[s], s)
  {
    assert Advance(m).views == m.views;
    hide Broadcast, Receive, Own;
  }

  lemma TellsDeal(m: Match, s: Seat)
    requires Ready(m) && m.g.phase == Dealt && m.views[s].played == [] && |m.g.hands[s]| == 13
    ensures AgreeAt(Advance(m).g, Advance(m).views[s], s)
  {
    var h := DoOpen(m.g);
    assert Advance(m).views[s] == Receive(m.views[s], DealMsg(h.kind, h.starter, h.hands[s])).0;
    hide Advance, Broadcast;
  }

  // ---- The whole file --------------------------------------------------------------------------

  /** The match after `n` steps. */
  function Advances(m: Match, n: nat): (r: Match)
    requires Ready(m)
    ensures Ready(r)
    decreases n
  {
    if n == 0 then m else Advances(Advance(m), n - 1)
  }

  /** How many answers are accepted, and how many refused, in `n` steps. */
  function Answers(m: Match, n: nat): (nat, nat)
    requires Ready(m)
    decreases n
  {
    if n == 0 then (0, 0)
    else
      var (a, b) := Answers(Advance(m), n - 1);
      if !AsksForCard(m) then (a, b)
      else if AnswerAccepted(m) then (a + 1, b)
      else (a, b + 1)
  }

  /** Cards still to be played in the whole file. */
  function PlaysLeft(g: Game): int {
    52 * (|g.file| - g.next) +
    match g.phase
    case Idle => 0
    case Dealt => 52
    case Lead => 4 * (13 - g.trickNumber)
    case Trick => 4 * (13 - g.trickNumber) + 4 - |g.table|
  }

  lemma {:induction false} AdvancesAgree(m: Match, n: nat)
    requires Agree(m) && Ready(m) && n <= Left(m.g)
    ensures var r := Advances(m, n).g;
            && Agree(Advances(m, n)) && r.file == m.g.file && Left(r) == Left(m.g) - n
            && Answers(m, n) == (PlaysLeft(m.g) - PlaysLeft(r), 0)
    decreases n
  {
    hide Agree, Ready, Advance, AnswerAccepted, AsksForCard, Left, PlaysLeft;
    if n > 0 {
      AdvanceAgrees(m);
      AdvancePlays(m);
      AdvancesAgree(Advance(m), n - 1);
    }
  }

  lemma AdvancePlays(m: Match)
    requires Agree(m) && Ready(m) && Left(m.g) > 0
    ensures AsksForCard(m) ==> AnswerAccepted(m)
    ensures PlaysLeft(Advance(m).g) == PlaysLeft(m.g) - if AsksForCard(m) then 1 else 0
  {
    hide FileOk, StaleTable, HandsConserved, PackConserved, Void, NoRevoke, Scored, AgreeAt;
    if AsksForCard(m) {
      var u, c := AnswerGood(m);
      hide Advance, AnswerAccepted;
    } else {
      hide Broadcast, AnswerAccepted;
    }
  }

  lemma PlayedOut(m: Match)
    requires Agree(m) && Left(m.g) == 0
    ensures m.g.phase == Idle && m.g.next == |m.g.file| && PlaysLeft(m.g) == 0
    ensures Sum(m.g.totalScores) == FileTotal(m.g.file, m.g.next)
  {
    hide HandsConserved, PackConserved, Void, NoRevoke, FileOk, AgreeAll;
  }

  /** A server that has read nothing yet and four clients that have received nothing. */
  predicate Fresh(m: Match) {
    Blank(m.g) && m.views == [NewView(0), NewView(1), NewView(2), NewView(3)]
  }

  lemma FreshAgrees(m: Match)
    requires FileOk(m.g.file) && Fresh(m)
    ensures Agree(m) && Ready(m)
  {
    assert forall i | 0 <= i < |m.g.file| :: Sized(m.g.file[i]);
    StartValid(m.g);
    hide FullPack, Valid;
  }

  /** Four automatic clients play the whole game file: every answer is accepted, each deal takes exactly 52
      of them, and the server ends with all deals scored. */
  lemma AutomaticGame(m: Match)
    requires FileOk(m.g.file) && Fresh(m) && Ready(m)
    ensures var n := |m.g.file|;
            var r := Advances(m, 81 * n).g;
            && r.phase == Idle && r.next == n && r.file == m.g.file
            && Answers(m, 81 * n) == (52 * n, 0)
            && Sum(r.totalScores) == FileTotal(r.file, n)
  {
    hide *;
    FreshAgrees(m);
    FreshLeft(m);
    AdvancesAgree(m, 81 * |m.g.file|);
    PlayedOut(Advances(m, 81 * |m.g.file|));
  }

  lemma FreshLeft(m: Match)
    requires Fresh(m)
    ensures Left(m.g) == 81 * |m.g.file| && PlaysLeft(m.g) == 52 * |m.g.file|
  {
  }
}
