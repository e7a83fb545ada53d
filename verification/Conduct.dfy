/** Every run of the sequential game keeps `Valid`; what that means for cards, suits and points. */
module Conduct {
  import opened Cards
  import opened Points
  import opened GameModel

  // ---- Small facts about the records -------------------------------------------------------------

  lemma {:induction false} PlayedByLonger(rounds: seq<seq<Card>>, leaders: seq<Seat>, more: seq<Seat>, s: Seat)
    requires |rounds| <= |leaders|
    ensures PlayedBy(rounds, leaders + more, s) == PlayedBy(rounds, leaders, s)
  {
    if rounds != [] {
      PlayedByLonger(rounds[..|rounds| - 1], leaders, more, s);
    }
  }

  lemma PlayedByLast(rounds: seq<seq<Card>>, last: seq<Card>, leaders: seq<Seat>, s: Seat)
    requires |rounds| < |leaders|
    ensures PlayedBy(rounds + [last], leaders, s) == PlayedBy(rounds, leaders, s) + Own(last, leaders[|rounds|], s)
  {
    assert (rounds + [last])[..|rounds|] == rounds;
  }

  lemma PileLast(rounds: seq<seq<Card>>, last: seq<Card>)
    ensures Pile(rounds + [last]) == Pile(rounds) + multiset(last)
  {
    assert (rounds + [last])[..|rounds|] == rounds;
  }

  /** What a card on the table changes for a seat: only the seat whose place it is gains an own card. */
  lemma OwnAfterPlay(table: seq<Card>, c: Card, leader: Seat, s: Seat)
    requires |table| < 4
    ensures s == Place(leader, |table|) ==> Own(table, leader, s) == [] && Own(table + [c], leader, s) == [c]
    ensures s != Place(leader, |table|) ==> Own(table + [c], leader, s) == Own(table, leader, s)
  {
  }

  // ---- Each move keeps Valid, one conjunct at a time -------------------------------------------------

  lemma MoveShape(g: Game, m: Move)
    requires FileOk(g.file) && Shape(g) && Counters(g) && StaleTable(g) && Enabled(g, m)
    ensures Shape(Apply(g, m)) && Counters(Apply(g, m)) && StaleTable(Apply(g, m))
  {
    if m.Load? {
      assert Sized(g.file[g.next]);
    }
  }

  /** Moves that only regroup the records keep what is said about cards. */
  lemma SameRecords(g: Game, h: Game, more: seq<Seat>)
    requires Shape(g) && Shape(h) && |Rounds(g)| <= |Leaders(g)|
    requires Rounds(h) == Rounds(g) && Leaders(h) == Leaders(g) + more && h.hands == g.hands && h.deal == g.deal
    requires HandsConserved(g) && PackConserved(g) && Void(g) && NoRevoke(g)
    ensures HandsConserved(h) && PackConserved(h) && Void(h) && NoRevoke(h)
  {
    forall s: Seat ensures PlayedBy(Rounds(h), Leaders(h), s) == PlayedBy(Rounds(g), Leaders(g), s) {
      PlayedByLonger(Rounds(g), Leaders(g), more, s);
    }
  }

  lemma BeginRecords(g: Game)
    requires Shape(g) && Counters(g) && Enabled(g, Begin) && Shape(DoBegin(g))
    requires HandsConserved(g) && PackConserved(g) && Void(g) && NoRevoke(g)
    ensures HandsConserved(DoBegin(g)) && PackConserved(DoBegin(g)) && Void(DoBegin(g)) && NoRevoke(DoBegin(g))
  {
    BeginCards(g);
    BeginVoids(g);
    hide Void, NoRevoke, HandsConserved, PackConserved, Counters, Enabled;
  }

  lemma BeginCards(g: Game)
    requires Shape(g) && Counters(g) && Enabled(g, Begin) && Shape(DoBegin(g))
    requires HandsConserved(g) && PackConserved(g)
    ensures HandsConserved(DoBegin(g)) && PackConserved(DoBegin(g))
  {
    var h := DoBegin(g);
    assert Rounds(g) == g.tricks && Rounds(h) == g.tricks + [[]] && Leaders(h) == Leaders(g);
    hide PlayedBy, Pile, Leaders, Enabled, Counters, HandsBag;
    PileLast(g.tricks, []);
    forall s: Seat ensures PlayedBy(Rounds(h), Leaders(h), s) == PlayedBy(Rounds(g), Leaders(g), s) {
      PlayedByLast(g.tricks, [], Leaders(g), s);
    }
  }

  lemma BeginVoids(g: Game)
    requires Shape(g) && Counters(g) && Enabled(g, Begin) && Shape(DoBegin(g)) && Void(g) && NoRevoke(g)
    ensures Void(DoBegin(g)) && NoRevoke(DoBegin(g))
  {
    var h := DoBegin(g);
    assert Rounds(g) == g.tricks && Rounds(h) == g.tricks + [[]] && Leaders(h) == Leaders(g);
    hide Enabled, Counters, Leaders;
  }

  lemma PlayHand(g: Game, c: Card, s: Seat)
    requires Shape(g) && Counters(g) && HandsConserved(g) && Enabled(g, Play(c))
    ensures var h := DoPlay(g, Turn(g), c);
            && |Rounds(h)| <= |Leaders(h)|
            && multiset(h.deal[s]) == multiset(h.hands[s]) + multiset(PlayedBy(Rounds(h), Leaders(h), s))
            && (PlayedBy(Rounds(h), Leaders(h), s) == [] ==> h.hands[s] == h.deal[s])
  {
    assert |g.table| < 4;
    hide PlayedBy, Erase, Counters, Enabled, Leaders, Rounds, Turn;
    PlayRecords(g, c, s);
    PlayTakes(g, c, s);
    var mine := PlayedBy(Rounds(g), Leaders(g), s);
    if s == Turn(g) {
      PlayedOne(g.deal[s], g.hands[s], DoPlay(g, Turn(g), c).hands[s], mine, c);
    } else {
      assert mine + [] == mine;
    }
  }

  /** A card that leaves the hand joins the cards played. */
  lemma PlayedOne(deal: seq<Card>, hand: seq<Card>, less: seq<Card>, mine: seq<Card>, c: Card)
    requires multiset(deal) == multiset(hand) + multiset(mine) && multiset(less) + multiset{c} == multiset(hand)
    ensures multiset(deal) == multiset(less) + multiset(mine + [c]) && mine + [c] != []
  {
  }

  lemma PlayRecords(g: Game, c: Card, s: Seat)
    requires Shape(g) && Counters(g) && Enabled(g, Play(c))
    ensures var h := DoPlay(g, Turn(g), c);
            && |Rounds(g)| <= |Leaders(g)| && |Rounds(h)| <= |Leaders(h)| && h.deal == g.deal
            && PlayedBy(Rounds(h), Leaders(h), s)
               == PlayedBy(Rounds(g), Leaders(g), s) + if s == Turn(g) then [c] else []
  {
    hide PlayedBy, Own, Erase, Place, Pos;
    var h := DoPlay(g, Turn(g), c);
    assert Leaders(h) == Leaders(g) && Leaders(g)[|g.tricks|] == g.lastTaker;
    PlayedByLast(g.tricks, g.table, Leaders(g), s);
    PlayedByLast(g.tricks, h.table, Leaders(g), s);
    OwnAfterPlay(g.table, c, g.lastTaker, s);
    hide Leaders;
  }

  lemma PlayTakes(g: Game, c: Card, s: Seat)
    requires Shape(g) && Enabled(g, Play(c))
    ensures var h := DoPlay(g, Turn(g), c);
            if s == Turn(g) then multiset(h.hands[s]) + multiset{c} == multiset(g.hands[s]) else h.hands[s] == g.hands[s]
  {
    if s == Turn(g) {
      EraseBag(g.hands[s], c);
    }
    hide Erase, Place;
  }

  lemma PlayHands(g: Game, c: Card)
    requires Shape(g) && Counters(g) && HandsConserved(g) && Enabled(g, Play(c))
    ensures HandsConserved(DoPlay(g, Turn(g), c))
  {
    hide PlayedBy, Erase;
    forall s: Seat { PlayHand(g, c, s); }
  }

  lemma HandsBagErase(hands: seq<seq<Card>>, s: Seat, c: Card)
    requires |hands| == 4 && c in hands[s]
    ensures HandsBag(hands[s := Erase(hands[s], c)]) + multiset{c} == HandsBag(hands)
  {
    EraseBag(hands[s], c);
    assert multiset(Erase(hands[s], c)) + multiset{c} == multiset(hands[s]);
  }

  /** A card that leaves one pile for another leaves the sum as it was. */
  lemma MoveOver(a: multiset<Card>, a': multiset<Card>, b: multiset<Card>, b': multiset<Card>, c: Card)
    requires a' + multiset{c} == a && b' == b + multiset{c}
    ensures a' + b' == a + b
  {
  }

  lemma PlayPack(g: Game, c: Card)
    requires Shape(g) && Counters(g) && PackConserved(g) && Enabled(g, Play(c))
    ensures PackConserved(DoPlay(g, Turn(g), c))
  {
    var h := DoPlay(g, Turn(g), c);
    assert Rounds(g) == g.tricks + [g.table] && Rounds(h) == g.tricks + [h.table];
    HandsBagErase(g.hands, Turn(g), c);
    hide HandsBag, Pile, Erase, Rounds, Legal;
    PileLast(g.tricks, g.table);
    PileLast(g.tricks, h.table);
    MoveOver(HandsBag(g.hands), HandsBag(h.hands), Pile(Rounds(g)), Pile(Rounds(h)), c);
  }

  lemma LoadCards(g: Game)
    requires FileOk(g.file) && Shape(g) && Enabled(g, Load)
    ensures Shape(DoLoad(g)) ==> HandsConserved(DoLoad(g)) && PackConserved(DoLoad(g))
    ensures Shape(DoLoad(g)) ==> Void(DoLoad(g)) && NoRevoke(DoLoad(g))
  {
    assert Rounds(DoLoad(g)) == [];
  }

  lemma PlayVoid(g: Game, c: Card)
    requires Shape(g) && Counters(g) && Void(g) && Enabled(g, Play(c))
    ensures Void(DoPlay(g, Turn(g), c))
  {
    var h, t, n := DoPlay(g, Turn(g), c), Turn(g), |g.tricks|;
    var r, q, l := Rounds(g), Rounds(h), Leaders(g);
    assert r == g.tricks + [g.table] && q == g.tricks + [h.table] && Leaders(h) == l;
    hide Rounds, Leaders, Erase, Enabled, Counters;
    forall j, s: Seat | 0 <= j <= n && OffSuit(q[j], l[j], s) ensures NoSuit(h.hands[s], q[j][0].suit) {
      if j < n {
        assert q[j] == r[j];
        HandShrinks(g, c, s, q[j][0].suit);
      } else {
        LastVoid(g, c, s);
      }
    }
  }

  /** A hand without a suit stays without it. */
  lemma HandShrinks(g: Game, c: Card, s: Seat, suit: Suit)
    requires Shape(g) && Enabled(g, Play(c)) && NoSuit(g.hands[s], suit)
    ensures NoSuit(DoPlay(g, Turn(g), c).hands[s], suit)
  {
    EraseBag(g.hands[s], c);
    hide Erase;
  }

  /** Who is off the led suit in the running trick has none of it, because a card off it was accepted. */
  lemma LastVoid(g: Game, c: Card, s: Seat)
    requires Shape(g) && Counters(g) && Void(g) && Enabled(g, Play(c)) && OffSuit(g.table + [c], g.lastTaker, s)
    ensures NoSuit(DoPlay(g, Turn(g), c).hands[s], (g.table + [c])[0].suit)
  {
    var n := |g.tricks|;
    assert Rounds(g)[n] == g.table && Leaders(g)[n] == g.lastTaker;
    OwnAfterPlay(g.table, c, g.lastTaker, s);
    assert g.table != [];
    assert (g.table + [c])[0] == g.table[0];
    if s != Turn(g) {
      assert OffSuit(Rounds(g)[n], Leaders(g)[n], s);
    }
    hide Rounds, Leaders, Own, Erase;
    HandShrinks(g, c, s, g.table[0].suit);
  }

  lemma PlayNoRevoke(g: Game, c: Card)
    requires Shape(g) && Counters(g) && Void(g) && NoRevoke(g) && Enabled(g, Play(c))
    ensures NoRevoke(DoPlay(g, Turn(g), c))
  {
    var h, t, n := DoPlay(g, Turn(g), c), Turn(g), |g.tricks|;
    var r, q, l := Rounds(g), Rounds(h), Leaders(g);
    assert r == g.tricks + [g.table] && q == g.tricks + [h.table] && Leaders(h) == l;
    hide Erase, Place, Pos;
    forall j, k, s: Seat | 0 <= j < k <= n && OffSuit(q[j], l[j], s) ensures NoSuit(Own(q[k], l[k], s), q[j][0].suit) {
      OwnAfterPlay(g.table, c, g.lastTaker, s);
      assert OffSuit(r[j], l[j], s) && q[j] == r[j];
      if k == n && s == t {
        assert NoSuit(g.hands[s], r[j][0].suit);
        assert Own(q[k], l[k], s) == [c];
      } else {
        assert Own(q[k], l[k], s) == Own(r[k], l[k], s);
      }
    }
  }

  lemma TallyLast(kind: int, tricks: seq<seq<Card>>, takers: seq<Seat>, trick: seq<Card>, t: Seat, s: Seat)
    requires |tricks| == |takers|
    ensures Tally(kind, tricks + [trick], takers + [t], s)
            == Tally(kind, tricks, takers, s) + if t == s then TrickPoints(kind, |tricks| + 1, trick) else 0
  {
    assert (tricks + [trick])[..|tricks|] == tricks && (takers + [t])[..|tricks|] == takers;
  }

  lemma CloseTrickTakers(g: Game)
    requires Shape(g) && Counters(g) && Scored(g) && Enabled(g, CloseTrick)
    ensures var h := Apply(g, CloseTrick);
            forall j | 0 <= j < |h.tricks| :: |h.tricks[j]| == 4 && h.takers[j] == Taker(h.tricks[j], Leaders(h)[j])
  {
    var h := Apply(g, CloseTrick);
    assert |h.tricks| == |h.takers| == |g.tricks| + 1;
    hide *;
    forall j | 0 <= j < |h.tricks| { CloseTrickTaker(g, j); }
  }

  lemma CloseTrickTaker(g: Game, j: nat)
    requires Shape(g) && Counters(g) && Scored(g) && Enabled(g, CloseTrick) && j <= |g.tricks|
    ensures var h := Apply(g, CloseTrick);
            && |h.tricks| == |h.takers| == |g.tricks| + 1 && |Leaders(h)| > j
            && |h.tricks[j]| == 4 && h.takers[j] == Taker(h.tricks[j], Leaders(h)[j])
  {
    hide Taker, TrickPoints, Tally, FileTotal, Sum;
    assert Leaders(Apply(g, CloseTrick))[j] == Leaders(g)[j];
    if j < |g.tricks| {
      assert g.tricks[j] in g.tricks;
      assert g.takers[j] == Taker(g.tricks[j], Leaders(g)[j]);
    }
    hide Leaders;
  }

  lemma CloseTrickScores(g: Game)
    requires Shape(g) && Counters(g) && Scored(g) && Enabled(g, CloseTrick)
    ensures Shape(Apply(g, CloseTrick)) ==> Scored(Apply(g, CloseTrick))
  {
    hide Taker, TrickPoints, Tally, FileTotal, Sum;
    CloseTrickTakers(g);
    forall s: Seat { CloseTrickTally(g, s); }
    hide Leaders;
  }

  lemma CloseTrickTally(g: Game, s: Seat)
    requires Shape(g) && Counters(g) && Scored(g) && Enabled(g, CloseTrick)
    ensures var h := Apply(g, CloseTrick);
            |h.scores| == 4 && |h.tricks| == |h.takers| && h.scores[s] == Tally(h.kind, h.tricks, h.takers, s)
  {
    hide Taker, TrickPoints, Tally, FileTotal, Sum, Leaders;
    assert g.scores[s] == Tally(g.kind, g.tricks, g.takers, s);
    TallyLast(g.kind, g.tricks, g.takers, g.table, Taker(g.table, g.lastTaker), s);
  }

  lemma CloseDealScores(g: Game)
    requires FileOk(g.file) && Shape(g) && Counters(g) && Scored(g) && PackConserved(g) && Enabled(g, CloseDeal)
    ensures Shape(Apply(g, CloseDeal)) ==> Scored(Apply(g, CloseDeal))
  {
    hide Taker, TrickPoints, PackConserved;
    DealIsWorth(g);
    Sum4(g.scores);
    Sum4(g.totalScores);
    Sum4(Apply(g, CloseDeal).totalScores);
  }

  lemma OtherScores(g: Game, m: Move)
    requires Shape(g) && Counters(g) && Scored(g) && Enabled(g, m) && !m.CloseTrick? && !m.CloseDeal?
    ensures Shape(Apply(g, m)) ==> Scored(Apply(g, m))
  {
    hide Taker;
  }

  lemma MoveRecords(g: Game, m: Move)
    requires FileOk(g.file) && Valid(g) && Enabled(g, m)
    requires Shape(Apply(g, m)) && Counters(Apply(g, m))
    ensures var h := Apply(g, m); HandsConserved(h) && PackConserved(h) && Void(h) && NoRevoke(h)
  {
    hide HandsConserved, PackConserved, Void, NoRevoke, Scored, PlayedBy, Pile;
    match m
    case Load => LoadCards(g);
    case Open => SameRecords(g, DoOpen(g), []);
    case Begin => BeginRecords(g);
    case Play(c) =>
      PlayHands(g, c);
      PlayPack(g, c);
      PlayVoid(g, c);
      PlayNoRevoke(g, c);
    case CloseTrick =>
      var h := DoCloseTrick(g, g.lastTaker, g.trickNumber);
      SameRecords(g, h, [h.lastTaker]);
    case CloseDeal => SameRecords(g, DoCloseDeal(g), []);
  }

  lemma MoveScores(g: Game, m: Move)
    requires FileOk(g.file) && Valid(g) && Enabled(g, m)
    requires Shape(Apply(g, m)) && Counters(Apply(g, m))
    ensures Scored(Apply(g, m))
  {
    hide HandsConserved, Void, NoRevoke, Scored;
    match m
    case CloseTrick => CloseTrickScores(g);
    case CloseDeal => CloseDealScores(g);
    case _ => OtherScores(g, m);
  }

  lemma MoveValid(g: Game, m: Move)
    requires FileOk(g.file) && Valid(g) && Enabled(g, m)
    ensures Valid(Apply(g, m)) && Apply(g, m).file == g.file
  {
    MoveShape(g, m);
    var h := Apply(g, m);
    assert h.file == g.file;
    hide *;
    MoveRecords(g, m);
    MoveScores(g, m);
  }

  // ---- The points of a whole deal ----------------------------------------------------------------

  /** The cards of the recorded tricks, end to end. */
  function Flat(tricks: seq<seq<Card>>): seq<Card> {
    if tricks == [] then [] else Flat(tricks[..|tricks| - 1]) + tricks[|tricks| - 1]
  }

  lemma {:induction false} FlatPile(tricks: seq<seq<Card>>)
    ensures multiset(Flat(tricks)) == Pile(tricks)
    ensures (forall t | t in tricks :: |t| == 4) ==> |Flat(tricks)| == 4 * |tricks|
  {
    if tricks != [] {
      assert tricks == tricks[..|tricks| - 1] + [tricks[|tricks| - 1]];
      FlatPile(tricks[..|tricks| - 1]);
    }
  }

  function BonusUpTo(kind: int, n: nat): nat {
    if n == 0 then 0 else BonusUpTo(kind, n - 1) + TrickBonus(kind, n)
  }

  /** Nothing is lost between the seats: their tallies add up to the worth of the tricks. */
  lemma {:induction false} TallySum(kind: int, tricks: seq<seq<Card>>, takers: seq<Seat>)
    requires |tricks| == |takers|
    ensures Tally(kind, tricks, takers, 0) + Tally(kind, tricks, takers, 1)
            + Tally(kind, tricks, takers, 2) + Tally(kind, tricks, takers, 3)
            == Weight(kind, Flat(tricks)) + BonusUpTo(kind, |tricks|)
  {
    if tricks != [] {
      var n := |tricks| - 1;
      TallySum(kind, tricks[..n], takers[..n]);
      WeightAppend(kind, Flat(tricks[..n]), tricks[n]);
    }
  }

  /** One point a trick under type 1; tricks 7 and 13 cost 40 each under type 6; both under type 7. */
  lemma {:induction false} BonusSoFar(kind: int, n: nat)
    requires n <= 13
    ensures BonusUpTo(kind, n) == match kind
            case 1 => n
            case 6 => if n < 7 then 0 else if n < 13 then 40 else 80
            case 7 => n + if n < 7 then 0 else if n < 13 then 40 else 80
            case _ => 0
  {
    if n > 0 {
      BonusSoFar(kind, n - 1);
      assert TrickBonus(7, n) == TrickBonus(1, n) + TrickBonus(6, n);
    }
  }

  /** Once thirteen tricks are recorded they hold the whole deck. */
  lemma AllPlayed(g: Game)
    requires FileOk(g.file) && Shape(g) && PackConserved(g) && g.next > 0
    requires |g.tricks| == 13 && g.phase != Trick
    ensures forall c: Card :: multiset(Flat(g.tricks))[c] == 1
    ensures forall s: Seat :: g.hands[s] == []
  {
    FlatPile(g.tricks);
    assert Rounds(g) == g.tricks;
    assert Sized(g.file[g.next - 1]);
    assert |HandsBag(g.deal)| == 52;
    assert |HandsBag(g.hands)| == |g.hands[0]| + |g.hands[1]| + |g.hands[2]| + |g.hands[3]|;
    assert |Pile(g.tricks)| == 52;
    assert HandsBag(g.hands) == multiset{};
    assert FullPack(g.file[g.next - 1]);
    forall c: Card ensures multiset(Flat(g.tricks))[c] == 1 {
      assert multiset(Flat(g.tricks))[c] == HandsBag(g.deal)[c];
    }
  }

  /** A pile that holds every card once weighs as much as the deck. */
  lemma PackWeight(kind: int, cards: seq<Card>)
    requires 1 <= kind <= 7 && forall c: Card :: multiset(cards)[c] == 1
    ensures Weight(kind, cards) == match kind case 1 => 0 case 6 => 0 case 7 => 67 case _ => DealTotal(kind)
  {
    hide Deck;
    forall c: Card ensures multiset(cards)[c] == multiset(Deck())[c] { DeckDistinct(c); }
    WeightOfBag(kind, cards, Deck());
    DeckWeight(kind);
  }

  /** Whatever was played, a finished deal is worth the fixed total of its trick type. */
  lemma DealIsWorth(g: Game)
    requires FileOk(g.file) && Shape(g) && PackConserved(g) && Scored(g) && g.next > 0
    requires |g.tricks| == 13 && g.phase != Trick && g.phase != Dealt
    ensures Sum(g.scores) == DealTotal(g.kind)
  {
    hide FullPack, Taker;
    assert Sized(g.file[g.next - 1]);
    AllPlayed(g);
    TallySum(g.kind, g.tricks, g.takers);
    Sum4(g.scores);
    PackWeight(g.kind, Flat(g.tricks));
    BonusSoFar(g.kind, 13);
  }

  // ---- Whole runs ------------------------------------------------------------------------------

  predicate Runs(g: Game, moves: seq<Move>)
    decreases |moves|
  {
    moves == [] || (Enabled(g, moves[0]) && Runs(Apply(g, moves[0]), moves[1..]))
  }

  function Exec(g: Game, moves: seq<Move>): Game
    requires Runs(g, moves)
    decreases |moves|
  {
    if moves == [] then g else Exec(Apply(g, moves[0]), moves[1..])
  }

  lemma {:induction false} RunValid(g: Game, moves: seq<Move>)
    requires FileOk(g.file) && Valid(g) && Runs(g, moves)
    ensures Valid(Exec(g, moves)) && Exec(g, moves).file == g.file
    decreases |moves|
  {
    if moves != [] {
      MoveValid(g, moves[0]);
      RunValid(Apply(g, moves[0]), moves[1..]);
    }
  }

  lemma StartValid(g: Game)
    requires Blank(g)
    ensures Valid(g)
  {
    Sum4(g.totalScores);
    assert Rounds(g) == [];
  }

  // ---- What that means, for every run of the server ----------------------------------------------

  /** Cards are neither lost nor made: what was dealt to a seat is in its hand or was played by it, a hand
      is thirteen less those plays, and hands and tricks together hold each card of the deck once. */
  lemma CardConservation(g0: Game, moves: seq<Move>, s: Seat, c: Card)
    requires Blank(g0) && FileOk(g0.file) && Runs(g0, moves)
    ensures var g := Exec(g0, moves);
            g.next > 0 ==>
              && |g.deal| == |g.hands| == 4 && |Rounds(g)| <= |Leaders(g)|
              && multiset(g.deal[s]) == multiset(g.hands[s]) + multiset(PlayedBy(Rounds(g), Leaders(g), s))
              && |g.hands[s]| == 13 - |PlayedBy(Rounds(g), Leaders(g), s)|
              && (HandsBag(g.hands) + Pile(Rounds(g)))[c] == 1
  {
    StartValid(g0);
    RunValid(g0, moves);
    var g := Exec(g0, moves);
    hide Scored, Void, NoRevoke, Exec, Runs, Blank;
    if g.next > 0 {
      assert Sized(g.file[g.next - 1]) && FullPack(g.file[g.next - 1]);
      var mine := PlayedBy(Rounds(g), Leaders(g), s);
      assert |multiset(g.deal[s])| == |multiset(g.hands[s])| + |multiset(mine)|;
    }
  }

  /** A seat that plays off the led suit in trick `j` plays no card of that suit in any later trick. */
  lemma NoRevokeEver(g0: Game, moves: seq<Move>, j: nat, k: nat, s: Seat)
    requires Blank(g0) && FileOk(g0.file) && Runs(g0, moves)
    ensures var g := Exec(g0, moves);
            && |Rounds(g)| <= |Leaders(g)|
            && (j < k < |Rounds(g)| && OffSuit(Rounds(g)[j], Leaders(g)[j], s) ==>
                  NoSuit(Own(Rounds(g)[k], Leaders(g)[k], s), Rounds(g)[j][0].suit))
  {
    StartValid(g0);
    RunValid(g0, moves);
  }

  /** Points are conserved: a finished deal is worth its fixed total and the running totals are the sum of
      the totals of all deals finished so far, whatever was played. */
  lemma ScoreConservation(g0: Game, moves: seq<Move>)
    requires Blank(g0) && FileOk(g0.file) && Runs(g0, moves)
    ensures var g := Exec(g0, moves);
            && 0 <= Finished(g) <= |g.file|
            && Sum(g.totalScores) == FileTotal(g.file, Finished(g)) <= 160 * Finished(g)
            && (g.phase == Idle && g.next > 0 ==> Sum(g.roundScores) == DealTotal(g.file[g.next - 1].kind))
  {
    StartValid(g0);
    RunValid(g0, moves);
    var g := Exec(g0, moves);
    hide Exec, Runs, Blank, HandsConserved, Void, NoRevoke, FullPack, Taker;
    FileTotalBound(g.file, Finished(g));
    if g.phase == Idle && g.next > 0 {
      DealIsWorth(g);
    }
  }

  /** What the running deal has cost so far: of the tricks recorded, one point each under type 1; 40 for the seventh and
      40 for the last under type 6; and what their cards cost under the types that look at cards. */
  lemma PointsSoFar(g0: Game, moves: seq<Move>)
    requires Blank(g0) && FileOk(g0.file) && Runs(g0, moves)
    ensures var g := Exec(g0, moves);
            var n := |g.tricks|;
            g.next > 0 && g.phase != Dealt ==>
              && 0 < g.next <= |g.file| && g.kind == g.file[g.next - 1].kind && n <= 13
              && Sum(g.scores) == (match g.kind
                                   case 1 => n
                                   case 6 => if n < 7 then 0 else if n < 13 then 40 else 80
                                   case 7 => Weight(7, Flat(g.tricks)) + n + if n < 7 then 0 else if n < 13 then 40 else 80
                                   case _ => Weight(g.kind, Flat(g.tricks)))
  {
    hide *;
    StartValid(g0);
    RunValid(g0, moves);
    var g := Exec(g0, moves);
    if g.next > 0 && g.phase != Dealt {
      SumOfTallies(g);
      BonusSoFar(g.kind, |g.tricks|);
      WeightBandit(Flat(g.tricks));
    }
  }

  lemma SumOfTallies(g: Game)
    requires FileOk(g.file) && Valid(g) && g.next > 0 && g.phase != Dealt
    ensures 0 < g.next <= |g.file| && 1 <= g.kind == g.file[g.next - 1].kind <= 7 && |g.tricks| <= 13
    ensures Sum(g.scores) == Weight(g.kind, Flat(g.tricks)) + BonusUpTo(g.kind, |g.tricks|)
  {
    hide FileOk, HandsConserved, PackConserved, Void, NoRevoke, FullPack, Taker, Weight, BonusUpTo;
    KindFits(g.file, g.next - 1);
    TallySum(g.kind, g.tricks, g.takers);
    Sum4(g.scores);
  }

  lemma KindFits(file: seq<Deal>, i: int)
    requires FileOk(file)
    ensures 0 <= i < |file| ==> 1 <= file[i].kind <= 7
  {
    hide FullPack;
    if 0 <= i < |file| { assert Sized(file[i]); }
  }

  // ---- Points seat by seat

  /** Only the end of a deal changes the totals, and it adds to each seat what that seat took in the deal. */
  lemma TotalsStep(g: Game, m: Move, s: Seat)
    requires FileOk(g.file) && Valid(g) && Enabled(g, m)
    ensures |g.totalScores| == |Apply(g, m).totalScores| == |Apply(g, m).roundScores| == 4 && |g.tricks| == |g.takers|
    ensures Apply(g, m).totalScores[s]
            == g.totalScores[s] + if m.CloseDeal? then Tally(g.kind, g.tricks, g.takers, s) else 0
    ensures m.CloseDeal? ==> Apply(g, m).roundScores[s] == Tally(g.kind, g.tricks, g.takers, s)
    ensures !m.CloseDeal? ==> Apply(g, m).roundScores == g.roundScores
  {
    hide HandsConserved, PackConserved, Void, NoRevoke, Tally, Taker, TrickPoints;
  }

  /** What seat `s` takes in the deals that end during a run. */
  function Collected(g: Game, moves: seq<Move>, s: Seat): int
    requires FileOk(g.file) && Valid(g) && Runs(g, moves)
    decreases |moves|
  {
    if moves == [] then 0
    else
      MoveValid(g, moves[0]);
      TotalsStep(g, moves[0], s);
      (if moves[0].CloseDeal? then Tally(g.kind, g.tricks, g.takers, s) else 0)
      + Collected(Apply(g, moves[0]), moves[1..], s)
  }

  lemma {:induction false} TotalsGrow(g: Game, moves: seq<Move>, s: Seat)
    requires FileOk(g.file) && Valid(g) && Runs(g, moves)
    ensures |g.totalScores| == |Exec(g, moves).totalScores| == 4
    ensures Exec(g, moves).totalScores[s] == g.totalScores[s] + Collected(g, moves, s)
    decreases |moves|
  {
    hide Valid, FileOk, Apply, Enabled;
    FourTotals(g);
    if moves != [] {
      MoveValid(g, moves[0]);
      TotalsStep(g, moves[0], s);
      TotalsGrow(Apply(g, moves[0]), moves[1..], s);
    }
  }

  lemma FourTotals(g: Game)
    requires Valid(g)
    ensures |g.totalScores| == |g.roundScores| == 4 && |g.tricks| == |g.takers|
  {
    hide HandsConserved, PackConserved, Void, NoRevoke, Scored, Counters, StaleTable;
  }

  /** Each seat's total is the sum of what that seat took in the deals played, and after a deal the round scores are
      what the seats took in it. */
  lemma TotalsPerSeat(g0: Game, moves: seq<Move>, s: Seat)
    requires Blank(g0) && FileOk(g0.file) && Runs(g0, moves)
    ensures Valid(g0)
    ensures var g := Exec(g0, moves);
            && |g.totalScores| == |g.roundScores| == 4 && |g.tricks| == |g.takers|
            && g.totalScores[s] == Collected(g0, moves, s)
            && (g.phase == Idle && g.next > 0 ==> g.roundScores[s] == Tally(g.kind, g.tricks, g.takers, s))
  {
    StartValid(g0);
    RunValid(g0, moves);
    TotalsGrow(g0, moves, s);
    hide Exec, Runs, Collected, HandsConserved, PackConserved, Void, NoRevoke, Tally, Taker, FullPack;
  }

  lemma {:induction false} FileTotalBound(file: seq<Deal>, n: nat)
    requires n <= |file|
    ensures FileTotal(file, n) <= 160 * n
  {
    if n > 0 { FileTotalBound(file, n - 1); }
  }

  // ---- There are game files ------------------------------------------------------------------------

  lemma {:induction false} SuitLength(suit: Suit, r: int)
    requires 2 <= r <= 15
    ensures |SuitFrom(suit, r)| == 15 - r
    decreases 15 - r
  {
    if r <= 14 { SuitLength(suit, r + 1); }
  }

  /** A deal that gives every seat one suit is a deal of the whole deck. */
  lemma PackOfSuits(kind: int, starter: Seat)
    requires 1 <= kind <= 7
    ensures FileOk([Deal(kind, starter, [SuitFrom(Clubs, 2), SuitFrom(Diamonds, 2), SuitFrom(Hearts, 2), SuitFrom(Spades, 2)])])
  {
    hide SuitFrom;
    var d := Deal(kind, starter, [SuitFrom(Clubs, 2), SuitFrom(Diamonds, 2), SuitFrom(Hearts, 2), SuitFrom(Spades, 2)]);
    SuitLength(Clubs, 2);
    SuitLength(Diamonds, 2);
    SuitLength(Hearts, 2);
    SuitLength(Spades, 2);
    assert Sized(d);
    forall c: Card ensures HandsBag(d.hands)[c] == 1 {
      SuitFromDistinct(Clubs, 2, c);
      SuitFromDistinct(Diamonds, 2, c);
      SuitFromDistinct(Hearts, 2, c);
      SuitFromDistinct(Spades, 2, c);
    }
    assert FullPack(d);
  }
}
