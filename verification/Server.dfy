/** The sequential server: the shared fields of `Serwer`, updated in place by its locked sections, and
    `run_deal` fed with client messages in the order in which they are parsed. */
module Server {
  import opened Cards
  import opened Points
  import opened GameModel
  import opened Conduct

  /** A TRICK message of a client: who sent it, and what it says. */
  datatype Message = Message(seat: Seat, said: Input)

  /** Each seat's round score is what it took in the deal just ended, and its total has grown by that. */
  ghost predicate PaidOut(before: seq<int>, g: Game) {
    && |before| == |g.totalScores| == |g.roundScores| == 4 && |g.tricks| == |g.takers|
    && forall s: Seat ::
         && g.roundScores[s] == Tally(g.kind, g.tricks, g.takers, s)
         && g.totalScores[s] == before[s] + g.roundScores[s]
  }

  class Serwer {
    const file: seq<Deal>
    var next: nat
    ghost var phase: Phase
    var trickType: int
    var dealStarter: Seat
    var deal: seq<seq<Card>>
    var cards: seq<seq<Card>>
    var cardsOnTable: seq<Card>
    var trickNumber: nat
    var lastTaker: Seat
    var takenTricks: seq<seq<Card>>
    var takenTakers: seq<Seat>
    var scores: seq<int>
    var roundScores: seq<int>
    var totalScores: seq<int>

    ghost function State(): Game
      reads this
    {
      Game(file, next, phase, trickType, dealStarter, deal, cards, cardsOnTable, trickNumber, lastTaker,
           takenTricks, takenTakers, scores, roundScores, totalScores)
    }

    constructor (file: seq<Deal>)
      ensures Blank(State()) && this.file == file
    {
      this.file := file;
      next, phase, trickType, dealStarter := 0, Idle, 0, 0;
      deal, cards, cardsOnTable := [[], [], [], []], [[], [], [], []], [];
      trickNumber, lastTaker, takenTricks, takenTakers := 0, 0, [], [];
      scores, roundScores, totalScores := [0, 0, 0, 0], [0, 0, 0, 0], [0, 0, 0, 0];
    }

    /** Loop body of `run_game` up to the call of `run_deal`. */
    method LoadDeal()
      requires Enabled(State(), Load)
      modifies this
      ensures State() == Apply(old(State()), Load)
    {
      var d := file[next];
      next, phase := next + 1, Dealt;
      dealStarter := d.starter;
      takenTricks, takenTakers := [], [];
      cards := d.hands;
      deal := d.hands;
    }

    method OpenDeal()
      requires Enabled(State(), Open)
      modifies this
      ensures State() == Apply(old(State()), Open)
    {
      trickType := file[next - 1].kind;
      lastTaker := file[next - 1].starter;
      trickNumber := 0;
      scores := [0, 0, 0, 0];
      phase := Lead;
    }

    method BeginTrick()
      requires Enabled(State(), Begin)
      modifies this
      ensures State() == Apply(old(State()), Begin)
    {
      cardsOnTable := [];
      trickNumber := trickNumber + 1;
      phase := Trick;
    }

    /** The locked section of `parse_message`: a message is taken up only from the seat whose turn it is,
        for the running trick, and only with a legal card; any other message changes nothing. */
    method ParseMessage(m: Message, destined: bool, currentTrick: int) returns (accepted: bool)
      requires |cards| == 4
      modifies this
      ensures accepted <==> destined && m.said.number == currentTrick
                            && Legal(old(cards)[m.seat], old(cardsOnTable), m.said.card)
      ensures State() == if accepted then DoPlay(old(State()), m.seat, m.said.card) else old(State())
    {
      if !destined {
        return false;
      }
      var k := Find(cards[m.seat], m.said.card);
      var rightColor := m.said.number == currentTrick;
      if |cardsOnTable| > 0 && rightColor {
        var mainColor := cardsOnTable[0].suit;
        rightColor := mainColor == m.said.card.suit;
        if !rightColor {
          rightColor := true;
          var i := 0;
          while i < |cards[m.seat]|
            invariant i <= |cards[m.seat]|
            invariant rightColor <==> NoSuit(cards[m.seat][..i], mainColor)
          {
            assert cards[m.seat][..i + 1] == cards[m.seat][..i] + [cards[m.seat][i]];
            if cards[m.seat][i].suit == mainColor {
              rightColor := false;
              NoSuitLonger(cards[m.seat], i + 1, mainColor);
              break;
            }
            i := i + 1;
          }
          assert rightColor ==> cards[m.seat][..i] == cards[m.seat];
        }
      }
      if k == |cards[m.seat]| || !rightColor {
        return false;
      }
      cards := cards[m.seat := cards[m.seat][..k] + cards[m.seat][k + 1..]];
      cardsOnTable := cardsOnTable + [m.said.card];
      return true;
    }

    lemma NoSuitLonger(hand: seq<Card>, i: nat, suit: Suit)
      requires i <= |hand| && !NoSuit(hand[..i], suit)
      ensures !NoSuit(hand, suit)
    {
      var c :| c in hand[..i] && c.suit == suit;
      assert c in hand;
    }

    method CloseTrick(beginning: Seat, i: int)
      requires Enabled(State(), Move.CloseTrick) && beginning == lastTaker && i + 1 == trickNumber
      modifies this
      ensures 1 <= trickType <= 7 ==> State() == Apply(old(State()), Move.CloseTrick)
      ensures !(1 <= trickType <= 7) ==>
                var t := Taker(old(cardsOnTable), beginning);
                State() == Apply(old(State()), Move.CloseTrick).(scores := old(scores)[t := old(scores)[t] - 1])
    {
      hide Taker, TrickPoints, Weight;
      var calculator := new PointsCalculator(cardsOnTable, beginning, trickType, i + 1);
      var taker, points := calculator.CalculatePoints();
      lastTaker := taker;
      scores := scores[taker := scores[taker] + points];
      takenTricks := takenTricks + [cardsOnTable];
      takenTakers := takenTakers + [taker];
      phase := Lead;
    }

    method CloseDeal()
      requires Enabled(State(), Move.CloseDeal)
      modifies this
      ensures State() == Apply(old(State()), Move.CloseDeal)
      ensures forall s: Seat :: totalScores[s] == old(totalScores)[s] + old(scores)[s] && roundScores[s] == old(scores)[s]
    {
      totalScores := [totalScores[0] + scores[0], totalScores[1] + scores[1],
                      totalScores[2] + scores[2], totalScores[3] + scores[3]];
      roundScores := scores;
      phase := Idle;
    }

    static lemma ShapeFacts(g: Game)
      requires FileOk(g.file) && Valid(g) && g.next > 0
      ensures |g.hands| == |g.scores| == |g.totalScores| == 4 && 0 < g.next <= |g.file|
      ensures g.phase != Dealt ==> 1 <= g.kind <= 7
    {
      assert Sized(g.file[g.next - 1]);
    }

    static lemma Paid(g: Game)
      requires FileOk(g.file) && Valid(g) && Enabled(g, Move.CloseDeal)
      ensures PaidOut(g.totalScores, DoCloseDeal(g))
    {
      hide Valid, FileOk, Tally;
      forall s: Seat { TotalsStep(g, Move.CloseDeal, s); }
      FourTotals(g);
    }

    static lemma CloseDealTotals(g: Game)
      requires FileOk(g.file) && Valid(g) && Enabled(g, Move.CloseDeal)
      ensures var h := DoCloseDeal(g);
              && Sum(h.roundScores) == DealTotal(g.kind)
              && Sum(h.totalScores) == Sum(g.totalScores) + DealTotal(g.kind)
              && PaidOut(g.totalScores, h)
    {
      Paid(g);
      hide HandsConserved, PackConserved, Void, NoRevoke, DealTotal, PaidOut;
      DealIsWorth(g);
      Sum4(g.scores);
      Sum4(g.totalScores);
      Sum4(DoCloseDeal(g).totalScores);
    }

    /** `run_deal` on the messages of all clients in the order in which the server parses them.  Whatever
        they are, the game stays valid; the deal ends exactly when the messages suffice to play it out. */
    method RunDeal(messages: seq<Message>) returns (finished: bool, used: nat, accepted: nat)
      requires FileOk(file) && Valid(State()) && phase == Dealt
      modifies this
      ensures Valid(State()) && next == old(next) && deal == old(deal)
      ensures used <= |messages| && accepted <= used
      ensures finished ==> phase == Idle && accepted == 52
                           && Sum(roundScores) == DealTotal(trickType)
                           && Sum(totalScores) == old(Sum(totalScores)) + DealTotal(trickType)
                           && PaidOut(old(totalScores), State())
      ensures !finished ==> used == |messages| && phase == Trick && accepted < 52
                            && totalScores == old(totalScores) && roundScores == old(roundScores)
    {
      hide Shape, StaleTable, HandsConserved, PackConserved, Void, NoRevoke, Scored, DealTotal, FileOk, PaidOut;
      ghost var g0 := State();
      ShapeFacts(State());
      MoveValid(State(), Open);
      OpenDeal();
      used, accepted := 0, 0;
      var i := 0;
      while i < 13
        invariant i <= 13 && Valid(State()) && phase == Lead && trickNumber == i
        invariant used <= |messages| && accepted == 4 * i <= used
        invariant next == g0.next && deal == g0.deal && totalScores == g0.totalScores && roundScores == g0.roundScores
      {
        MoveValid(State(), Begin);
        BeginTrick();
        var beginning := lastTaker;
        var j: nat := 0;
        while j < 4
          invariant j <= 4 && Valid(State()) && phase == Trick && trickNumber == i + 1
          invariant |cardsOnTable| == j && beginning == lastTaker
          invariant used <= |messages| && accepted == 4 * i + j <= used
          invariant next == g0.next && deal == g0.deal && totalScores == g0.totalScores && roundScores == g0.roundScores
        {
          var received := false;
          while !received
            invariant Valid(State()) && phase == Trick && trickNumber == i + 1
            invariant |cardsOnTable| == (if received then j + 1 else j) && beginning == lastTaker
            invariant used <= |messages| && accepted == 4 * i + |cardsOnTable| <= used
            invariant next == g0.next && deal == g0.deal && totalScores == g0.totalScores && roundScores == g0.roundScores
            decreases |messages| - used, !received
          {
            if used == |messages| {
              return false, used, accepted;
            }
            var m := messages[used];
            ghost var g := State();
            ShapeFacts(g);
            PlaceMod(beginning, j);
            received := ParseMessage(m, m.seat == (beginning + j) % 4, trickNumber);
            if received {
              assert m.seat == Turn(g) && Enabled(g, Play(m.said.card));
              MoveValid(g, Play(m.said.card));
              accepted := accepted + 1;
            }
            used := used + 1;
          }
          j := j + 1;
        }
        ShapeFacts(State());
        MoveValid(State(), Move.CloseTrick);
        CloseTrick(beginning, i);
        i := i + 1;
      }
      ShapeFacts(State());
      CloseDealTotals(State());
      MoveValid(State(), Move.CloseDeal);
      CloseDeal();
      finished := true;
    }
  }
}
