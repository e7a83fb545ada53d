/** The game the server plays, one locked section at a time: the data changes of `run_game`, `run_deal`
    and `parse_message`, as moves on a value.  `Conduct` proves what every run of moves keeps. */
module GameModel {
  import opened Cards
  import opened Points

  /** One deal of the game file. */
  datatype Deal = Deal(kind: int, starter: Seat, hands: seq<seq<Card>>)

  /** A trick type 1..7 and four hands of thirteen. */
  ghost predicate Sized(d: Deal) {
    1 <= d.kind <= 7 && |d.hands| == 4 && forall s: Seat :: |d.hands[s]| == 13
  }

  /** Every card of the deck is dealt once. */
  ghost predicate FullPack(d: Deal) {
    |d.hands| == 4 && forall c: Card :: HandsBag(d.hands)[c] == 1
  }

  /** Every deal of the file hands out one whole deck. */
  ghost predicate FileOk(file: seq<Deal>) {
    && (forall i | 0 <= i < |file| :: Sized(file[i]))
    && (forall i {:trigger FullPack(file[i])} | 0 <= i < |file| :: FullPack(file[i]))
  }

  ghost function HandsBag(hands: seq<seq<Card>>): multiset<Card>
    requires |hands| == 4
  {
    multiset(hands[0]) + multiset(hands[1]) + multiset(hands[2]) + multiset(hands[3])
  }

  /** What a client's TRICK message says. */
  datatype Input = Input(number: int, card: Card)

  /** Where `run_game` stands: between deals, hands just loaded, between tricks, or in a trick. */
  datatype Phase = Idle | Dealt | Lead | Trick

  datatype Game = Game(
    file: seq<Deal>,            // deals of the game file
    next: nat,                  // how many of them have been read
    phase: Phase,
    kind: int,                  // trick_type_global
    starter: Seat,              // deal_starter
    deal: seq<seq<Card>>,       // hands as dealt
    hands: seq<seq<Card>>,      // cards
    table: seq<Card>,           // cards_on_table
    trickNumber: nat,
    lastTaker: Seat,
    tricks: seq<seq<Card>>,     // taken_tricks
    takers: seq<Seat>,          // taken_takers
    scores: seq<int>,           // scores of the running deal
    roundScores: seq<int>,
    totalScores: seq<int>)

  // ---- Moves -----------------------------------------------------------------------------------

  /** serwer.cpp:521-530 */
  function DoLoad(g: Game): Game
    requires g.next < |g.file|
  {
    var d := g.file[g.next];
    g.(next := g.next + 1, phase := Dealt, starter := d.starter, deal := d.hands, hands := d.hands,
       tricks := [], takers := [])
  }

  /** serwer.cpp:356-361 and 378 */
  function DoOpen(g: Game): Game
    requires 0 < g.next <= |g.file|
  {
    var d := g.file[g.next - 1];
    g.(phase := Lead, kind := d.kind, lastTaker := d.starter, trickNumber := 0, scores := [0, 0, 0, 0])
  }

  /** serwer.cpp:381-384 */
  function DoBegin(g: Game): Game {
    g.(phase := Trick, table := [], trickNumber := g.trickNumber + 1)
  }

  /** serwer.cpp:834-835 */
  function DoPlay(g: Game, s: Seat, c: Card): Game
    requires |g.hands| == 4
  {
    g.(hands := g.hands[s := Erase(g.hands[s], c)], table := g.table + [c])
  }

  /** serwer.cpp:475-481 */
  function DoCloseTrick(g: Game, beginning: Seat, trick: int): Game
    requires |g.table| == 4 && |g.scores| == 4
  {
    var t := Taker(g.table, beginning);
    g.(phase := Lead, lastTaker := t, tricks := g.tricks + [g.table], takers := g.takers + [t],
       scores := g.scores[t := g.scores[t] + TrickPoints(g.kind, trick, g.table)])
  }

  /** serwer.cpp:495-498 */
  function DoCloseDeal(g: Game): Game
    requires |g.scores| == |g.totalScores| == 4
  {
    g.(phase := Idle, roundScores := g.scores,
       totalScores := [g.totalScores[0] + g.scores[0], g.totalScores[1] + g.scores[1],
                       g.totalScores[2] + g.scores[2], g.totalScores[3] + g.scores[3]])
  }

  /** serwer.cpp:794-819: in hand, and following the led suit unless the hand is void in it. */
  predicate Legal(hand: seq<Card>, table: seq<Card>, c: Card) {
    c in hand && (table == [] || c.suit == table[0].suit || NoSuit(hand, table[0].suit))
  }

  predicate NoSuit(hand: seq<Card>, suit: Suit) {
    forall c | c in hand :: c.suit != suit
  }

  function Turn(g: Game): Seat
    requires |g.table| < 4
  {
    Place(g.lastTaker, |g.table|)
  }

  datatype Move = Load | Open | Begin | Play(card: Card) | CloseTrick | CloseDeal

  predicate Enabled(g: Game, m: Move) {
    match m
    case Load => g.phase == Idle && g.next < |g.file|
    case Open => g.phase == Dealt && 0 < g.next <= |g.file|
    case Begin => g.phase == Lead && g.trickNumber < 13
    case Play(c) => g.phase == Trick && |g.table| < 4 && |g.hands| == 4 && Legal(g.hands[Turn(g)], g.table, c)
    case CloseTrick => g.phase == Trick && |g.table| == 4 && |g.scores| == 4
    case CloseDeal => g.phase == Lead && g.trickNumber == 13 && |g.scores| == |g.totalScores| == 4
  }

  function Apply(g: Game, m: Move): Game
    requires Enabled(g, m)
  {
    match m
    case Load => DoLoad(g)
    case Open => DoOpen(g)
    case Begin => DoBegin(g)
    case Play(c) => DoPlay(g, Turn(g), c)
    case CloseTrick => DoCloseTrick(g, g.lastTaker, g.trickNumber)
    case CloseDeal => DoCloseDeal(g)
  }

  /** The server before its first deal. */
  predicate Blank(g: Game) {
    && g.next == 0 && g.phase == Idle && g.trickNumber == 0
    && g.deal == g.hands == [[], [], [], []] && g.table == [] && g.tricks == [] && g.takers == []
    && g.scores == g.roundScores == g.totalScores == [0, 0, 0, 0]
  }

  // ---- What the records of a deal say -----------------------------------------------------------

  /** Recorded tricks, then the one in progress. */
  function Rounds(g: Game): seq<seq<Card>> {
    g.tricks + if g.phase == Trick then [g.table] else []
  }

  /** Who led each of them. */
  function Leaders(g: Game): seq<Seat> {
    [g.starter] + g.takers
  }

  /** The card of seat `s` in a trick, if it has played. */
  function Own(trick: seq<Card>, leader: Seat, s: Seat): seq<Card> {
    var p := Pos(leader, s);
    if p < |trick| then [trick[p]] else []
  }

  function PlayedBy(rounds: seq<seq<Card>>, leaders: seq<Seat>, s: Seat): seq<Card>
    requires |rounds| <= |leaders|
  {
    if rounds == [] then []
    else
      var n := |rounds| - 1;
      PlayedBy(rounds[..n], leaders, s) + Own(rounds[n], leaders[n], s)
  }

  ghost function Pile(rounds: seq<seq<Card>>): multiset<Card> {
    if rounds == [] then multiset{} else Pile(rounds[..|rounds| - 1]) + multiset(rounds[|rounds| - 1])
  }

  /** Seat `s` has not followed the led suit in this trick. */
  predicate OffSuit(trick: seq<Card>, leader: Seat, s: Seat) {
    var o := Own(trick, leader, s);
    o != [] && o[0].suit != trick[0].suit
  }

  /** Points seat `s` has collected over the recorded tricks. */
  function Tally(kind: int, tricks: seq<seq<Card>>, takers: seq<Seat>, s: Seat): int
    requires |tricks| == |takers|
  {
    if tricks == [] then 0
    else
      var n := |tricks| - 1;
      Tally(kind, tricks[..n], takers[..n], s) + if takers[n] == s then TrickPoints(kind, n + 1, tricks[n]) else 0
  }

  /** Sum of the fixed totals of the first `n` deals of the file. */
  function FileTotal(file: seq<Deal>, n: nat): int
    requires n <= |file|
  {
    if n == 0 then 0 else FileTotal(file, n - 1) + DealTotal(file[n - 1].kind)
  }

  function Finished(g: Game): int {
    if g.phase == Idle then g.next else g.next - 1
  }

  // ---- The invariant ----------------------------------------------------------------------------

  ghost predicate Shape(g: Game) {
    && g.next <= |g.file|
    && (g.next == 0 ==> Blank(g))
    && |g.deal| == |g.hands| == |g.scores| == |g.roundScores| == |g.totalScores| == 4
    && |g.tricks| == |g.takers|
    && (forall t | t in g.tricks :: |t| == 4)
    && (g.next > 0 ==>
          var d := g.file[g.next - 1];
          && g.deal == d.hands && g.starter == d.starter
          && (g.phase != Dealt ==> g.kind == d.kind && g.lastTaker == Leaders(g)[|g.tricks|]))
  }

  /** How the counters go with the phase. */
  predicate Counters(g: Game) {
    match g.phase
    case Idle => g.next == 0 || |g.tricks| == g.trickNumber == 13
    case Dealt => g.next > 0 && g.tricks == []
    case Lead => g.next > 0 && |g.tricks| == g.trickNumber <= 13
    case Trick => g.next > 0 && |g.tricks| + 1 == g.trickNumber <= 13 && |g.table| <= 4
  }

  /** Between tricks the table still shows the last recorded trick. */
  predicate StaleTable(g: Game) {
    (g.phase == Lead || g.phase == Idle) && g.tricks != [] ==> g.table == g.tricks[|g.tricks| - 1]
  }

  /** Every dealt card is still in its hand or was played by that hand's seat. */
  ghost predicate HandsConserved(g: Game)
    requires |g.deal| == |g.hands| == 4 && |g.tricks| == |g.takers|
  {
    forall s: Seat ::
      && multiset(g.deal[s]) == multiset(g.hands[s]) + multiset(PlayedBy(Rounds(g), Leaders(g), s))
      && (PlayedBy(Rounds(g), Leaders(g), s) == [] ==> g.hands[s] == g.deal[s])
  }

  /** Hands, recorded tricks and the running trick together are the cards dealt. */
  ghost predicate PackConserved(g: Game)
    requires |g.hands| == |g.deal| == 4
  {
    HandsBag(g.hands) + Pile(Rounds(g)) == HandsBag(g.deal)
  }

  /** A seat that left the led suit has no card of it any more. */
  predicate Void(g: Game)
    requires |g.hands| == 4 && |g.tricks| == |g.takers|
  {
    forall j, s: Seat | 0 <= j < |Rounds(g)| && OffSuit(Rounds(g)[j], Leaders(g)[j], s) ::
      NoSuit(g.hands[s], Rounds(g)[j][0].suit)
  }

  /** A seat that left the led suit plays no card of it in any later trick of the deal. */
  predicate NoRevoke(g: Game)
    requires |g.tricks| == |g.takers|
  {
    forall j, k, s: Seat | 0 <= j < k < |Rounds(g)| && OffSuit(Rounds(g)[j], Leaders(g)[j], s) ::
      NoSuit(Own(Rounds(g)[k], Leaders(g)[k], s), Rounds(g)[j][0].suit)
  }

  /** Each trick went to the seat with the winning card, and scores are what those seats collected. */
  predicate Scored(g: Game)
    requires |g.tricks| == |g.takers| && |g.scores| == |g.roundScores| == |g.totalScores| == 4
    requires forall t | t in g.tricks :: |t| == 4
    requires g.next <= |g.file|
  {
    && (forall j | 0 <= j < |g.tricks| :: g.takers[j] == Taker(g.tricks[j], Leaders(g)[j]))
    && (g.next > 0 && g.phase != Dealt ==> forall s: Seat :: g.scores[s] == Tally(g.kind, g.tricks, g.takers, s))
    && (g.phase == Idle ==> g.roundScores == g.scores)
    && 0 <= Finished(g)
    && Sum(g.totalScores) == FileTotal(g.file, Finished(g))
  }

  ghost predicate Valid(g: Game) {
    && Shape(g) && Counters(g) && StaleTable(g)
    && (g.next > 0 ==> HandsConserved(g) && PackConserved(g))
    && Void(g) && NoRevoke(g) && Scored(g)
  }
}
