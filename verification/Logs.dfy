/** What each client is sent: apart from WRONG and repeated TRICK, exactly DEAL, then TRICK and TAKEN for tricks
    1 to 13 in order, then SCORE and TOTAL -- although each thread reads the shared fields at its own time. */
module Logs {
  import opened Cards
  import opened GameModel
  import opened Conduct
  import opened Client
  import opened Protocol
  import opened Control
  import opened ControlSeat

  // ---- Transcripts -----------------------------------------------------------------------------------

  /** Appends a message unless it is WRONG or repeats the TRICK sent last. */
  function Push(log: seq<ServerMessage>, m: ServerMessage): seq<ServerMessage> {
    if m.WrongMsg? then log
    else if m.TrickMsg? && log != [] && log[|log| - 1] == m then log
    else log + [m]
  }

  function Clean(log: seq<ServerMessage>): seq<ServerMessage> {
    if log == [] then [] else Push(Clean(log[..|log| - 1]), log[|log| - 1])
  }

  function DealOut(g: Game, s: Seat): ServerMessage
    requires |g.deal| == 4
  {
    DealMsg(g.kind, g.starter, g.deal[s])
  }

  /** The cards on the table when seat `s` is asked: those of the seats that play before it. */
  function Seen(trick: seq<Card>, leader: Seat, s: Seat): seq<Card> {
    if Pos(leader, s) <= |trick| then trick[..Pos(leader, s)] else trick
  }

  function TrickOut(g: Game, s: Seat, j: nat): ServerMessage
    requires j < |Rounds(g)| && j < |Leaders(g)|
  {
    TrickMsg(j + 1, Seen(Rounds(g)[j], Leaders(g)[j], s))
  }

  function TakenOut(g: Game, j: nat): ServerMessage
    requires j < |g.tricks| == |g.takers|
  {
    TakenMsg(j + 1, g.tricks[j], g.takers[j])
  }

  /** DEAL and the first `n` tricks, as seat `s` is told about them. */
  function Upto(g: Game, s: Seat, n: nat): seq<ServerMessage>
    requires |g.deal| == 4 && n <= |g.tricks| == |g.takers|
  {
    if n == 0 then [DealOut(g, s)] else Upto(g, s, n - 1) + [TrickOut(g, s, n - 1), TakenOut(g, n - 1)]
  }

  /** The whole deal. */
  function Transcript(g: Game, s: Seat): seq<ServerMessage>
    requires |g.deal| == 4 && |g.tricks| == |g.takers|
  {
    Upto(g, s, |g.tricks|) + [ScoreMsg(g.roundScores), TotalMsg(g.totalScores)]
  }

  // ---- How far a thread has come -----------------------------------------------------------------------

  datatype Stage = Nothing | Told(n: nat) | Asked(n: nat) | Whole

  function StageOf(m: Main, unread: bool, acted: int): Stage {
    match m.round
    case Joining => Nothing
    case Closing => if acted <= 1 then Told(13) else Whole
    case _ =>
      if m.round == First && Unloaded(m.pc) then (if unread then Nothing else Whole)
      else if m.round == First && acted <= 1 then Nothing
      else if acted <= PlayAt(m.round) then Told(m.trick)
      else if acted == PlayAt(m.round) + 1 then Asked(m.trick)
      else Told(m.trick + 1)
  }

  predicate StageFits(g: Game, stage: Stage) {
    && |g.deal| == 4 && |g.tricks| == |g.takers|
    && match stage
       case Nothing => true
       case Told(n) => n <= |g.tricks|
       case Asked(n) => n <= |g.tricks| && n < |Rounds(g)|
       case Whole => true
  }

  function LogAt(g: Game, s: Seat, stage: Stage): seq<ServerMessage>
    requires StageFits(g, stage)
  {
    match stage
    case Nothing => []
    case Told(n) => Upto(g, s, n)
    case Asked(n) => Upto(g, s, n) + [TrickOut(g, s, n)]
    case Whole => Transcript(g, s)
  }

  predicate LogOk(m: Main, g: Game, t: Thread, s: Seat) {
    var stage := StageOf(m, g.next == 0, Acted(m, t, s));
    StageFits(g, stage) && Clean(t.log) == LogAt(g, s, stage)
  }

  ghost predicate LogInv(st: State) {
    Inv(st) && Typed(st) && forall s: Seat :: LogOk(st.main, st.g, st.threads[s], s)
  }

  // ---- Transcripts only grow ----------------------------------------------------------------------------

  lemma CleanPush(log: seq<ServerMessage>, m: ServerMessage)
    ensures Clean(log + [m]) == Push(Clean(log), m)
  {
    assert (log + [m])[..|log|] == log;
  }

  /** The records of the running deal are only added to. */
  predicate Grows(g: Game, g': Game) {
    && |g.deal| == 4 && g'.deal == g.deal && g'.kind == g.kind && g'.starter == g.starter
    && |g.tricks| == |g.takers| <= |g'.tricks| == |g'.takers|
    && g'.tricks[..|g.tricks|] == g.tricks && g'.takers[..|g.takers|] == g.takers
  }

  lemma {:induction false} UptoGrows(g: Game, g': Game, s: Seat, n: nat)
    requires Grows(g, g') && n <= |g.tricks|
    ensures Upto(g', s, n) == Upto(g, s, n)
  {
    if n > 0 {
      UptoGrows(g, g', s, n - 1);
      var j := n - 1;
      assert g'.tricks[j] == g'.tricks[..|g.tricks|][j] && g'.takers[j] == g'.takers[..|g.takers|][j];
      assert Rounds(g)[j] == g.tricks[j] && Rounds(g')[j] == g.tricks[j];
      assert Leaders(g)[j] == Leaders(g')[j] by {
        if j > 0 {
          assert Leaders(g)[j] == g.takers[j - 1] && Leaders(g')[j] == g'.takers[j - 1];
          assert g'.takers[j - 1] == g'.takers[..|g.takers|][j - 1];
        }
      }
    }
  }

  /** The last message told before a TRICK is never a TRICK. */
  lemma UptoEnds(g: Game, s: Seat, n: nat)
    requires |g.deal| == 4 && n <= |g.tricks| == |g.takers|
    ensures var l := Upto(g, s, n); l != [] && !l[|l| - 1].TrickMsg?
  {
  }

  /** Same records, same log. */
  lemma LogAtGrows(g: Game, g': Game, s: Seat, stage: Stage)
    requires Grows(g, g') && StageFits(g, stage)
    requires stage.Asked? ==> stage.n < |Rounds(g')| && TrickOut(g', s, stage.n) == TrickOut(g, s, stage.n)
    requires stage.Whole? ==> |g'.tricks| == |g.tricks| && g'.roundScores == g.roundScores && g'.totalScores == g.totalScores
    ensures StageFits(g', stage) && LogAt(g', s, stage) == LogAt(g, s, stage)
  {
    match stage
    case Nothing =>
    case Told(n) => UptoGrows(g, g', s, n);
    case Asked(n) =>
      UptoGrows(g, g', s, n);
      hide TrickOut, Upto;
    case Whole => UptoGrows(g, g', s, |g.tricks|);
  }

  // ---- What the handlers read ---------------------------------------------------------------------------

  /** The facts about the game that the logs rest on. */
  ghost predicate Facts(g: Game) {
    && Counters(g) && StaleTable(g)
    && |g.deal| == |g.hands| == 4 && |g.tricks| == |g.takers| && |Rounds(g)| <= |Leaders(g)|
    && (g.next > 0 && g.phase != Dealt ==> g.lastTaker == Leaders(g)[|g.tricks|])
  }

  lemma FactsOf(g: Game)
    requires Valid(g)
    ensures Facts(g)
  {
    hide HandsConserved, PackConserved, Void, NoRevoke, Scored;
  }

  /** In a trick the table shows a called seat exactly the cards of the seats before it. */
  lemma AskedSees(m: Main, g: Game, s: Seat)
    requires MainOk(m, g) && Facts(g) && Awaited(m, s) && |g.table| == m.pc.i
    ensures m.trick == |g.tricks| < |Rounds(g)| && Rounds(g)[m.trick] == g.table
    ensures TrickOut(g, s, m.trick) == TrickMsg(g.trickNumber, g.table)
  {
    PlaceMod(m.beginning, m.pc.i);
    assert Leaders(g)[m.trick] == m.beginning;
    hide Leaders;
  }

  /** Handling DEAL: nobody has changed this seat's hand, nor the taker, before the seat is told. */
  lemma DealReads(st: State, s: Seat)
    requires Inv(st) && Typed(st) && st.threads[s].pc == Handle(DealToken)
    ensures st.main.round == First && st.g.lastTaker == st.g.starter
    ensures |st.g.deal| == 4 && st.g.hands[s] == st.g.deal[s]
    ensures !Unloaded(st.main.pc)
  {
    hide Valid, FileOk, Inv, BarrierOk;
    PartsOf(st);
    ThreadOf(st, s);
    var m, g, t := st.main, st.g, st.threads[s];
    ActsOn(m, g, t, s);
    FactsOf(g);
    DealBefore(m, g, t, s, HasPlayed(t));
    hide MainOk, ThreadOk, TableOk;
    NoneDealt(g, s);
  }

  lemma DealBefore(m: Main, g: Game, t: Thread, s: Seat, played: bool)
    requires MainOk(m, g) && Counters(g) && ThreadOk(m, g, t, s) && t.pc == Handle(DealToken)
    requires Acted(m, t, s) == 1 && m.round == First
    requires CardPlay in Queue(t) <==> PlayAt(m.round) < Sent(m, s)
    requires Awaited(m, s) ==> |g.table| == m.pc.i
    ensures g.tricks == [] && !Unloaded(m.pc) && g.next > 0
    ensures g.phase == Lead || (g.phase == Trick && m.beginning == g.lastTaker && |g.table| <= Pos(m.beginning, s))
  {
    if Awaited(m, s) {
      PlaceMod(m.beginning, m.pc.i);
    }
    hide InOrder, Queue;
  }

  lemma NoneDealt(g: Game, s: Seat)
    requires Valid(g) && g.next > 0 && g.tricks == []
    requires g.phase == Lead || (g.phase == Trick && |g.table| <= Pos(g.lastTaker, s))
    ensures g.hands[s] == g.deal[s] && g.lastTaker == g.starter
  {
    hide PackConserved, Void, NoRevoke, Scored;
    if g.phase == Trick {
      assert Rounds(g) == [] + [g.table];
      PlayedByLast([], g.table, Leaders(g), s);
    }
  }

  /** Handling TAKEN: the fields still show the trick just closed. */
  lemma TakenReads(m: Main, g: Game, t: Thread, s: Seat)
    requires MainOk(m, g) && Facts(g) && ThreadOk(m, g, t, s) && t.pc == Handle(TakenToken)
    ensures InTrick(m) && Acted(m, t, s) == PlayAt(m.round) + 1 && !Unloaded(m.pc)
    ensures |g.tricks| == m.trick + 1 && TakenOut(g, m.trick) == TakenMsg(t.current, g.table, g.lastTaker)
  {
    ActsOn(m, g, t, s);
    hide InOrder, Queue;
  }

  /** Handling SCORES: the deal is closed. */
  lemma ScoresRead(m: Main, g: Game, t: Thread, s: Seat)
    requires MainOk(m, g) && Facts(g) && ThreadOk(m, g, t, s) && t.pc == Handle(ScoresToken)
    ensures m.round == Closing && Acted(m, t, s) == 1 && |g.tricks| == 13
  {
    ActsOn(m, g, t, s);
    hide InOrder, Queue;
  }

  /** Handling CARD_PLAY: it is this seat's turn, and it has not played. */
  lemma PlayReads(st: State, s: Seat)
    requires Inv(st) && Typed(st) && st.threads[s].pc == Handle(CardPlay)
    ensures Awaited(st.main, s) && |st.g.table| == st.main.pc.i && InTrick(st.main)
    ensures Acted(st.main, st.threads[s], s) == PlayAt(st.main.round)
  {
    hide Valid, FileOk, Inv, BarrierOk;
    PartsOf(st);
    ThreadOf(st, s);
    ActsOn(st.main, st.g, st.threads[s], s);
    assert CardPlay in Queue(st.threads[s]);
    hide InOrder, Queue;
  }

  /** A thread that repeats TRICK has been asked for the running trick and has not played. */
  lemma RepeatReads(st: State, s: Seat)
    requires Inv(st) && Typed(st) && st.threads[s].destined && !st.threads[s].pc.Notify?
    ensures Awaited(st.main, s) && |st.g.table| == st.main.pc.i && InTrick(st.main)
    ensures Acted(st.main, st.threads[s], s) == PlayAt(st.main.round) + 1
    ensures st.threads[s].current == st.g.trickNumber
  {
    hide Valid, FileOk, Inv, BarrierOk;
    PartsOf(st);
    ThreadOf(st, s);
    Destined(st.main, st.g, st.threads[s], s);
    hide ThreadOk;
  }
}
