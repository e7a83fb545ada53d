/** Every step keeps the logs; what that means for complete deals and for agreement between the seats. */
module LogSteps {
  import opened Cards
  import opened GameModel
  import opened Client
  import opened Protocol
  import opened Control
  import opened ControlSeat
  import opened ControlMain
  import opened Safety
  import opened Logs

  // ---- The stepping thread -----------------------------------------------------------------------------

  lemma SameLog(m: Main, g: Game, t: Thread, u: Thread, s: Seat)
    requires LogOk(m, g, t, s) && Clean(u.log) == Clean(t.log) && Acted(m, u, s) == Acted(m, t, s)
    ensures LogOk(m, g, u, s)
  {
    hide Acted, LogAt, Clean;
  }

  lemma RepeatLog(st: State, s: Seat)
    requires LogInv(st) && st.threads[s].destined && !st.threads[s].pc.Notify?
    ensures Clean(st.threads[s].log + [TrickMsg(st.threads[s].current, st.g.table)]) == Clean(st.threads[s].log)
  {
    hide Inv, Valid;
    var m, g, t := st.main, st.g, st.threads[s];
    RepeatReads(st, s);
    PartsOf(st);
    FactsOf(g);
    AskedSees(m, g, s);
    assert LogOk(m, g, t, s);
    CleanPush(t.log, TrickMsg(t.current, g.table));
    hide Clean, MainOk, BarrierOk, TableOk, FileOk, Facts, TrickOut, Upto, Acted;
  }

  lemma CardPlayLog(m: Main, g: Game, t: Thread, s: Seat, u: Thread)
    requires MainOk(m, g) && Facts(g) && LogOk(m, g, t, s)
    requires Awaited(m, s) && |g.table| == m.pc.i && InTrick(m) && Acted(m, t, s) == PlayAt(m.round)
    requires u.log == t.log + [TrickMsg(g.trickNumber, g.table)] && Acted(m, u, s) == Acted(m, t, s) + 1
    ensures LogOk(m, g, u, s)
  {
    AskedSees(m, g, s);
    CleanPush(t.log, TrickMsg(g.trickNumber, g.table));
    UptoEnds(g, s, m.trick);
    hide Acted, MainOk, Facts, Clean, TrickOut, Upto;
  }

  lemma DealLog(m: Main, g: Game, t: Thread, s: Seat, u: Thread)
    requires Facts(g) && LogOk(m, g, t, s) && m.round == First && !Unloaded(m.pc) && Acted(m, t, s) == 1
    requires g.lastTaker == g.starter && g.hands[s] == g.deal[s] && m.trick == 0
    requires u.log == t.log + [DealMsg(g.kind, g.lastTaker, g.hands[s])] && Acted(m, u, s) == Acted(m, t, s) + 1
    ensures LogOk(m, g, u, s)
  {
    CleanPush(t.log, DealOut(g, s));
    hide Acted, Facts, Clean;
  }

  lemma BarrierLog(m: Main, g: Game, t: Thread, s: Seat, u: Thread)
    requires MainOk(m, g) && ThreadOk(m, g, t, s) && LogOk(m, g, t, s)
    requires t.pc == Handle(BarrierAsk) || t.pc == Handle(BarrierEnd)
    requires u.log == t.log && Acted(m, u, s) == Acted(m, t, s) + 1
    ensures LogOk(m, g, u, s)
  {
    ActsOn(m, g, t, s);
    hide ThreadOk, MainOk, Acted, Clean, LogAt;
  }

  /** What acting on a token writes to the client. */
  lemma HandleWrites(g: Game, ongoing: bool, occupied: int, t: Thread, s: Seat)
    requires |g.hands| == 4 && t.pc.Handle?
    ensures ThreadNext(g, ongoing, occupied, s, t, Go).log == t.log +
            match t.pc.token
            case CardPlay => [TrickMsg(g.trickNumber, g.table)]
            case DealToken => [DealMsg(g.kind, g.lastTaker, g.hands[s])]
            case TakenToken => [TakenMsg(t.current, g.table, g.lastTaker)]
            case ScoresToken => [ScoreMsg(g.roundScores), TotalMsg(g.totalScores)]
            case _ => []
  {
  }

  /** Acting on a token moves the stage on, and the log with it. */
  lemma HandleLog(st: State, s: Seat, u: Thread)
    requires Typed(st) && st.threads[s].pc.Handle?
    requires u == ThreadNext(st.g, st.ongoing, st.occupied, s, st.threads[s], Go)
    requires LogInv(st)
    ensures LogOk(st.main, st.g, u, s)
  {
    hide LogInv, Inv, Valid, FileOk, TableOk, BarrierOk, LogOk, ThreadOk, MainOk, Facts, ThreadNext, Queue;
    LogOf(st, s);
    PartsOf(st);
    ThreadOf(st, s);
    FactsOf(st.g);
    var m, g, t := st.main, st.g, st.threads[s];
    HandleStep(g, st.ongoing, st.occupied, t, s);
    HandleWrites(g, st.ongoing, st.occupied, t, s);
    HandleQueue(m, g, t, s, u);
    hide Acted;
    match t.pc.token {
      case CardPlay =>
        PlayReads(st, s);
        CardPlayLog(m, g, t, s, u);
      case DealToken =>
        DealReads(st, s);
        ActsOn(m, g, t, s);
        FirstTrick(m, g);
        FactsHands(g);
        DealLog(m, g, t, s, u);
      case TakenToken => TakenLog(m, g, t, s, u);
      case ScoresToken => ScoresLog(m, g, t, s, u);
      case _ => BarrierLog(m, g, t, s, u);
    }
  }

  lemma FactsHands(g: Game)
    requires Facts(g)
    ensures |g.deal| == |g.hands| == 4
  {
  }

  lemma FirstTrick(m: Main, g: Game)
    requires MainOk(m, g) && m.round == First
    ensures m.trick == 0
  {
  }

  lemma LogOf(st: State, s: Seat)
    requires LogInv(st)
    ensures Inv(st) && Typed(st) && LogOk(st.main, st.g, st.threads[s], s)
  {
    hide Inv, LogOk;
  }

  lemma TakenLog(m: Main, g: Game, t: Thread, s: Seat, u: Thread)
    requires MainOk(m, g) && Facts(g) && ThreadOk(m, g, t, s) && t.pc == Handle(TakenToken) && LogOk(m, g, t, s)
    requires u.log == t.log + [TakenMsg(t.current, g.table, g.lastTaker)] && Acted(m, u, s) == Acted(m, t, s) + 1
    ensures LogOk(m, g, u, s)
  {
    TakenReads(m, g, t, s);
    CleanPush(t.log, u.log[|u.log| - 1]);
    hide Acted, ThreadOk, MainOk, Facts, Clean, TrickOut, TakenOut;
    assert Upto(g, s, m.trick + 1) == Upto(g, s, m.trick) + [TrickOut(g, s, m.trick), TakenOut(g, m.trick)];
    assert Upto(g, s, m.trick) + [TrickOut(g, s, m.trick)] + [TakenOut(g, m.trick)] == Upto(g, s, m.trick + 1);
  }

  lemma ScoresLog(m: Main, g: Game, t: Thread, s: Seat, u: Thread)
    requires MainOk(m, g) && Facts(g) && ThreadOk(m, g, t, s) && t.pc == Handle(ScoresToken) && LogOk(m, g, t, s)
    requires u.log == t.log + [ScoreMsg(g.roundScores), TotalMsg(g.totalScores)] && Acted(m, u, s) == Acted(m, t, s) + 1
    ensures LogOk(m, g, u, s)
  {
    ScoresRead(m, g, t, s);
    var a, b := ScoreMsg(g.roundScores), TotalMsg(g.totalScores);
    assert t.log + [a, b] == (t.log + [a]) + [b];
    CleanPush(t.log, a);
    CleanPush(t.log + [a], b);
    hide Acted, ThreadOk, MainOk, Facts, Clean, Upto;
    assert Upto(g, s, 13) + [a] + [b] == Upto(g, s, 13) + [a, b];
  }

  /** The stepping thread's log, against the game before the step. */
  lemma SelfLog(st: State, s: Seat, choice: Choice)
    requires LogInv(st) && Typed(st) && ThreadEnabled(st.threads[s], choice)
    ensures LogOk(st.main, st.g, ThreadNext(st.g, st.ongoing, st.occupied, s, st.threads[s], choice), s)
  {
    hide LogInv, Inv, LogOk, ThreadNext;
    if st.threads[s].pc.Handle? {
      HandleLog(st, s, ThreadNext(st.g, st.ongoing, st.occupied, s, st.threads[s], choice));
    } else {
      QuietSelfLog(st, s, choice);
    }
  }

  lemma QuietSelfLog(st: State, s: Seat, choice: Choice)
    requires LogInv(st) && Typed(st) && ThreadEnabled(st.threads[s], choice) && !st.threads[s].pc.Handle?
    ensures LogOk(st.main, st.g, ThreadNext(st.g, st.ongoing, st.occupied, s, st.threads[s], choice), s)
  {
    hide LogInv, Inv, LogOk, ThreadNext, ThreadOk, MainOk, TableOk, BarrierOk, Valid, FileOk, ThreadEnabled, Clean;
    LogOf(st, s);
    PartsOf(st);
    ThreadOf(st, s);
    OngoingOf(st);
    SelfQuiet(st, s, choice);
    QuietLog(st, s, choice);
    SameLog(st.main, st.g, st.threads[s], ThreadNext(st.g, st.ongoing, st.occupied, s, st.threads[s], choice), s);
  }

  /** Time runs out only for a thread that is destined to play. */
  lemma RepeatIsAsked(st: State, s: Seat)
    requires LogInv(st) && st.threads[s].pc.Repeat?
    ensures st.threads[s].destined
  {
    hide Inv, LogOk, InOrder, TurnMarks;
    LogOf(st, s);
    ThreadOf(st, s);
  }

  lemma QuietLog(st: State, s: Seat, choice: Choice)
    requires LogInv(st) && Typed(st) && ThreadEnabled(st.threads[s], choice) && !st.threads[s].pc.Handle?
    ensures Clean(ThreadNext(st.g, st.ongoing, st.occupied, s, st.threads[s], choice).log) == Clean(st.threads[s].log)
  {
    var t := st.threads[s];
    LogWritten(st.g, st.ongoing, st.occupied, s, t, choice);
    CleanPush(t.log, WrongMsg(t.current));
    if t.pc.Repeat? {
      RepeatIsAsked(st, s);
      RepeatLog(st, s);
    }
    hide LogInv, Clean, ThreadNext, Typed;
  }

  /** What a step other than acting on a token writes to the client. */
  lemma LogWritten(g: Game, ongoing: bool, occupied: int, s: Seat, t: Thread, choice: Choice)
    requires |g.hands| == 4 && ThreadEnabled(t, choice) && !t.pc.Handle?
    ensures var l := ThreadNext(g, ongoing, occupied, s, t, choice).log;
            || l == t.log
            || l == t.log + [WrongMsg(t.current)]
            || (t.pc.Repeat? && l == t.log + [TrickMsg(t.current, g.table)])
  {
    hide Takes;
  }

  // ---- The other threads -------------------------------------------------------------------------------

  /** A card put on the table is not seen by the seats that were asked before. */
  lemma PlayLog(m: Main, g: Game, c: Card, seat: Seat, t: Thread, s: Seat)
    requires MainOk(m, g) && Facts(g) && ThreadOk(m, g, t, s) && LogOk(m, g, t, s)
    requires m.pc.AwaitCard? && |g.table| == m.pc.i
    ensures LogOk(m, DoPlay(g, seat, c), t, s)
  {
    var g' := DoPlay(g, seat, c);
    var stage := StageOf(m, g.next == 0, Acted(m, t, s));
    if stage.Asked? {
      AskedStays(m, g, c, seat, t, s);
    }
    hide ThreadOk, MainOk, Acted, Clean;
    LogAtGrows(g, g', s, stage);
  }

  lemma AskedStays(m: Main, g: Game, c: Card, seat: Seat, t: Thread, s: Seat)
    requires MainOk(m, g) && Facts(g) && ThreadOk(m, g, t, s)
    requires m.pc.AwaitCard? && |g.table| == m.pc.i && Acted(m, t, s) == PlayAt(m.round) + 1
    ensures var g' := DoPlay(g, seat, c);
            && m.trick < |Rounds(g)| && m.trick < |Rounds(g')| && m.trick < |Leaders(g')|
            && TrickOut(g', s, m.trick) == TrickOut(g, s, m.trick)
  {
    var g' := DoPlay(g, seat, c);
    assert Pos(m.beginning, s) <= |g.table|;
    assert Rounds(g)[m.trick] == g.table && Rounds(g')[m.trick] == g.table + [c];
    assert Leaders(g')[m.trick] == Leaders(g)[m.trick] == m.beginning;
    hide ThreadOk, Leaders, Rounds;
    assert (g.table + [c])[..Pos(m.beginning, s)] == g.table[..Pos(m.beginning, s)];
  }

  lemma OtherLog(st: State, s: Seat, u: Thread, v: Seat)
    requires Inv(st) && Typed(st) && TakesCard(st.g, s, st.threads[s])
    requires ThreadOk(st.main, st.g, u, v) && LogOk(st.main, st.g, u, v)
    ensures LogOk(st.main, DoPlay(st.g, s, st.threads[s].pc.m.card), u, v)
  {
    hide Inv, Valid, FileOk, TableOk, BarrierOk, LogOk, ThreadOk, Legal;
    PartsOf(st);
    FactsOf(st.g);
    TakenCardIsMove(st, s);
    hide MainOk, Facts, Takes;
    PlayLog(st.main, st.g, st.threads[s].pc.m.card, s, u, v);
  }

  lemma SeatLog(st: State, s: Seat, choice: Choice, v: Seat)
    requires LogInv(st) && Typed(st) && ThreadEnabled(st.threads[s], choice)
    ensures var st' := SeatNext(st, s, choice);
            |st'.threads| == 4 && LogOk(st'.main, st'.g, st'.threads[v], v)
  {
    hide LogInv, Inv, LogOk, ThreadOk, ThreadNext, Legal;
    LogOf(st, s);
    LogOf(st, v);
    ThreadOf(st, v);
    SelfLog(st, s, choice);
    SelfOk(st, s, choice);
    NextThread(st, s, choice);
    if TakesCard(st.g, s, st.threads[s]) {
      OtherLog(st, s, SeatNext(st, s, choice).threads[v], v);
    }
    hide SeatNext;
  }

  lemma SeatLogs(st: State, s: Seat, choice: Choice)
    requires LogInv(st) && Typed(st) && ThreadEnabled(st.threads[s], choice)
    ensures LogInv(Next(st, SeatStep(s, choice)))
  {
    var st' := Next(st, SeatStep(s, choice));
    assert st' == SeatNext(st, s, choice) && Typed(st');
    LogOf(st, s);
    hide Inv, LogOk, SeatNext, Next, Typed;
    SeatKeeps(st, s, choice);
    forall v: Seat { SeatLog(st, s, choice, v); }
  }

  // ---- Steps of the main thread -------------------------------------------------------------------------

  lemma WrittenActed(m: Main, m': Main, t: Thread, t': Thread, s: Seat, to: Seat, token: Token)
    requires Writes(m, m', to, token) && t' == if s == to then t.(inbox := t.inbox + [token]) else t
    ensures Acted(m', t', s) == Acted(m, t, s)
  {
    assert Sent(m', s) == Sent(m, s) + if s == to then 1 else 0;
    hide Sent;
  }

  lemma ReadActed(st: State, from: Seat, s: Seat)
    requires Inv(st) && Typed(st) && MainEnabled(st, from) && (st.main.pc.AwaitCard? || st.main.pc.BarrierWait?)
    ensures var st' := MainNext(st, from);
            |st'.threads| == 4 && Acted(st'.main, st'.threads[s], s) == Acted(st.main, st.threads[s], s)
  {
    hide Inv, Valid, FileOk, TableOk, BarrierOk, ThreadOk;
    if st.main.pc.AwaitCard? { ReadsPlay(st, from); } else { ReadsWake(st, from); }
    assert Queue(MainNext(st, from).threads[s]) == Queue(st.threads[s]);
    hide Queue;
  }

  /** Short of a completed barrier, no thread's progress through the script changes. */
  lemma MainActed(st: State, from: Seat, s: Seat)
    requires Inv(st) && Typed(st) && MainEnabled(st, from) && !st.main.pc.BarrierCheck?
    ensures var st' := MainNext(st, from);
            |st'.threads| == 4 && Acted(st'.main, st'.threads[s], s) == Acted(st.main, st.threads[s], s)
  {
    hide Inv, Valid, FileOk, TableOk, BarrierOk, ThreadOk, MainOk, Acted, Sent, Writes;
    PartsOf(st);
    CountersOf(st);
    var m, m', t := st.main, MainNext(st, from).main, st.threads[s];
    if m.pc.Tell? {
      TellWrites(m, st.g, m');
      WrittenActed(m, m', t, MainNext(st, from).threads[s], s, m.pc.to, m.pc.token);
    } else if m.pc.CallTurn? {
      CallWrites(m, st.g, m');
      WrittenActed(m, m', t, MainNext(st, from).threads[s], s, Place(m.beginning, m.pc.i), CardPlay);
    } else if m.pc.AwaitCard? || m.pc.BarrierWait? {
      ReadActed(st, from, s);
    } else {
      QuietSent(st, from, s);
      hide MainNext;
      QuietActed(m, m', t, MainNext(st, from).threads[s], s);
    }
  }

  lemma QuietActed(m: Main, m': Main, t: Thread, t': Thread, s: Seat)
    requires Sent(m', s) == Sent(m, s) && t' == t.(log := t'.log)
    ensures Acted(m', t', s) == Acted(m, t, s)
  {
  }

  /** What the main thread does to the logs: nothing, except to start new ones with a deal. */
  lemma MainKeepsLog(st: State, from: Seat, s: Seat)
    requires Typed(st) && MainEnabled(st, from)
    ensures var st' := MainNext(st, from);
            |st'.threads| == 4 &&
            st'.threads[s].log == if st.main.pc.NextDeal? && st.g.next < |st.g.file| then [] else st.threads[s].log
  {
    ThreadsStep(st, from);
    hide MainNext;
  }

  predicate SameTrick(g: Game, g': Game, s: Seat, n: nat) {
    && n < |Rounds(g)| && n < |Leaders(g)| && n < |Rounds(g')| && n < |Leaders(g')|
    && TrickOut(g', s, n) == TrickOut(g, s, n)
  }

  predicate SameScores(g: Game, g': Game) {
    |g'.tricks| == |g.tricks| && g'.roundScores == g.roundScores && g'.totalScores == g.totalScores
  }

  /** Records and scores a log refers to survive every step of the main thread. */
  lemma MainGrows(st: State, from: Seat, s: Seat)
    requires Inv(st) && Typed(st) && MainEnabled(st, from)
    requires !st.main.pc.BarrierCheck? && !st.main.pc.OpenDeal? && !(st.main.pc.NextDeal? && st.g.next < |st.g.file|)
    ensures var g, g' := st.g, MainNext(st, from).g;
            var stage := StageOf(st.main, g.next == 0, Acted(st.main, st.threads[s], s));
            && Grows(g, g') && g'.next == g.next
            && (stage.Asked? && StageFits(g, stage) ==> SameTrick(g, g', s, stage.n))
            && (stage.Whole? ==> SameScores(g, g'))
  {
    hide Inv, Valid, FileOk, TableOk, BarrierOk, ThreadOk;
    PartsOf(st);
    FactsOf(st.g);
    var m, g, t := st.main, st.g, st.threads[s];
    var st' := MainNext(st, from);
    assert Acted(m, t, s) <= Sent(m, s);
    hide Acted;
    if m.pc.ScoreTrick? {
      assert Rounds(st'.g) == Rounds(g);
      assert Leaders(st'.g) == Leaders(g) + [st'.g.lastTaker];
      hide Leaders, Rounds;
    } else if m.pc.TrickTop? || m.pc.ScoreDeal? {
      hide Leaders, Rounds;
    } else {
      assert st'.g == g;
      hide MainNext, Leaders, Rounds;
    }
  }

  lemma CheckStage(m: Main, g: Game, m': Main)
    requires MainOk(m, g) && m.pc.BarrierCheck? && Counters(g)
    requires m' == m.(pc := Tell(BarrierEnd, 0), round := NextRound(m).0, trick := NextRound(m).1)
    ensures var unread := g.next == 0;
            StageOf(m', unread, 0) == StageOf(m, unread, |Script(m.round)|)
  {
  }

  /** Between two rounds the stages meet. */
  lemma CheckLog(m: Main, g: Game, t: Thread, s: Seat, m': Main)
    requires MainOk(m, g) && m.pc.BarrierCheck? && Facts(g) && LogOk(m, g, t, s) && HasArrived(m, t, s)
    requires m' == m.(pc := Tell(BarrierEnd, 0), round := NextRound(m).0, trick := NextRound(m).1)
    requires Queue(t) == []
    ensures LogOk(m', g, t, s)
  {
    hide Clean, LogAt, StageFits, StageOf;
    CheckStage(m, g, m');
    assert Acted(m', t, s) == 0;
    hide MainOk, Facts;
  }

  /** The stage moves with the main thread only when a deal is loaded. */
  lemma StageStays(m: Main, g: Game, m': Main, g': Game, acted: int)
    requires MainOk(m, g) && m'.round == m.round && m'.trick == m.trick && g'.next == g.next
    requires m.round == First ==> (Unloaded(m'.pc) <==> Unloaded(m.pc))
    ensures StageOf(m', g'.next == 0, acted) == StageOf(m, g.next == 0, acted)
  {
  }

  lemma MainUnloaded(st: State, from: Seat)
    requires Inv(st) && Typed(st) && MainEnabled(st, from) && !st.main.pc.BarrierCheck?
    ensures var m, m' := st.main, MainNext(st, from).main;
            && m'.round == m.round && m'.trick == m.trick
            && (m.round == First && !(m.pc.NextDeal? && st.g.next < |st.g.file|) ==> (Unloaded(m'.pc) <==> Unloaded(m.pc)))
  {
    hide Inv, Valid, FileOk, TableOk, BarrierOk, ThreadOk;
    PartsOf(st);
    CountersOf(st);
    hide DoCloseTrick, DoCloseDeal, DoLoad, DoOpen, DoBegin;
    match st.main.pc {
      case AwaitCard(_) => ReadsPlay(st, from);
      case BarrierWait => ReadsWake(st, from);
      case _ =>
    }
  }

  /** A deal that is loaded or opened has been told to nobody. */
  lemma NothingTold(m: Main, g: Game, t: Thread, s: Seat, m': Main, g': Game, t': Thread)
    requires MainOk(m, g) && (m.pc.NextDeal? || m.pc.OpenDeal?) && m'.round == m.round && !Unloaded(m'.pc)
    requires Acted(m', t', s) <= 1 && |g'.deal| == 4 && |g'.tricks| == |g'.takers|
    requires Clean(t'.log) == []
    ensures LogOk(m', g', t', s)
  {
  }

  lemma FreshLog(st: State, from: Seat, s: Seat)
    requires LogInv(st) && Typed(st) && MainEnabled(st, from)
    requires st.main.pc.OpenDeal? || (st.main.pc.NextDeal? && st.g.next < |st.g.file|)
    ensures var st' := MainNext(st, from);
            |st'.threads| == 4 && LogOk(st'.main, st'.g, st'.threads[s], s)
  {
    hide LogInv, Inv, Valid, FileOk, TableOk, BarrierOk, ThreadOk, LogOk, Facts, MainOk;
    LogOf(st, s);
    PartsOf(st);
    ThreadOf(st, s);
    FactsOf(st.g);
    FactsOf(MainNext(st, from).g) by { MainGame(st, from); }
    CountersOf(st);
    MainActed(st, from, s);
    MainKeepsLog(st, from, s);
    EarlyLog(st.main, st.g, st.threads[s], s);
    FactsTricks(MainNext(st, from).g);
    NothingTold(st.main, st.g, st.threads[s], s, MainNext(st, from).main, MainNext(st, from).g, MainNext(st, from).threads[s]);
  }

  lemma FactsTricks(g: Game)
    requires Facts(g)
    ensures |g.deal| == 4 && |g.tricks| == |g.takers|
  {
  }

  lemma EarlyLog(m: Main, g: Game, t: Thread, s: Seat)
    requires ThreadOk(m, g, t, s) && LogOk(m, g, t, s) && MainOk(m, g)
    requires m.pc.OpenDeal? || m.pc.NextDeal?
    ensures Acted(m, t, s) <= 1
    ensures m.pc.OpenDeal? ==> Clean(t.log) == []
  {
    hide Clean, Queue;
  }

  lemma GrownLog(st: State, from: Seat, s: Seat)
    requires LogInv(st) && Typed(st) && MainEnabled(st, from)
    requires !st.main.pc.BarrierCheck? && !st.main.pc.OpenDeal? && !(st.main.pc.NextDeal? && st.g.next < |st.g.file|)
    ensures var st' := MainNext(st, from);
            |st'.threads| == 4 && LogOk(st'.main, st'.g, st'.threads[s], s)
  {
    hide LogInv, Inv, Valid, FileOk, TableOk, BarrierOk, ThreadOk, MainOk, MainNext, Acted, StageOf, LogAt, Grows, TrickOut, Clean;
    LogOf(st, s);
    PartsOf(st);
    MainActed(st, from, s);
    MainKeepsLog(st, from, s);
    MainUnloaded(st, from);
    MainGrows(st, from, s);
    var stage := StageOf(st.main, st.g.next == 0, Acted(st.main, st.threads[s], s));
    StageStays(st.main, st.g, MainNext(st, from).main, MainNext(st, from).g, Acted(st.main, st.threads[s], s));
    LogAtGrows(st.g, MainNext(st, from).g, s, stage);
  }

  lemma MainLog(st: State, from: Seat, s: Seat)
    requires LogInv(st) && Typed(st) && MainEnabled(st, from)
    ensures var st' := MainNext(st, from);
            |st'.threads| == 4 && LogOk(st'.main, st'.g, st'.threads[s], s)
  {
    hide LogInv, Inv, Valid, FileOk, TableOk, BarrierOk, ThreadOk, LogOk, MainOk, Facts;
    LogOf(st, s);
    PartsOf(st);
    ThreadOf(st, s);
    FactsOf(st.g);
    var m, g, t := st.main, st.g, st.threads[s];
    if m.pc.BarrierCheck? {
      AllArrived(st, s);
      CheckLog(m, g, t, s, MainNext(st, from).main);
    } else {
      hide MainNext;
      if m.pc.OpenDeal? || (m.pc.NextDeal? && g.next < |g.file|) {
        FreshLog(st, from, s);
      } else {
        GrownLog(st, from, s);
      }
    }
  }

  lemma MainLogs(st: State, from: Seat)
    requires LogInv(st) && Typed(st) && MainEnabled(st, from)
    ensures LogInv(Next(st, MainStep(from)))
  {
    var st' := Next(st, MainStep(from));
    assert st' == MainNext(st, from) && Typed(st');
    LogOf(st, 0);
    hide Inv, LogOk, MainNext, Next, Typed;
    MainKeeps(st, from);
    forall s: Seat { MainLog(st, from, s); }
  }

  // ---- Whole runs ---------------------------------------------------------------------------------------

  lemma InitialLogs(st: State)
    requires Initial(st)
    ensures LogInv(st)
  {
    InitialInv(st);
    PartsOf(st);
    hide Inv, Valid, FileOk;
    forall s: Seat ensures LogOk(st.main, st.g, st.threads[s], s) {
      assert Idling(st.threads[s]);
    }
  }

  lemma {:induction false} RunLogs(st: State, actions: seq<Action>)
    requires LogInv(st) && Typed(st) && IsRun(st, actions)
    ensures LogInv(RunOf(st, actions))
    decreases |actions|
  {
    if actions != [] {
      var st1 := Next(st, actions[0]);
      match actions[0] {
        case MainStep(from) => MainLogs(st, from);
        case SeatStep(s, choice) => SeatLogs(st, s, choice);
      }
      hide LogInv, Next;
      RunLogs(st1, actions[1..]);
    }
  }

  lemma ReachableLogs(st: State)
    requires Reachable(st)
    ensures LogInv(st)
  {
    var st0, actions :| Initial(st0) && Typed(st0) && IsRun(st0, actions) && RunOf(st0, actions) == st;
    hide LogInv, Initial, IsRun, RunOf;
    InitialLogs(st0);
    RunLogs(st0, actions);
  }
}
