/** What the logs mean: all seats are told the same story, the whole of it, and a client that reads its own
    log knows its hand -- however many WRONG and repeated TRICK messages come in between. */
module Agreement {
  import opened Cards
  import opened GameModel
  import opened Conduct
  import opened Client
  import opened Match
  import opened Protocol
  import opened Control
  import opened ControlSeat
  import opened Safety
  import opened Logs
  import opened LogSteps

  // ---- One story for all seats ---------------------------------------------------------------------------

  /** The `i`-th message of a deal to seat `s`. */
  function Entry(g: Game, s: Seat, i: nat): ServerMessage
    requires |g.deal| == 4 && |g.tricks| == |g.takers|
  {
    if i == 0 then DealOut(g, s)
    else if i % 2 == 1 && i / 2 < |Rounds(g)| then TrickOut(g, s, i / 2)
    else if i % 2 == 0 && i / 2 <= |g.tricks| then TakenOut(g, i / 2 - 1)
    else if i % 2 == 1 then ScoreMsg(g.roundScores)
    else TotalMsg(g.totalScores)
  }

  lemma {:induction false} UptoEntries(g: Game, s: Seat, n: nat)
    requires |g.deal| == 4 && n <= |g.tricks| == |g.takers|
    ensures |Upto(g, s, n)| == 2 * n + 1
    ensures forall i | 0 <= i <= 2 * n :: Upto(g, s, n)[i] == Entry(g, s, i)
  {
    hide *;
    UptoAt(g, s, n, 0);
    forall i | 0 <= i <= 2 * n ensures Upto(g, s, n)[i] == Entry(g, s, i) {
      UptoAt(g, s, n, i);
    }
  }

  lemma {:induction false} UptoAt(g: Game, s: Seat, n: nat, i: nat)
    requires |g.deal| == 4 && n <= |g.tricks| == |g.takers| && i <= 2 * n
    ensures |Upto(g, s, n)| == 2 * n + 1 && Upto(g, s, n)[i] == Entry(g, s, i)
  {
    hide *;
    if n > 0 {
      UptoAt(g, s, n - 1, if i < 2 * n - 1 then i else 0);
      UptoLast(g, s, n);
    } else {
      UptoFirst(g, s);
    }
  }

  lemma UptoFirst(g: Game, s: Seat)
    requires |g.deal| == 4 && |g.tricks| == |g.takers|
    ensures Upto(g, s, 0) == [Entry(g, s, 0)]
  {
    hide DealOut;
  }

  lemma UptoLast(g: Game, s: Seat, n: nat)
    requires |g.deal| == 4 && 0 < n <= |g.tricks| == |g.takers|
    ensures Upto(g, s, n) == Upto(g, s, n - 1) + [Entry(g, s, 2 * n - 1), Entry(g, s, 2 * n)]
  {
    var a, t := TrickOut(g, s, n - 1), TakenOut(g, n - 1);
    assert Upto(g, s, n) == Upto(g, s, n - 1) + [a, t];
    hide *;
    TrickEntries(g, s, n - 1);
    assert 2 * (n - 1) + 1 == 2 * n - 1 && 2 * (n - 1) + 2 == 2 * n;
  }

  lemma TrickEntries(g: Game, s: Seat, j: nat)
    requires |g.deal| == 4 && j < |g.tricks| == |g.takers|
    ensures Entry(g, s, 2 * j + 1) == TrickOut(g, s, j) && Entry(g, s, 2 * j + 2) == TakenOut(g, j)
  {
    hide TrickOut, TakenOut;
  }

  /** Scores are only told when no trick is open. */
  lemma WholeIsIdle(m: Main, g: Game, s: Seat, acted: int)
    requires MainOk(m, g) && acted <= Sent(m, s) && StageOf(m, g.next == 0, acted).Whole?
    ensures g.phase == Idle && g.next > 0
  {
  }

  lemma ActedSent(m: Main, t: Thread, s: Seat)
    ensures Acted(m, t, s) <= Sent(m, s)
  {
  }

  lemma LogEntries(g: Game, s: Seat, stage: Stage)
    requires StageFits(g, stage) && (stage.Whole? ==> g.phase == Idle)
    ensures forall i | 0 <= i < |LogAt(g, s, stage)| :: LogAt(g, s, stage)[i] == Entry(g, s, i)
  {
    hide Entry, Upto, TrickOut, Rounds;
    match stage
    case Nothing =>
    case Told(n) => UptoEntries(g, s, n);
    case Asked(n) =>
      AskedEntry(g, s, n);
      UptoEntries(g, s, n);
    case Whole =>
      ScoreEntries(g, s);
      UptoEntries(g, s, |g.tricks|);
  }

  lemma AskedEntry(g: Game, s: Seat, n: nat)
    requires |g.deal| == 4 && |g.tricks| == |g.takers| && n < |Rounds(g)| && n < |Leaders(g)|
    ensures Entry(g, s, 2 * n + 1) == TrickOut(g, s, n)
  {
    hide TrickOut;
  }

  lemma ScoreEntries(g: Game, s: Seat)
    requires |g.deal| == 4 && |g.tricks| == |g.takers| && g.phase == Idle
    ensures var n := |g.tricks|;
            Entry(g, s, 2 * n + 1) == ScoreMsg(g.roundScores) && Entry(g, s, 2 * n + 2) == TotalMsg(g.totalScores)
  {
    assert Rounds(g) == g.tricks;
  }

  function StageAt(st: State, s: Seat): Stage
    requires |st.threads| == 4
  {
    StageOf(st.main, st.g.next == 0, Acted(st.main, st.threads[s], s))
  }

  lemma ReachableLog(st: State, s: Seat)
    requires Reachable(st)
    ensures Typed(st) && FileOk(st.g.file) && Valid(st.g) && MainOk(st.main, st.g)
    ensures StageFits(st.g, StageAt(st, s)) && Clean(st.threads[s].log) == LogAt(st.g, s, StageAt(st, s))
  {
    ReachableLogs(st);
    hide Reachable, Inv, Valid, FileOk, TableOk, BarrierOk, ThreadOk, MainOk, Clean, LogAt, Acted, StageOf;
    LogOf(st, s);
    PartsOf(st);
  }

  /** All there is to tell seat `s` about the deal so far: its recorded tricks, the one being played, and the
      scores once thirteen tricks are recorded and counted. */
  function Story(g: Game, s: Seat): seq<ServerMessage>
    requires |g.deal| == 4 && |g.tricks| == |g.takers|
  {
    Upto(g, s, |g.tricks|)
    + (if g.phase == Trick then [TrickOut(g, s, |g.tricks|)] else [])
    + (if g.phase == Idle && |g.tricks| == 13 then [ScoreMsg(g.roundScores), TotalMsg(g.totalScores)] else [])
  }

  lemma {:induction false} UptoBegins(g: Game, s: Seat, n: nat, m: nat)
    requires |g.deal| == 4 && n <= m <= |g.tricks| == |g.takers|
    ensures Upto(g, s, n) <= Upto(g, s, m)
    decreases m
  {
    hide TrickOut, TakenOut;
    if n < m { UptoBegins(g, s, n, m - 1); }
  }

  lemma LogBegins(g: Game, s: Seat, stage: Stage)
    requires StageFits(g, stage) && (stage.Whole? ==> g.phase == Idle && |g.tricks| == 13)
    ensures LogAt(g, s, stage) <= Story(g, s)
  {
    hide TrickOut, TakenOut;
    match stage
    case Nothing =>
    case Told(n) => UptoBegins(g, s, n, |g.tricks|);
    case Asked(n) =>
      if n < |g.tricks| {
        assert Upto(g, s, n + 1) == Upto(g, s, n) + [TrickOut(g, s, n), TakenOut(g, n)];
        UptoBegins(g, s, n + 1, |g.tricks|);
        assert Upto(g, s, n) + [TrickOut(g, s, n)] <= Upto(g, s, n + 1);
      }
    case Whole =>
  }

  /** A story has at most 29 messages; the last two, and no others, are SCORE and TOTAL. */
  lemma StoryEnds(g: Game, s: Seat)
    requires |g.deal| == 4 && |g.tricks| == |g.takers| <= 13 && (g.phase == Trick ==> |g.tricks| < 13)
    ensures |Story(g, s)| <= 29
    ensures forall i | 0 <= i < |Story(g, s)| ::
              (Story(g, s)[i].ScoreMsg? <==> i == 27) && (Story(g, s)[i].TotalMsg? <==> i == 28)
  {
    var n, l := |g.tricks|, Upto(g, s, |g.tricks|);
    UptoEntries(g, s, n);
    forall i | 0 <= i <= 2 * n ensures !l[i].ScoreMsg? && !l[i].TotalMsg? {
      assert l[i] == Entry(g, s, i);
      hide Seen, Leaders, Upto;
    }
    hide Upto, Entry, TrickOut;
    assert g.phase == Trick ==> TrickOut(g, s, n).TrickMsg? by { TrickKind(g, s, n); }
  }

  lemma TrickKind(g: Game, s: Seat, j: nat)
    ensures j < |Rounds(g)| && j < |Leaders(g)| ==> TrickOut(g, s, j).TrickMsg?
  {
  }

  lemma TricksSoFar(g: Game)
    requires Counters(g) && Shape(g)
    ensures |g.tricks| == |g.takers| <= 13 && (g.phase == Trick ==> |g.tricks| < 13)
    ensures g.phase == Idle && g.next > 0 ==> |g.tricks| == 13
  {
  }

  /** In every reachable state each seat has been told, apart from WRONG and repeated TRICK, exactly a beginning
      of the one story of the deal: DEAL, then TRICK and TAKEN in turn, then SCORE and TOTAL. */
  lemma LogIsStory(st: State, s: Seat)
    requires Reachable(st)
    ensures |st.threads| == 4 && |st.g.deal| == 4 && |st.g.tricks| == |st.g.takers|
    ensures Clean(st.threads[s].log) <= Story(st.g, s) && |Story(st.g, s)| <= 29
    ensures forall i | 0 <= i < |Clean(st.threads[s].log)| ::
              var m := Clean(st.threads[s].log)[i];
              && m == Entry(st.g, s, i)
              && (m.ScoreMsg? <==> i == 27) && (m.TotalMsg? <==> i == 28)
              && (m.ScoreMsg? || m.TotalMsg? ==> st.g.phase == Idle && |st.g.tricks| == 13)
  {
    hide *;
    ReachableLog(st, s);
    ThreadsTyped(st);
    ValidTricks(st.g);
    OverIfWhole(st, s);
    FitsDeal(st.g, StageAt(st, s));
    LogEntries(st.g, s, StageAt(st, s));
    LogBegins(st.g, s, StageAt(st, s));
    BeginningOfStory(st.g, s, Clean(st.threads[s].log));
  }

  lemma OverIfWhole(st: State, s: Seat)
    requires Typed(st) && Valid(st.g) && MainOk(st.main, st.g) && |st.threads| == 4
    ensures StageAt(st, s).Whole? ==> st.g.phase == Idle && |st.g.tricks| == 13
  {
    ValidTricks(st.g);
    hide MainOk, Acted, Valid;
    ActedSent(st.main, st.threads[s], s);
    if StageAt(st, s).Whole? {
      WholeIsIdle(st.main, st.g, s, Acted(st.main, st.threads[s], s));
    }
  }

  lemma FitsDeal(g: Game, stage: Stage)
    requires StageFits(g, stage)
    ensures |g.deal| == 4
  {
  }

  lemma BeginningOfStory(g: Game, s: Seat, log: seq<ServerMessage>)
    requires |g.deal| == 4 && |g.tricks| == |g.takers| <= 13 && (g.phase == Trick ==> |g.tricks| < 13)
    requires log <= Story(g, s)
    ensures |Story(g, s)| <= 29
    ensures forall i | 0 <= i < |log| ::
              && (log[i].ScoreMsg? <==> i == 27) && (log[i].TotalMsg? <==> i == 28)
              && (log[i].ScoreMsg? || log[i].TotalMsg? ==> g.phase == Idle && |g.tricks| == 13)
  {
    StoryEnds(g, s);
    LongStory(g, s);
    hide Story;
  }

  lemma LongStory(g: Game, s: Seat)
    requires |g.deal| == 4 && |g.tricks| == |g.takers| <= 13 && (g.phase == Trick ==> |g.tricks| < 13)
    ensures |Story(g, s)| > 27 ==> g.phase == Idle && |g.tricks| == 13
  {
    UptoEntries(g, s, |g.tricks|);
    hide Upto, TrickOut;
  }

  lemma ValidTricks(g: Game)
    requires Valid(g)
    ensures |g.tricks| == |g.takers| <= 13 && (g.phase == Trick ==> |g.tricks| < 13)
    ensures g.phase == Idle && g.next > 0 ==> |g.tricks| == 13
  {
    hide HandsConserved, PackConserved, Void, NoRevoke, Scored;
    if g.next > 0 { TricksSoFar(g); }
  }

  /** What the TRICK for trick `j` shows to seat `s`: the cards of the seats that play before it, if so many lie. */
  predicate Shown(g: Game, s: Seat, j: nat, table: seq<Card>) {
    && j < |Rounds(g)| && j < |Leaders(g)|
    && table <= Rounds(g)[j] && (|table| == Pos(Leaders(g)[j], s) || table == Rounds(g)[j])
  }

  /** Message `i` of the deal as two seats get it.  A DEAL gives each seat the hand that the game file deals to it,
      with the file's type and starter; a TRICK shows more or less of the same table; TAKEN, SCORE and TOTAL are
      the same for both: the recorded trick, what each seat took in this deal, and the totals. */
  predicate SameNews(g: Game, s: Seat, u: Seat, i: nat, a: ServerMessage, b: ServerMessage) {
    && 0 < g.next <= |g.file| && |g.file[g.next - 1].hands| == 4 && |g.tricks| == |g.takers|
    && var d := g.file[g.next - 1];
       match a
       case DealMsg(kind, starter, hand) =>
         && i == 0 && kind == d.kind && starter == d.starter && hand == d.hands[s]
         && b == DealMsg(kind, starter, d.hands[u])
       case TrickMsg(number, table) =>
         b.TrickMsg? && number == b.number == i / 2 + 1 && Shown(g, s, i / 2, table) && Shown(g, u, i / 2, b.table)
       case TakenMsg(number, trick, taker) =>
         && b == a && 1 <= number == i / 2 <= |g.tricks|
         && trick == g.tricks[number - 1] && taker == g.takers[number - 1]
       case ScoreMsg(points) =>
         b == a && |points| == 4 && forall x: Seat :: points[x] == Tally(d.kind, g.tricks, g.takers, x)
       case TotalMsg(points) => b == a && points == g.totalScores
       case WrongMsg(_) => false
  }

  lemma EntriesAgree(g: Game, s: Seat, u: Seat, i: nat)
    requires Shape(g) && g.next > 0 && |g.file[g.next - 1].hands| == 4 && |Rounds(g)| <= |Leaders(g)| && g.phase != Dealt
    requires Entry(g, s, i).ScoreMsg? || Entry(g, s, i).TotalMsg? ==> g.phase == Idle
    requires Scored(g)
    ensures SameNews(g, s, u, i, Entry(g, s, i), Entry(g, u, i))
  {
    hide Seen, Tally, Shown, Rounds, Leaders;
    if i % 2 == 1 && i / 2 < |Rounds(g)| {
      SeenShown(g, s, i / 2);
      SeenShown(g, u, i / 2);
    }
  }

  lemma SeenShown(g: Game, s: Seat, j: nat)
    requires j < |Rounds(g)| && j < |Leaders(g)|
    ensures Shown(g, s, j, Seen(Rounds(g)[j], Leaders(g)[j], s))
  {
  }

  /** Whenever two seats have both been sent their `i`-th message of the deal, the messages agree. */
  lemma SeatsAgree(st: State, s: Seat, u: Seat, i: nat)
    requires Reachable(st)
    requires |st.threads| == 4 && i < |Clean(st.threads[s].log)| && i < |Clean(st.threads[u].log)|
    ensures SameNews(st.g, s, u, i, Clean(st.threads[s].log)[i], Clean(st.threads[u].log)[i])
  {
    hide *;
    LogIsStory(st, s);
    LogIsStory(st, u);
    ReachableLog(st, s);
    LogNotEmpty(st, s, i);
    NotJustDealt(st, s);
    ValidShape(st.g);
    EntriesAgree(st.g, s, u, i);
  }

  /** Nothing is told of a deal before it is opened. */
  lemma NotJustDealt(st: State, s: Seat)
    requires Reachable(st) && |st.threads| == 4 && Clean(st.threads[s].log) != []
    ensures st.g.phase != Dealt
  {
    ReachableLogs(st);
    hide Reachable, Inv, LogOk, Valid, FileOk, TableOk, BarrierOk, Clean, ThreadOk;
    LogOf(st, s);
    PartsOf(st);
    ThreadOf(st, s);
    if st.g.phase == Dealt {
      DealtOnlyOpening(st.main, st.g);
      hide MainOk;
      EarlyLog(st.main, st.g, st.threads[s], s);
    }
  }

  lemma DealtOnlyOpening(m: Main, g: Game)
    requires MainOk(m, g) && g.phase == Dealt
    ensures m.pc.OpenDeal?
  {
  }

  lemma ValidShape(g: Game)
    requires FileOk(g.file) && Valid(g) && g.next > 0
    ensures Shape(g) && g.next <= |g.file| && |g.file[g.next - 1].hands| == 4 && |Rounds(g)| <= |Leaders(g)|
    ensures Scored(g)
  {
    assert Sized(g.file[g.next - 1]);
    hide HandsConserved, PackConserved, Void, NoRevoke, FullPack;
  }

  lemma LogNotEmpty(st: State, s: Seat, i: nat)
    requires Reachable(st) && |st.threads| == 4 && i < |Clean(st.threads[s].log)|
    ensures st.g.next > 0
  {
    hide *;
    ReachableLog(st, s);
    NothingYet(st.main, st.g, s, Acted(st.main, st.threads[s], s));
    ThreadsTyped(st);
    StageIs(st, s);
  }

  lemma StageIs(st: State, s: Seat)
    requires |st.threads| == 4
    ensures StageAt(st, s) == StageOf(st.main, st.g.next == 0, Acted(st.main, st.threads[s], s))
  {
    hide StageOf, Acted;
  }

  /** Before the first deal nobody has been told anything. */
  lemma NothingYet(m: Main, g: Game, s: Seat, acted: int)
    requires MainOk(m, g) && Valid(g)
    ensures var stage := StageOf(m, g.next == 0, acted); g.next == 0 && StageFits(g, stage) ==> LogAt(g, s, stage) == []
  {
    hide Valid, LogAt;
    if g.next == 0 {
      UnstartedGame(g);
      assert StageOf(m, true, acted) == Nothing;
    }
    EmptyLog(g, s);
  }

  lemma UnstartedGame(g: Game)
    requires Valid(g) && g.next == 0
    ensures g.phase == Idle
  {
    hide HandsConserved, PackConserved, Void, NoRevoke, Scored;
  }

  lemma EmptyLog(g: Game, s: Seat)
    ensures StageFits(g, Nothing) ==> LogAt(g, s, Nothing) == []
  {
  }

  /** A deal that is over has been told to every seat in full. */
  lemma TranscriptComplete(st: State, s: Seat)
    requires Reachable(st) && st.main.round == First && Unloaded(st.main.pc) && st.g.next > 0
    ensures |st.threads| == 4 && |st.g.deal| == 4 && |st.g.tricks| == |st.g.takers| == 13
    ensures Clean(st.threads[s].log) == Transcript(st.g, s) && |Clean(st.threads[s].log)| == 29
  {
    ReachableLog(st, s);
    hide *;
    ThreadsTyped(st);
    OverIsWhole(st, s);
    UptoEntries(st.g, s, 13);
    WholeLog(st.g, s);
  }

  lemma ThreadsTyped(st: State)
    requires Typed(st)
    ensures |st.threads| == 4
  {
  }

  lemma OverIsWhole(st: State, s: Seat)
    requires |st.threads| == 4 && Valid(st.g) && MainOk(st.main, st.g)
    requires st.main.round == First && Unloaded(st.main.pc) && st.g.next > 0
    ensures |st.g.deal| == 4 && |st.g.tricks| == |st.g.takers| == 13 && StageAt(st, s).Whole?
  {
    hide HandsConserved, PackConserved, Void, NoRevoke, Scored, Acted;
  }

  lemma WholeLog(g: Game, s: Seat)
    requires |g.deal| == 4 && |g.tricks| == |g.takers|
    ensures StageFits(g, Whole) && LogAt(g, s, Whole) == Transcript(g, s)
    ensures |Transcript(g, s)| == |Upto(g, s, |g.tricks|)| + 2
  {
    hide Upto;
  }

  // ---- The replay ----------------------------------------------------------------------------------------------

  /** A story without its questions. */
  function NotTricks(ms: seq<ServerMessage>): seq<ServerMessage> {
    if ms == [] then []
    else NotTricks(ms[..|ms| - 1]) + if ms[|ms| - 1].TrickMsg? then [] else [ms[|ms| - 1]]
  }

  lemma NotTricksPush(ms: seq<ServerMessage>, m: ServerMessage)
    ensures NotTricks(ms + [m]) == NotTricks(ms) + if m.TrickMsg? then [] else [m]
  {
    assert (ms + [m])[..|ms|] == ms;
  }

  lemma {:induction false} ReplayTold(g: Game, s: Seat, n: nat)
    requires |g.deal| == 4 && n <= |g.tricks| == |g.takers|
    ensures Replay(g, s, n) == NotTricks(Upto(g, s, n))
  {
    if n == 0 {
      hide TrickOut, TakenOut;
      NotTricksPush([], DealOut(g, s));
      assert [] + [DealOut(g, s)] == [DealOut(g, s)];
    } else {
      var l, t := Upto(g, s, n - 1), TakenOut(g, n - 1);
      assert Replay(g, s, n) == Replay(g, s, n - 1) + [t];
      hide *;
      ReplayTold(g, s, n - 1);
      ReplayStep(g, s, n);
    }
  }

  lemma ReplayStep(g: Game, s: Seat, n: nat)
    requires |g.deal| == 4 && 0 < n <= |g.tricks| == |g.takers|
    ensures NotTricks(Upto(g, s, n)) == NotTricks(Upto(g, s, n - 1)) + [TakenOut(g, n - 1)]
  {
    var l, a, t := Upto(g, s, n - 1), TrickOut(g, s, n - 1), TakenOut(g, n - 1);
    assert Upto(g, s, n) == l + [a] + [t];
    assert a.TrickMsg? && t.TakenMsg?;
    hide *;
    NotTricksPush(l, a);
    NotTricksPush(l + [a], t);
  }

  /** The replay message by message. */
  lemma {:induction false} ReplayAt(g: Game, s: Seat, n: nat, j: nat)
    requires |g.deal| == 4 && j <= n <= |g.tricks| == |g.takers|
    ensures |Replay(g, s, n)| == n + 1
    ensures Replay(g, s, n)[j] == if j == 0 then DealMsg(g.kind, g.starter, g.deal[s])
                                  else TakenMsg(j, g.tricks[j - 1], g.takers[j - 1])
  {
    if n > 0 {
      ReplayAt(g, s, n - 1, if j < n then j else 0);
    }
  }

  /** A client that reconnects is sent the beginning of its seat's story again without the questions: the DEAL of
      the game file, with the type and the starter it names, and each TAKEN there was, in order. */
  lemma ReplayIsStory(g: Game, s: Seat)
    requires FileOk(g.file) && Valid(g) && g.next > 0 && g.phase != Dealt
    ensures 0 < g.next <= |g.file| && |g.file[g.next - 1].hands| == 4
    ensures |g.deal| == 4 && |g.tricks| == |g.takers|
    ensures var d, n := g.file[g.next - 1], |g.tricks|;
            && |Replay(g, s, n)| == n + 1 && Replay(g, s, n)[0] == DealMsg(d.kind, d.starter, d.hands[s])
            && (forall j | 1 <= j <= n :: Replay(g, s, n)[j] == TakenMsg(j, g.tricks[j - 1], g.takers[j - 1]))
            && Replay(g, s, n) == NotTricks(Upto(g, s, n))
    ensures g.phase != Idle ==> Replay(g, s, |g.tricks|) == NotTricks(Story(g, s))
  {
    hide *;
    ValidShape(g);
    FromFile(g);
    ReplayTold(g, s, |g.tricks|);
    ReplayAt(g, s, |g.tricks|, 0);
    forall j | 1 <= j <= |g.tricks|
      ensures Replay(g, s, |g.tricks|)[j] == TakenMsg(j, g.tricks[j - 1], g.takers[j - 1])
    {
      ReplayAt(g, s, |g.tricks|, j);
    }
    if g.phase != Idle {
      StoryQuestion(g, s);
    }
  }

  lemma FromFile(g: Game)
    requires Shape(g) && g.next > 0 && g.phase != Dealt
    ensures |g.deal| == 4 && |g.tricks| == |g.takers| && |Rounds(g)| <= |Leaders(g)|
    ensures var d := g.file[g.next - 1]; g.deal == d.hands && g.kind == d.kind && g.starter == d.starter
  {
  }

  /** While a deal is played its story ends with at most one question more. */
  lemma StoryQuestion(g: Game, s: Seat)
    requires |g.deal| == 4 && |g.tricks| == |g.takers| && g.phase != Idle
    ensures NotTricks(Story(g, s)) == NotTricks(Upto(g, s, |g.tricks|))
  {
    hide NotTricks, Upto, TrickOut;
    var l := Upto(g, s, |g.tricks|);
    if g.phase == Trick {
      TrickKind(g, s, |g.tricks|);
      NotTricksPush(l, TrickOut(g, s, |g.tricks|));
      assert Story(g, s) == l + [TrickOut(g, s, |g.tricks|)];
      assert NotTricks(l) + [] == NotTricks(l);
    } else {
      assert Story(g, s) == l;
    }
  }

  // ---- What a client makes of its log -----------------------------------------------------------------------

  /** Two views that count the same cards and tricks, whichever cards are already sent. */
  ghost predicate Alike(v: View, w: View) {
    && v.seat == w.seat && v.trickNumber == w.trickNumber && v.taken == w.taken && Held(v) == Held(w)
    && v.gotScore == w.gotScore && v.gotTotal == w.gotTotal
  }

  lemma ReceiveAlike(v: View, w: View, m: ServerMessage)
    requires Alike(v, w) && !m.DealMsg?
    ensures Alike(Receive(v, m).0, Receive(w, m).0)
    ensures m.TrickMsg? ==> Alike(Receive(v, m).0, v)
  {
    if m.TrickMsg? {
      AnswerHeld(v, Color(m.table));
      AnswerHeld(w, Color(m.table));
    } else if m.TakenMsg? && Accepts(v, m) {
      TakenHeld(v, m);
      TakenHeld(w, m);
    }
    hide EraseEach, Held;
  }

  /** One more message, to a client that read everything and to one that read the clean log. */
  lemma PushAlike(v: View, a: View, clean: seq<ServerMessage>, m: ServerMessage)
    requires Alike(a, ReceiveAll(v, clean)) && (m.DealMsg? ==> clean == []) && (clean == [] ==> a == v)
    ensures Alike(Receive(a, m).0, ReceiveAll(v, Push(clean, m)))
  {
    hide ReceiveAll, Alike, Receive;
    if Push(clean, m) == clean {
      if m.TrickMsg? {
        ReceiveAlike(a, ReceiveAll(v, clean), m);
        Transitive(Receive(a, m).0, a, ReceiveAll(v, clean));
      } else {
        IgnoresWrong(a, m);
      }
    } else {
      ReceiveLast(v, clean, m);
      if m.DealMsg? {
        ReceiveNone(v);
        Reflexive(Receive(v, m).0);
      } else {
        ReceiveAlike(a, ReceiveAll(v, clean), m);
      }
    }
  }

  lemma Transitive(u: View, v: View, w: View)
    requires Alike(u, v) && Alike(v, w)
    ensures Alike(u, w)
  {
  }

  lemma Reflexive(v: View)
    ensures Alike(v, v)
  {
  }

  lemma IgnoresWrong(v: View, m: ServerMessage)
    requires m.WrongMsg?
    ensures Receive(v, m).0 == v
  {
  }

  lemma ReceiveNone(v: View)
    ensures ReceiveAll(v, []) == v
  {
  }

  /** WRONG and repeated TRICK change neither the cards a client counts nor its trick number. */
  lemma {:induction false} CleanSuffices(v: View, log: seq<ServerMessage>)
    requires forall i | 0 < i < |Clean(log)| :: !Clean(log)[i].DealMsg?
    ensures Alike(ReceiveAll(v, log), ReceiveAll(v, Clean(log)))
    ensures Clean(log) == [] ==> ReceiveAll(v, log) == v
  {
    hide Receive, Alike;
    if log == [] {
      Reflexive(v);
    } else {
      var front, m := log[..|log| - 1], log[|log| - 1];
      assert Clean(log) == Push(Clean(front), m) && Clean(front) <= Clean(log);
      assert m.DealMsg? ==> Clean(log)[|Clean(front)|] == m;
      CleanSuffices(v, front);
      PushAlike(v, ReceiveAll(v, front), Clean(front), m);
      if m.WrongMsg? { IgnoresWrong(ReceiveAll(v, front), m); }
      hide Clean;
    }
  }

  lemma AfterTrick(g: Game, s: Seat, n: nat, u: View)
    requires n < |g.tricks| == |g.takers| || (n == |g.tricks| == |g.takers| && g.phase == Trick)
    requires u.trickNumber == n + 1
    ensures n < |Rounds(g)| && n < |Leaders(g)|
    ensures var w := Receive(u, TrickOut(g, s, n)).0;
            w.trickNumber == u.trickNumber && w.taken == u.taken && w.seat == u.seat && Held(w) == Held(u)
            && w.gotScore == u.gotScore && w.gotTotal == u.gotTotal
  {
    AnswerHeld(u, Color(TrickOut(g, s, n).table));
  }

  lemma AfterTaken(g: Game, s: Seat, n: nat, w: View)
    requires |g.deal| == 4 && n < |g.tricks| == |g.takers| && |g.tricks[n]| == 4
    requires w.trickNumber == n + 1 && w.seat == s && w.taken == TakenBy(g, s, n)
    requires Held(w) == multiset(g.deal[s]) - Pile(g.tricks[..n])
    ensures ReplayedTo(g, s, n + 1, Receive(w, TakenOut(g, n)).0)
  {
    var t := TakenOut(g, n);
    TakenHeld(w, t);
    HeldAll(Receive(w, t).0);
    assert g.tricks[..n + 1] == g.tricks[..n] + [g.tricks[n]];
    PileLast(g.tricks[..n], g.tricks[n]);
    MinusTwice(multiset(g.deal[s]), Pile(g.tricks[..n]), multiset(g.tricks[n]));
    hide EraseEach, Pile, Held;
  }

  /** TRICK and TAKEN of one trick. */
  lemma TrickAndTaken(g: Game, s: Seat, n: nat, u: View)
    requires |g.deal| == 4 && n < |g.tricks| == |g.takers| && |g.tricks[n]| == 4
    requires ReplayedTo(g, s, n, u)
    ensures n < |Rounds(g)| && n < |Leaders(g)|
    ensures ReplayedTo(g, s, n + 1, Receive(Receive(u, TrickOut(g, s, n)).0, TakenOut(g, n)).0)
  {
    hide Receive, TrickOut, TakenOut, Rounds, Leaders, Pile, Held;
    AfterTrick(g, s, n, u);
    HeldAll(u);
    AfterTaken(g, s, n, Receive(u, TrickOut(g, s, n)).0);
  }

  lemma AfterDeal(g: Game, s: Seat, v: View)
    requires |g.deal| == 4 && |g.deal[s]| == 13 && |g.tricks| == |g.takers| && v.seat == s && v.played == []
    ensures ReplayedTo(g, s, 0, ReceiveAll(v, Upto(g, s, 0)))
  {
    ReceiveLast(v, [], DealOut(g, s));
    ReceiveNone(v);
    assert g.tricks[..0] == [] && [] + [DealOut(g, s)] == [DealOut(g, s)];
  }

  lemma {:induction false} ToldAgrees(g: Game, s: Seat, n: nat, v: View)
    requires |g.deal| == 4 && |g.deal[s]| == 13 && n <= |g.tricks| == |g.takers| && forall t | t in g.tricks :: |t| == 4
    requires v.seat == s && v.played == []
    ensures ReplayedTo(g, s, n, ReceiveAll(v, Upto(g, s, n)))
  {
    hide ReplayedTo, ReceiveAll, Receive, TrickOut, TakenOut, Rounds, Leaders;
    if n == 0 {
      AfterDeal(g, s, v);
    } else {
      ToldAgrees(g, s, n - 1, v);
      var u, l := ReceiveAll(v, Upto(g, s, n - 1)), Upto(g, s, n - 1);
      TrickAndTaken(g, s, n - 1, u);
      var a, t := TrickOut(g, s, n - 1), TakenOut(g, n - 1);
      ReceiveLast(v, l, a);
      ReceiveLast(v, l + [a], t);
      assert l + [a] + [t] == Upto(g, s, n);
    }
  }

  /** The trick a client stands at once it has read its log. */
  function NextTrick(stage: Stage): int {
    match stage
    case Nothing => 1
    case Told(n) => n + 1
    case Asked(n) => n + 1
    case Whole => 14
  }

  lemma StageRead(g: Game, s: Seat, stage: Stage, v: View)
    requires FileOk(g.file) && Valid(g) && g.next > 0 && StageFits(g, stage) && !stage.Nothing?
    requires stage.Whole? ==> g.phase == Idle
    requires v.seat == s && v.played == []
    ensures var w := ReceiveAll(v, LogAt(g, s, stage));
            var n := NextTrick(stage) - 1;
            && w.trickNumber == n + 1 && 0 <= n <= |g.tricks| && w.taken == TakenBy(g, s, n)
            && Held(w) == multiset(g.deal[s]) - Pile(g.tricks[..n])
            && (stage.Whole? ==> w.gotScore && w.gotTotal)
  {
    hide FileOk, HandsConserved, PackConserved, Void, NoRevoke, Scored, StaleTable, ReceiveAll, Receive, Held, Pile, TakenBy, Upto, TrickOut;
    var n := NextTrick(stage) - 1;
    DealtHand(g, s);
    ToldAgrees(g, s, n, v);
    var l := Upto(g, s, n);
    var w := ReceiveAll(v, l);
    HeldAll(w);
    if stage.Asked? {
      ReceiveLast(v, l, TrickOut(g, s, n));
      AfterTrick(g, s, n, w);
    } else if stage.Whole? {
      var a, b := ScoreMsg(g.roundScores), TotalMsg(g.totalScores);
      ReceiveLast(v, l, a);
      ReceiveLast(v, l + [a], b);
      assert l + [a] + [b] == LogAt(g, s, stage);
      AfterScores(w, a, b);
    }
  }

  lemma AfterScores(w: View, a: ServerMessage, b: ServerMessage)
    requires a.ScoreMsg? && b.TotalMsg?
    ensures var r := Receive(Receive(w, a).0, b).0;
            r == w.(gotScore := true, gotTotal := true) && Held(r) == Held(w)
  {
  }

  /** A client of seat `s` that has nothing pending when a deal starts and reads all it was sent, WRONG and
      repeated TRICK included, stands at the trick it was told about last and counts as its own exactly the
      dealt hand less the tricks it was told about. */
  lemma ClientFollows(st: State, s: Seat, v: View)
    requires Reachable(st) && |st.threads| == 4 && Clean(st.threads[s].log) != []
    requires v.seat == s && v.played == []
    ensures |st.g.deal| == 4 && |st.g.tricks| == |st.g.takers|
    ensures var w := ReceiveAll(v, st.threads[s].log);
            var n := NextTrick(StageAt(st, s)) - 1;
            && w.trickNumber == n + 1 && 0 <= n <= |st.g.tricks| && w.taken == TakenBy(st.g, s, n)
            && Held(w) == multiset(st.g.deal[s]) - Pile(st.g.tricks[..n])
  {
    hide *;
    var g, log := st.g, st.threads[s].log;
    ReachableLog(st, s);
    LogNotEmpty(st, s, 0);
    OneDeal(st, s);
    CleanSuffices(v, log);
    IdleIfWhole(st, s);
    StageSaid(st, s);
    StageRead(g, s, StageAt(st, s), v);
    AlikeFacts(ReceiveAll(v, log), ReceiveAll(v, Clean(log)));
  }

  lemma AlikeFacts(v: View, w: View)
    requires Alike(v, w)
    ensures v.trickNumber == w.trickNumber && v.taken == w.taken && Held(v) == Held(w)
    ensures v.gotScore == w.gotScore && v.gotTotal == w.gotTotal
  {
  }

  /** DEAL comes first and only once. */
  lemma OneDeal(st: State, s: Seat)
    requires Reachable(st)
    ensures |st.threads| == 4
    ensures forall i | 0 < i < |Clean(st.threads[s].log)| :: !Clean(st.threads[s].log)[i].DealMsg?
  {
    LogIsStory(st, s);
    hide Reachable, Clean, TrickOut;
    var log := Clean(st.threads[s].log);
    forall i | 0 < i < |log| ensures !log[i].DealMsg? {
      assert log[i] == Entry(st.g, s, i);
      assert !Entry(st.g, s, i).DealMsg? by { EntryKinds(st.g, s, i); }
    }
  }

  lemma EntryKinds(g: Game, s: Seat, i: nat)
    requires |g.deal| == 4 && |g.tricks| == |g.takers| && 0 < i
    requires |Rounds(g)| <= |Leaders(g)|
    ensures !Entry(g, s, i).DealMsg?
  {
  }

  lemma IdleIfWhole(st: State, s: Seat)
    requires Typed(st) && MainOk(st.main, st.g) && |st.threads| == 4
    ensures StageAt(st, s).Whole? ==> st.g.phase == Idle
  {
    hide MainOk, Acted;
    ActedSent(st.main, st.threads[s], s);
    if StageAt(st, s).Whole? {
      WholeIsIdle(st.main, st.g, s, Acted(st.main, st.threads[s], s));
    }
  }

  /** A seat that was told anything of the deal has left the first stage. */
  lemma StageSaid(st: State, s: Seat)
    requires |st.threads| == 4 && StageFits(st.g, StageAt(st, s))
    requires Clean(st.threads[s].log) == LogAt(st.g, s, StageAt(st, s)) && Clean(st.threads[s].log) != []
    ensures !StageAt(st, s).Nothing?
    ensures |st.g.deal| == 4 && |st.g.tricks| == |st.g.takers|
  {
    hide Clean, StageAt;
  }

  /** After a deal every client has an empty hand, nothing pending, and the tricks it took. */
  lemma ClientFinishes(st: State, s: Seat, v: View)
    requires Reachable(st) && st.main.round == First && Unloaded(st.main.pc) && st.g.next > 0
    requires v.seat == s && v.played == []
    ensures |st.threads| == 4 && |st.g.tricks| == |st.g.takers| == 13
    ensures var w := ReceiveAll(v, st.threads[s].log);
            && w.trickNumber == 14 && w.my == [] && w.played == [] && w.taken == TakenBy(st.g, s, 13)
            && w.gotScore && w.gotTotal
  {
    assert NextTrick(Whole) == 14;
    hide *;
    TranscriptComplete(st, s);
    ReachableLog(st, s);
    OneDeal(st, s);
    ThreadsTyped(st);
    CleanSuffices(v, st.threads[s].log);
    FinishedHand(st.main, st.g, s);
    WholeLog(st.g, s);
    StageRead(st.g, s, Whole, v);
    AlikeFacts(ReceiveAll(v, st.threads[s].log), ReceiveAll(v, Clean(st.threads[s].log)));
    EmptyHeld(ReceiveAll(v, st.threads[s].log));
  }

  lemma FinishedHand(m: Main, g: Game, s: Seat)
    requires FileOk(g.file) && Valid(g) && MainOk(m, g) && m.round == First && Unloaded(m.pc) && g.next > 0
    ensures g.phase == Idle && StageFits(g, Whole) && g.tricks[..|g.tricks|] == g.tricks
    ensures multiset(g.deal[s]) - Pile(g.tricks) == multiset{}
  {
    hide *;
    IdleAndOver(m, g);
    AllOut(g);
    HandLeft(g, s);
    NonePending(g, s);
    WholeLog(g, s);
    assert g.tricks[..|g.tricks|] == g.tricks;
  }

  lemma NonePending(g: Game, s: Seat)
    requires g.phase == Idle
    ensures Pending(g, s) == []
  {
  }

  lemma IdleAndOver(m: Main, g: Game)
    requires Valid(g) && MainOk(m, g) && m.round == First && Unloaded(m.pc) && g.next > 0
    ensures g.phase == Idle && |g.tricks| == |g.takers| == 13 && |g.deal| == 4
  {
    hide HandsConserved, PackConserved, Void, NoRevoke, Scored;
  }

  lemma AllOut(g: Game)
    requires FileOk(g.file) && Valid(g) && g.next > 0 && |g.tricks| == 13 && g.phase == Idle
    ensures |g.hands| == 4 && forall s: Seat :: g.hands[s] == []
  {
    hide FileOk, Void, NoRevoke, HandsConserved, PackConserved, Scored, Counters, StaleTable;
    AllPlayed(g);
  }

  lemma EmptyHeld(v: View)
    requires Held(v) == multiset{}
    ensures v.my == [] && v.played == []
  {
    assert |Held(v)| == |v.my| + |v.played|;
  }
}
