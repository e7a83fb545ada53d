/** The concurrent server with four automatic clients, each of which answers every TRICK once: whatever the
    interleaving, every run comes to an end, and it ends with the whole game file played. */
module WholeGame {
  import opened Cards
  import opened GameModel
  import opened Client
  import opened Match
  import opened Protocol
  import opened Control
  import opened ControlSeat
  import ControlMain
  import opened Safety
  import opened Progress
  import opened Logs
  import opened LogSteps
  import opened Agreement
  import opened Players
  import opened Turns
  import Deferral

  // ---- The server and its clients ------------------------------------------------------------------------

  /** The state of the server, what each client was when the log of the running deal began, and how many of its
      replies of this deal have been read from its socket.  A reply is read at any time after its TRICK was sent;
      meanwhile the client is sent nothing else that matters to it. */
  datatype Hall = Hall(st: State, views: seq<View>, answered: seq<nat>)

  /** The replies of a client to the TRICKs of a log, in order; none where its hand was empty. */
  function Answers(v: View, log: seq<ServerMessage>): seq<Option<Input>> {
    if log == [] then []
    else
      var n := |log| - 1;
      var u := ReceiveAll(v, log[..n]);
      Answers(v, log[..n]) + if log[n].TrickMsg? && Accepts(u, log[n]) then [Reply(u, log[n])] else []
  }

  function Reply(u: View, m: ServerMessage): Option<Input> {
    match Receive(u, m).1
    case None => None
    case Some(c) => Some(Input(u.trickNumber, c))
  }

  predicate Sized4(h: Hall) {
    Typed(h.st) && |h.views| == |h.answered| == 4
  }

  /** No timeout occurs, and the thread of a seat reads from its client just the client's next reply. */
  predicate Plays(h: Hall, a: Action)
    requires Sized4(h)
  {
    && Enabled1(h.st, a)
    && (a.SeatStep? ==>
          && (a.choice.Go? || a.choice.FromClient?)
          && (a.choice.FromClient? ==>
                var replies := Answers(h.views[a.s], h.st.threads[a.s].log);
                h.answered[a.s] < |replies| && replies[h.answered[a.s]] == Some(a.choice.m)))
  }

  /** A step that reads the next deal and starts new logs. */
  predicate Loads(st: State, a: Action) {
    a.MainStep? && st.main.pc.NextDeal? && st.g.next < |st.g.file|
  }

  function After(h: Hall, a: Action): (r: Hall)
    requires Sized4(h) && Plays(h, a)
    ensures Sized4(r)
  {
    var st := Next(h.st, a);
    if Loads(h.st, a) then
      Hall(st, [ReceiveAll(h.views[0], h.st.threads[0].log), ReceiveAll(h.views[1], h.st.threads[1].log),
                ReceiveAll(h.views[2], h.st.threads[2].log), ReceiveAll(h.views[3], h.st.threads[3].log)], [0, 0, 0, 0])
    else if a.SeatStep? && a.choice.FromClient? then
      h.(st := st, answered := h.answered[a.s := h.answered[a.s] + 1])
    else h.(st := st)
  }

  /** The server at its start, and four clients that have received nothing. */
  ghost predicate Opening(h: Hall) {
    && Sized4(h) && Initial(h.st)
    && h.views == [NewView(0), NewView(1), NewView(2), NewView(3)] && h.answered == [0, 0, 0, 0]
  }

  predicate IsPlay(h: Hall, actions: seq<Action>)
    requires Sized4(h)
    decreases |actions|
  {
    actions == [] || (Plays(h, actions[0]) && IsPlay(After(h, actions[0]), actions[1..]))
  }

  function PlayOf(h: Hall, actions: seq<Action>): (r: Hall)
    requires Sized4(h) && IsPlay(h, actions)
    ensures Sized4(r)
    decreases |actions|
  {
    if actions == [] then h else PlayOf(After(h, actions[0]), actions[1..])
  }

  // ---- The invariant ----------------------------------------------------------------------------------------

  /** A reply is on its way, or yet to be given. */
  function Due(t: Thread): nat {
    if t.destined && !t.pc.Parse? && !t.pc.Notify? then 1 else 0
  }

  /** A seat and its client: no WRONG and no repetition was sent, nothing is put aside, and every reply but the one
      that is due has been read. */
  predicate SeatFine(t: Thread, v: View, k: nat, s: Seat) {
    && v.seat == s && v.played == []
    && Clean(t.log) == t.log && t.deferred == [] && !t.pc.Repeat?
    && k + Due(t) == |Answers(v, t.log)|
    && (t.pc.Parse? ==> t.destined && k > 0 && Answers(v, t.log)[k - 1] == Some(t.pc.m))
  }

  ghost predicate HallOk(h: Hall) {
    && Sized4(h) && Reachable(h.st)
    && forall s: Seat :: SeatFine(h.st.threads[s], h.views[s], h.answered[s], s)
  }

  lemma FineAt(h: Hall, s: Seat)
    requires HallOk(h)
    ensures Sized4(h) && Reachable(h.st) && Typed(h.st) && |h.st.threads| == |h.views| == |h.answered| == 4
    ensures SeatFine(h.st.threads[s], h.views[s], h.answered[s], s)
  {
    hide Reachable, SeatFine;
  }

  lemma AnswersLast(v: View, log: seq<ServerMessage>, m: ServerMessage)
    ensures Answers(v, log + [m]) == Answers(v, log)
            + if m.TrickMsg? && Accepts(ReceiveAll(v, log), m) then [Reply(ReceiveAll(v, log), m)] else []
  {
    assert (log + [m])[..|log|] == log;
  }

  /** A seat that is asked has been told of its turn last, and its client's reply to that is one the server takes. */
  lemma DueAnswer(st: State, s: Seat, v: View)
    requires Reachable(st) && Typed(st) && st.threads[s].destined && !st.threads[s].pc.Notify?
    requires v.seat == s && v.played == [] && Clean(st.threads[s].log) == st.threads[s].log
    ensures var t := st.threads[s];
            && t.log != [] && t.log[|t.log| - 1] == Asking(st.g)
            && var replies := Answers(v, t.log);
               && |replies| == |Answers(v, t.log[..|t.log| - 1])| + 1
               && replies[|replies| - 1].Some? && Takes(st.g, s, t, replies[|replies| - 1].value)
  {
    var g, log := st.g, st.threads[s].log;
    hide *;
    ToldInTurn(st, s);
    ThreadsTyped(st);
    HandsOfTable(st);
    var told, m := Upto(g, s, |g.tricks|), Asking(g);
    var i, c := ClientAnswers(st, s, v);
    IsTrick(g);
    NoEarlierTrick(g, s, |g.tricks|, m);
    assert log == told + [m];
    OnlyAtEnd(told, m, i);
    assert log[..i] == told;
    OnlyReply(v, told, m, c);
    ReplyTaken(st, s, c);
  }

  lemma OnlyAtEnd(told: seq<ServerMessage>, m: ServerMessage, i: nat)
    requires m !in told && i <= |told| && (told + [m])[i] == m
    ensures i == |told|
  {
  }

  lemma OnlyReply(v: View, told: seq<ServerMessage>, m: ServerMessage, c: Card)
    requires m.TrickMsg? && Receive(ReceiveAll(v, told), m).1 == Some(c)
    ensures Answers(v, told + [m]) == Answers(v, told) + [Some(Input(m.number, c))]
  {
    AnswersLast(v, told, m);
    hide ReceiveAll, Answers, Answer;
  }

  lemma ReplyTaken(st: State, s: Seat, c: Card)
    requires Typed(st) && |st.g.hands| == 4 && st.threads[s].destined && st.threads[s].current == st.g.trickNumber
    requires Legal(st.g.hands[s], st.g.table, c)
    ensures Takes(st.g, s, st.threads[s], Input(Asking(st.g).number, c))
  {
    hide Legal;
  }

  // ---- Steps of a seat thread ----------------------------------------------------------------------------------

  /** Steps that neither read a message nor act on a token nor parse. */
  lemma QuietThread(g: Game, ongoing: bool, occupied: int, s: Seat, t: Thread)
    requires |g.hands| == 4 && ThreadEnabled(t, Go) && !t.pc.Handle? && !t.pc.Parse? && !t.pc.Repeat? && t.deferred == []
    ensures var u := ThreadNext(g, ongoing, occupied, s, t, Go);
            && u.log == t.log && u.deferred == [] && !u.pc.Repeat? && !u.pc.Parse? && !u.pc.Notify?
            && u.destined == (t.destined && !t.pc.Notify?)
  {
  }

  lemma QuietFine(g: Game, ongoing: bool, occupied: int, s: Seat, t: Thread, v: View, k: nat)
    requires |g.hands| == 4 && ThreadEnabled(t, Go) && !t.pc.Handle? && !t.pc.Parse?
    requires SeatFine(t, v, k, s)
    ensures SeatFine(ThreadNext(g, ongoing, occupied, s, t, Go), v, k, s)
  {
    QuietThread(g, ongoing, occupied, s, t);
    hide ThreadNext, Answers, Clean;
  }

  /** The reply is read while the thread is asked, so it is parsed at once. */
  lemma ReadFine(st: State, s: Seat, v: View, k: nat, m: Input)
    requires Reachable(st) && Typed(st) && ThreadEnabled(st.threads[s], FromClient(m)) && SeatFine(st.threads[s], v, k, s)
    requires k < |Answers(v, st.threads[s].log)| && Answers(v, st.threads[s].log)[k] == Some(m)
    ensures SeatFine(ThreadNext(st.g, st.ongoing, st.occupied, s, st.threads[s], FromClient(m)), v, k + 1, s)
    ensures ThreadNext(st.g, st.ongoing, st.occupied, s, st.threads[s], FromClient(m)).pc.Parse?
    ensures !st.threads[s].pc.Parse?
  {
    var t := st.threads[s];
    assert Due(t) == 1 && t.pc.Poll?;
    hide Answers, Clean;
    AskedIsFree(st, s);
  }

  /** The reply in hand is accepted. */
  lemma ParseFine(st: State, s: Seat, v: View, k: nat)
    requires Reachable(st) && Typed(st) && st.threads[s].pc.Parse? && SeatFine(st.threads[s], v, k, s)
    ensures TakesCard(st.g, s, st.threads[s])
    ensures SeatFine(ThreadNext(st.g, st.ongoing, st.occupied, s, st.threads[s], Go), v, k, s)
  {
    hide Reachable, Answers, Clean, Takes;
    DueAnswer(st, s, v);
  }

  /** A token acted upon changes the log by what `HandleWrites` says. */
  lemma NewsFine(t: Thread, u: Thread, v: View, k: nat, s: Seat, m: ServerMessage)
    requires SeatFine(t, v, k, s) && t.pc.Handle? && !m.TrickMsg? && !m.WrongMsg?
    requires u.log == t.log + [m] && u.deferred == [] && u.destined == t.destined
    requires !u.pc.Repeat? && !u.pc.Parse? && !u.pc.Notify?
    ensures SeatFine(u, v, k, s)
  {
    AnswersLast(v, t.log, m);
    CleanPush(t.log, m);
    hide Answers, Clean;
    assert Answers(v, t.log) + [] == Answers(v, t.log);
  }

  lemma SilentFine(t: Thread, u: Thread, v: View, k: nat, s: Seat)
    requires SeatFine(t, v, k, s) && t.pc.Handle?
    requires u.log == t.log && u.deferred == [] && u.destined == t.destined
    requires !u.pc.Repeat? && !u.pc.Parse? && !u.pc.Notify?
    ensures SeatFine(u, v, k, s)
  {
    hide Answers, Clean;
  }

  lemma HandleShape(g: Game, ongoing: bool, occupied: int, t: Thread, s: Seat)
    requires |g.hands| == 4 && t.pc.Handle?
    ensures var u := ThreadNext(g, ongoing, occupied, s, t, Go);
            && u.deferred == t.deferred && (u.pc.Top? || u.pc.DrainEnd? || u.pc.Wake?)
            && u.destined == (t.destined || t.pc.token == CardPlay)
  {
  }

  lemma TokenFine(st: State, s: Seat, v: View, k: nat)
    requires Typed(st) && st.threads[s].pc.Handle? && st.threads[s].pc.token != CardPlay
    requires SeatFine(st.threads[s], v, k, s)
    ensures SeatFine(ThreadNext(st.g, st.ongoing, st.occupied, s, st.threads[s], Go), v, k, s)
  {
    var g, t := st.g, st.threads[s];
    var u := ThreadNext(g, st.ongoing, st.occupied, s, t, Go);
    HandleShape(g, st.ongoing, st.occupied, t, s);
    HandleWrites(g, st.ongoing, st.occupied, t, s);
    FineDeferred(t, v, k, s);
    hide ThreadNext, SeatFine;
    if t.pc.token == DealToken {
      NewsFine(t, u, v, k, s, DealMsg(g.kind, g.lastTaker, g.hands[s]));
    } else if t.pc.token == TakenToken {
      NewsFine(t, u, v, k, s, TakenMsg(t.current, g.table, g.lastTaker));
    } else if t.pc.token == ScoresToken {
      var a, b := ScoreMsg(g.roundScores), TotalMsg(g.totalScores);
      var t1 := t.(log := t.log + [a]);
      NewsFine(t, t1, v, k, s, a);
      assert u.log == t1.log + [b];
      NewsFine(t1, u, v, k, s, b);
    } else {
      assert t.log + [] == t.log;
      SilentFine(t, u, v, k, s);
    }
  }

  lemma FineDeferred(t: Thread, v: View, k: nat, s: Seat)
    requires SeatFine(t, v, k, s)
    ensures t.deferred == []
  {
    hide Clean, Answers;
  }

  /** A seat that is about to be asked was told of no open trick last. */
  lemma UntoldYet(st: State, s: Seat)
    requires Reachable(st) && Typed(st) && st.threads[s].pc == Handle(CardPlay)
    ensures var clean := Clean(st.threads[s].log); clean != [] && !clean[|clean| - 1].TrickMsg?
    ensures !st.threads[s].destined
  {
    ReachableInv(st);
    ReachableLog(st, s);
    hide Reachable, Inv, Valid, FileOk, Clean, LogAt;
    PlayReads(st, s);
    PartsOf(st);
    ThreadOf(st, s);
    ToldStage(st, s);
    NotYetDestined(st.main, st.g, st.threads[s], s);
    hide MainOk, ThreadOk, StageAt;
    ToldLog(st.g, s, st.main.trick);
  }

  lemma ToldStage(st: State, s: Seat)
    requires Typed(st) && Awaited(st.main, s) && InTrick(st.main)
    requires Acted(st.main, st.threads[s], s) == PlayAt(st.main.round)
    ensures StageAt(st, s) == Told(st.main.trick)
  {
    hide Acted;
  }

  lemma NotYetDestined(m: Main, g: Game, t: Thread, s: Seat)
    requires MainOk(m, g) && ThreadOk(m, g, t, s) && Acted(m, t, s) == PlayAt(m.round)
    ensures !t.destined
  {
    hide MainOk, ThreadOk, Acted;
    if t.destined {
      Destined(m, g, t, s);
    }
  }

  lemma ToldLog(g: Game, s: Seat, n: nat)
    requires StageFits(g, Told(n))
    ensures var l := LogAt(g, s, Told(n)); l != [] && !l[|l| - 1].TrickMsg?
  {
    UptoEnds(g, s, n);
    hide Upto;
  }

  /** Being asked makes one reply due. */
  lemma AskFine(st: State, s: Seat, v: View, k: nat)
    requires Reachable(st) && Typed(st) && st.threads[s].pc == Handle(CardPlay) && SeatFine(st.threads[s], v, k, s)
    ensures SeatFine(ThreadNext(st.g, st.ongoing, st.occupied, s, st.threads[s], Go), v, k, s)
  {
    var t, a := st.threads[s], SeatStep(s, Go);
    var u := ThreadNext(st.g, st.ongoing, st.occupied, s, t, Go);
    var st' := Next(st, a);
    hide *;
    AskedNext(st, s);
    UntoldYet(st, s);
    ReachableNext(st, a);
    AskedClean(t, u, v, k, s, Asking(st.g));
    DueAnswer(st', s, v);
    AskedFine(t, u, v, k, s, Asking(st.g));
  }

  /** Being asked changes the thread as `client_poll` says. */
  lemma AskedNext(st: State, s: Seat)
    requires Typed(st) && st.threads[s].pc == Handle(CardPlay)
    ensures var t, st' := st.threads[s], Next(st, SeatStep(s, Go));
            && Enabled1(st, SeatStep(s, Go)) && Typed(st') && |st'.threads| == 4 && Asking(st'.g) == Asking(st.g)
            && st'.threads[s] == ThreadNext(st.g, st.ongoing, st.occupied, s, t, Go)
                == t.(current := st.g.trickNumber, destined := true, log := t.log + [Asking(st.g)], pc := Top)
  {
    NextThread(st, s, Go);
    hide SeatNext;
  }

  lemma AskedClean(t: Thread, u: Thread, v: View, k: nat, s: Seat, m: ServerMessage)
    requires SeatFine(t, v, k, s) && m.TrickMsg? && u.log == t.log + [m]
    requires var clean := Clean(t.log); clean != [] && !clean[|clean| - 1].TrickMsg?
    ensures Clean(u.log) == u.log && u.log[..|u.log| - 1] == t.log && v.seat == s && v.played == []
  {
    CleanPush(t.log, m);
    hide Clean, Answers;
  }

  lemma AskedFine(t: Thread, u: Thread, v: View, k: nat, s: Seat, m: ServerMessage)
    requires SeatFine(t, v, k, s) && t.pc == Handle(CardPlay) && !t.destined
    requires u == t.(current := u.current, destined := true, log := t.log + [m], pc := Top)
    requires Clean(u.log) == u.log && |Answers(v, u.log)| == |Answers(v, t.log)| + 1
    ensures SeatFine(u, v, k, s)
  {
    hide Clean, Answers;
  }

  /** Whatever the thread of seat `s` does, its seat stays fine. */
  lemma SelfFine(st: State, s: Seat, choice: Choice, v: View, k: nat)
    requires Reachable(st) && Typed(st) && ThreadEnabled(st.threads[s], choice) && SeatFine(st.threads[s], v, k, s)
    requires choice.Go? || (choice.FromClient? && k < |Answers(v, st.threads[s].log)|
                            && Answers(v, st.threads[s].log)[k] == Some(choice.m))
    ensures SeatFine(ThreadNext(st.g, st.ongoing, st.occupied, s, st.threads[s], choice), v,
                     if choice.Go? then k else k + 1, s)
  {
    var t := st.threads[s];
    hide Reachable, SeatFine, ThreadNext, Answers, ThreadEnabled;
    if choice.FromClient? {
      ReadFine(st, s, v, k, choice.m);
    } else if t.pc.Parse? {
      ParseFine(st, s, v, k);
    } else if t.pc == Handle(CardPlay) {
      AskFine(st, s, v, k);
    } else if t.pc.Handle? {
      TokenFine(st, s, v, k);
    } else {
      HandsOfTable(st);
      QuietFine(st.g, st.ongoing, st.occupied, s, t, v, k);
    }
  }

  lemma SeatStepFine(h: Hall, s: Seat, choice: Choice, u: Seat)
    requires HallOk(h) && Plays(h, SeatStep(s, choice))
    ensures var r := After(h, SeatStep(s, choice)); SeatFine(r.st.threads[u], r.views[u], r.answered[u], u)
  {
    hide HallOk, SeatFine, Answers;
    FineAt(h, s);
    FineAt(h, u);
    NextThread(h.st, s, choice);
    SelfFine(h.st, s, choice, h.views[s], h.answered[s]);
    hide ThreadNext, SeatNext, Reachable;
  }

  // ---- Steps of the main thread ----------------------------------------------------------------------------------

  lemma KeptFine(t: Thread, u: Thread, v: View, k: nat, s: Seat)
    requires SeatFine(t, v, k, s) && u == t.(inbox := u.inbox, outbox := u.outbox)
    ensures SeatFine(u, v, k, s)
  {
    hide Answers, Clean;
  }

  lemma MainStepFine(h: Hall, from: Seat, u: Seat)
    requires HallOk(h) && Plays(h, MainStep(from)) && !Loads(h.st, MainStep(from))
    ensures var r := After(h, MainStep(from)); SeatFine(r.st.threads[u], r.views[u], r.answered[u], u)
  {
    hide HallOk, SeatFine, MainNext;
    FineAt(h, u);
    Deferral.MainLeavesMessages(h.st, from, u);
    MainKeepsLog(h.st, from, u);
    KeptFine(h.st.threads[u], MainNext(h.st, from).threads[u], h.views[u], h.answered[u], u);
  }

  lemma {:induction false} SeatKept(v: View, log: seq<ServerMessage>)
    ensures ReceiveAll(v, log).seat == v.seat
  {
    if log != [] { SeatKept(v, log[..|log| - 1]); }
  }

  /** When the next deal is read, no client has anything pending, and no seat is asked. */
  lemma BetweenDeals(st: State, s: Seat, v: View, k: nat)
    requires Reachable(st) && Typed(st) && st.main.pc.NextDeal? && SeatFine(st.threads[s], v, k, s)
    ensures !st.threads[s].destined
    ensures var w := ReceiveAll(v, st.threads[s].log); w.played == [] && w.seat == s
  {
    ReachableInv(st);
    hide Reachable, Inv, Answers, Clean, ReceiveAll;
    PartsOf(st);
    ThreadOf(st, s);
    LoadPlace(st.main, st.g, st.threads[s], s);
    SeatKept(v, st.threads[s].log);
    hide MainOk, ThreadOk;
    if st.g.next > 0 {
      ClientFinishes(st, s, v);
    } else {
      NothingTold(st, s);
      ReceiveNone(v);
    }
  }

  lemma LoadPlace(m: Main, g: Game, t: Thread, s: Seat)
    requires MainOk(m, g) && ThreadOk(m, g, t, s) && m.pc.NextDeal?
    ensures m.round == First && Unloaded(m.pc) && !t.destined
  {
    hide InOrder;
  }

  lemma NothingTold(st: State, s: Seat)
    requires Reachable(st) && Typed(st) && st.g.next == 0
    ensures Clean(st.threads[s].log) == []
  {
    hide Reachable, Clean;
    if Clean(st.threads[s].log) != [] {
      LogNotEmpty(st, s, 0);
    }
  }

  lemma NewDealFine(h: Hall, from: Seat, u: Seat)
    requires HallOk(h) && Plays(h, MainStep(from)) && Loads(h.st, MainStep(from))
    ensures var r := After(h, MainStep(from)); SeatFine(r.st.threads[u], r.views[u], r.answered[u], u)
  {
    hide HallOk, MainNext, Reachable, ReceiveAll;
    FineAt(h, u);
    Deferral.MainLeavesMessages(h.st, from, u);
    MainKeepsLog(h.st, from, u);
    BetweenDeals(h.st, u, h.views[u], h.answered[u]);
    var t, w := MainNext(h.st, from).threads[u], ReceiveAll(h.views[u], h.st.threads[u].log);
    assert SeatFine(t, w, 0, u);
    hide SeatFine;
  }

  lemma AfterOk(h: Hall, a: Action)
    requires HallOk(h) && Plays(h, a)
    ensures HallOk(After(h, a))
  {
    FineAt(h, 0);
    ReachableNext(h.st, a);
    var r := After(h, a);
    assert r.st == Next(h.st, a);
    forall u: Seat ensures SeatFine(r.st.threads[u], r.views[u], r.answered[u], u) {
      if a.SeatStep? {
        SeatStepFine(h, a.s, a.choice, u);
      } else if Loads(h.st, a) {
        NewDealFine(h, a.from, u);
      } else {
        MainStepFine(h, a.from, u);
      }
    }
    hide SeatFine, After, Plays, Reachable, Next;
  }

  lemma OpeningOk(h: Hall)
    requires Opening(h)
    ensures HallOk(h)
  {
    assert IsRun(h.st, []) && RunOf(h.st, []) == h.st;
    forall s: Seat ensures SeatFine(h.st.threads[s], h.views[s], h.answered[s], s) {
      assert Idling(h.st.threads[s]);
    }
    hide SeatFine, Initial;
  }

  // ---- How many replies there are ---------------------------------------------------------------------------------

  lemma MovePlays(g: Game, m: Move)
    requires Enabled(g, m)
    ensures PlaysLeft(Apply(g, m)) == PlaysLeft(g) - if m.Play? then 1 else 0
  {
    hide Legal;
  }

  function Parsing(st: State): nat
    requires |st.threads| == 4
  {
    Count(st.threads[0].pc.Parse?, st.threads[1].pc.Parse?, st.threads[2].pc.Parse?, st.threads[3].pc.Parse?)
  }

  /** Cards to be played for which no reply has been read. */
  function Unread(h: Hall): int
    requires Sized4(h)
  {
    PlaysLeft(h.st.g) - Parsing(h.st)
  }

  lemma GamePlays(st: State, a: Action)
    requires Reachable(st) && Typed(st) && Enabled1(st, a)
    ensures PlaysLeft(Next(st, a).g)
            == PlaysLeft(st.g) - if a.SeatStep? && TakesCard(st.g, a.s, st.threads[a.s]) then 1 else 0
  {
    hide *;
    ReachableInv(st);
    StepRefines(st, a);
    PlayMoves(st, a);
    if StepMove(st, a).Some? {
      MovePlays(st.g, StepMove(st, a).value);
    }
  }

  /** The move in a step is a play just when the step takes up a card. */
  lemma PlayMoves(st: State, a: Action)
    requires Typed(st)
    ensures |st.g.hands| == |st.threads| == 4
    ensures a.SeatStep? && TakesCard(st.g, a.s, st.threads[a.s]) <==> StepMove(st, a).Some? && StepMove(st, a).value.Play?
  {
    hide Takes;
  }

  /** A thread takes up a message only when it reads one, and gives it up only by playing. */
  lemma SelfParsing(st: State, s: Seat, choice: Choice, v: View, k: nat)
    requires Reachable(st) && Typed(st) && ThreadEnabled(st.threads[s], choice) && SeatFine(st.threads[s], v, k, s)
    requires choice.Go? || (choice.FromClient? && k < |Answers(v, st.threads[s].log)|
                            && Answers(v, st.threads[s].log)[k] == Some(choice.m))
    ensures ThreadNext(st.g, st.ongoing, st.occupied, s, st.threads[s], choice).pc.Parse? <==> choice.FromClient?
    ensures TakesCard(st.g, s, st.threads[s]) <==> st.threads[s].pc.Parse?
    ensures choice.FromClient? ==> !st.threads[s].pc.Parse?
  {
    var t := st.threads[s];
    if choice.FromClient? {
      ReadFine(st, s, v, k, choice.m);
    } else if t.pc.Parse? {
      ParseFine(st, s, v, k);
      AfterParse(st.g, st.ongoing, st.occupied, s, t);
    } else if t.pc.Handle? {
      HandleShape(st.g, st.ongoing, st.occupied, t, s);
    } else {
      QuietThread(st.g, st.ongoing, st.occupied, s, t);
    }
    hide ThreadNext, Reachable, SeatFine, Takes, Answers;
  }

  lemma AfterParse(g: Game, ongoing: bool, occupied: int, s: Seat, t: Thread)
    requires |g.hands| == 4 && t.pc.Parse? && TakesCard(g, s, t)
    ensures !ThreadNext(g, ongoing, occupied, s, t, Go).pc.Parse?
  {
    hide Takes;
  }

  lemma ParsingStep(st: State, r: State, s: Seat)
    requires |st.threads| == |r.threads| == 4 && forall u: Seat | u != s :: r.threads[u].pc == st.threads[u].pc
    ensures Parsing(r) == Parsing(st) - (if st.threads[s].pc.Parse? then 1 else 0) + (if r.threads[s].pc.Parse? then 1 else 0)
  {
  }

  /** Every reply that is read, and nothing else, brings the number of unread replies down by one. */
  lemma UnreadStep(h: Hall, a: Action)
    requires HallOk(h) && Plays(h, a)
    ensures Unread(After(h, a)) == Unread(h) - if External(a) then 1 else 0
  {
    FineAt(h, 0);
    var st, r := h.st, Next(h.st, a);
    assert After(h, a).st == r;
    GamePlays(st, a);
    if a.SeatStep? {
      FineAt(h, a.s);
      hide HallOk, Reachable, SeatFine, PlaysLeft, Takes;
      SelfParsing(st, a.s, a.choice, h.views[a.s], h.answered[a.s]);
      NextThread(st, a.s, a.choice);
      hide ThreadNext, SeatNext, After;
      ParsingStep(st, r, a.s);
    } else {
      hide HallOk, Reachable, PlaysLeft, MainNext;
      forall u: Seat ensures r.threads[u].pc == st.threads[u].pc {
        Deferral.MainLeavesMessages(st, a.from, u);
      }
      ParsingStep(st, r, 0);
    }
  }

  lemma OneParsing(st: State)
    requires |st.threads| == 4 && forall s: Seat, u: Seat | st.threads[s].pc.Parse? && st.threads[u].pc.Parse? :: s == u
    ensures Parsing(st) <= 1
    ensures Parsing(st) > 0 ==> exists s: Seat :: st.threads[s].pc.Parse?
  {
    if !(exists s: Seat :: st.threads[s].pc.Parse?) {
      assert !st.threads[0].pc.Parse? && !st.threads[1].pc.Parse? && !st.threads[2].pc.Parse? && !st.threads[3].pc.Parse?;
    }
  }

  /** Only the seat in turn parses a reply. */
  lemma ParsingInTurn(h: Hall, s: Seat)
    requires HallOk(h) && h.st.threads[s].pc.Parse?
    ensures h.st.main.pc.AwaitCard? && s == Place(h.st.main.beginning, h.st.main.pc.i)
    ensures h.st.g.phase == Trick && |h.st.g.table| < 4
  {
    FineAt(h, s);
    hide HallOk, Reachable, Answers, Clean;
    TurnsInOrder(h.st, s, 0);
    ToldInTurn(h.st, s);
  }

  lemma EnoughUnread(h: Hall)
    requires HallOk(h)
    ensures Sized4(h) && Unread(h) >= 0
  {
    FineAt(h, 0);
    ReachableInv(h.st);
    PlaysNotNegative(h.st);
    forall s: Seat, u: Seat | h.st.threads[s].pc.Parse? && h.st.threads[u].pc.Parse? ensures s == u {
      ParsingInTurn(h, s);
      ParsingInTurn(h, u);
    }
    OneParsing(h.st);
    if s: Seat :| h.st.threads[s].pc.Parse? {
      ParsingInTurn(h, s);
    }
    hide HallOk, Reachable, Inv, PlaysLeft, Parsing;
  }

  lemma PlaysNotNegative(st: State)
    requires Inv(st)
    ensures PlaysLeft(st.g) >= 0
    ensures st.g.phase == Trick && |st.g.table| < 4 ==> PlaysLeft(st.g) > 0
  {
    hide Inv;
    ControlMain.CountersOf(st);
  }

  // ---- Whole runs -----------------------------------------------------------------------------------------------------

  /** A run of the hall is a run of the protocol; the replies read in it are those that are no longer unread. */
  lemma {:induction false} PlayRuns(h: Hall, actions: seq<Action>)
    requires HallOk(h) && IsPlay(h, actions)
    ensures HallOk(PlayOf(h, actions))
    ensures IsRun(h.st, actions) && RunOf(h.st, actions) == PlayOf(h, actions).st
    ensures Externals(actions) == Unread(h) - Unread(PlayOf(h, actions))
    decreases |actions|
  {
    FineAt(h, 0);
    hide HallOk, Reachable;
    if actions != [] {
      var a := actions[0];
      AfterOk(h, a);
      UnreadStep(h, a);
      PlayRuns(After(h, a), actions[1..]);
      assert After(h, a).st == Next(h.st, a) && Enabled1(h.st, a);
      hide After, Plays, Next, Unread, Enabled1;
    }
  }

  /** The file is played out. */
  predicate Over(g: Game) {
    && g.phase == Idle && g.next == |g.file|
    && |g.totalScores| == 4 && Sum(g.totalScores) == FileTotal(g.file, |g.file|)
  }

  lemma FinishedIsOver(st: State)
    requires Inv(st) && st.main.pc.Finished?
    ensures Over(st.g) && PlaysLeft(st.g) == 0
  {
    hide *;
    PartsOf(st);
    FinishedPlace(st.main, st.g);
    OverGame(st.g);
  }

  lemma FinishedPlace(m: Main, g: Game)
    requires MainOk(m, g) && m.pc.Finished?
    ensures g.phase == Idle && g.next == |g.file|
  {
  }

  lemma OverGame(g: Game)
    requires Valid(g) && g.phase == Idle && g.next == |g.file|
    ensures Over(g) && PlaysLeft(g) == 0
  {
    hide HandsConserved, PackConserved, Void, NoRevoke, Counters, StaleTable;
  }

  lemma ReplyReadable(h: Hall, s: Seat)
    requires HallOk(h) && WaitsForClient(h.st, s)
    ensures exists a :: Plays(h, a)
  {
    hide HallOk, Reachable, Answers, Clean, Takes;
    FineAt(h, s);
    InTurn(h.st, s);
    RestsAt(h.st, s);
    hide WaitsForClient;
    DueAnswer(h.st, s, h.views[s]);
    var replies := Answers(h.views[s], h.st.threads[s].log);
    var a := SeatStep(s, FromClient(replies[|replies| - 1].value));
    assert Plays(h, a);
  }

  lemma RestsAt(st: State, s: Seat)
    requires Typed(st) && WaitsForClient(st, s)
    ensures st.threads[s].pc.Poll?
  {
    assert Resting(st.threads[s]);
  }

  /** Nothing is ever stuck: while the file is not played out, some thread can step or read a reply. */
  lemma GoesOn(h: Hall)
    requires HallOk(h)
    ensures Sized4(h) && (h.st.main.pc.Finished? || exists a :: Plays(h, a))
  {
    FineAt(h, 0);
    hide HallOk, Reachable;
    NeverStuck(h.st);
    if s: Seat :| WaitsForClient(h.st, s) {
      ReplyReadable(h, s);
    } else if a: Action :| Internal(a) && Enabled1(h.st, a) {
      assert Plays(h, a);
    }
  }

  lemma OpeningUnread(h: Hall)
    requires Opening(h)
    ensures Unread(h) == 52 * |h.st.g.file|
  {
    hide FileOk;
    assert forall s: Seat :: Idling(h.st.threads[s]);
    assert Idling(h.st.threads[0]) && Idling(h.st.threads[1]) && Idling(h.st.threads[2]) && Idling(h.st.threads[3]);
  }

  /** Four automatic clients at the concurrent server, with any interleaving and any delays but no timeout: a run has at
      most a fixed number of steps, whatever it is, and it can always go on until the whole file is played, all deals
      scored, and 52 replies a deal read, of which none was refused. */
  lemma FilePlayedOut(h0: Hall, actions: seq<Action>)
    requires Opening(h0) && IsPlay(h0, actions)
    ensures var h := PlayOf(h0, actions);
            var n := |h0.st.g.file|;
            && |actions| <= 10968 * n + 1058
            && (h.st.main.pc.Finished? || exists a :: Plays(h, a))
            && (h.st.main.pc.Finished? ==> Over(h.st.g) && h.st.g.file == h0.st.g.file && Externals(actions) == 52 * n)
            && forall s: Seat, m | m in h.st.threads[s].log :: !m.WrongMsg?
  {
    hide Opening, HallOk, Reachable, Unread, Initial, IsPlay, PlayOf, IsRun, RunOf, Over, Plays, Externals;
    OpeningStart(h0);
    PlayBounded(h0, actions);
    var h := PlayOf(h0, actions);
    GoesOn(h);
    forall s: Seat, m | m in h.st.threads[s].log ensures !m.WrongMsg? { NoWrong(h, s, m); }
    if h.st.main.pc.Finished? {
      FineAt(h, 0);
      ReachableInv(h.st);
      FinishedIsOver(h.st);
      NoneParsing(h);
      SameFile(h0.st, actions);
    }
  }

  lemma PlayBounded(h0: Hall, actions: seq<Action>)
    requires Opening(h0) && IsPlay(h0, actions)
    ensures var h := PlayOf(h0, actions);
            && HallOk(h) && IsRun(h0.st, actions) && RunOf(h0.st, actions) == h.st
            && Externals(actions) == 52 * |h0.st.g.file| - Unread(h)
            && |actions| <= 10968 * |h0.st.g.file| + 1058
  {
    hide HallOk, Opening, Reachable, Unread, IsPlay, PlayOf, IsRun, RunOf, Externals;
    OpeningStart(h0);
    OpeningOk(h0);
    PlayRuns(h0, actions);
    OpeningUnread(h0);
    EnoughUnread(PlayOf(h0, actions));
    StepsBounded(h0.st, actions);
  }

  /** There is such a start for every well-formed file. */
  lemma OpeningExists(file: seq<Deal>) returns (h: Hall)
    requires FileOk(file)
    ensures Opening(h) && h.st.g.file == file
  {
    var st := StartExists(file);
    hide Initial, FileOk, Typed;
    h := Hall(st, [NewView(0), NewView(1), NewView(2), NewView(3)], [0, 0, 0, 0]);
  }

  lemma OpeningStart(h: Hall)
    requires Opening(h)
    ensures Sized4(h) && Typed(h.st) && Initial(h.st)
  {
  }

  lemma NoWrong(h: Hall, s: Seat, m: ServerMessage)
    requires HallOk(h) && |h.st.threads| == 4 && m in h.st.threads[s].log
    ensures !m.WrongMsg?
  {
    FineAt(h, s);
    hide HallOk, Answers;
    CleanHasNoWrong(h.st.threads[s].log);
  }

  lemma {:induction false} CleanHasNoWrong(log: seq<ServerMessage>)
    ensures forall m | m in Clean(log) :: !m.WrongMsg?
  {
    if log != [] { CleanHasNoWrong(log[..|log| - 1]); }
  }

  lemma NoneParsing(h: Hall)
    requires HallOk(h) && h.st.main.pc.Finished?
    ensures Sized4(h) && Unread(h) == PlaysLeft(h.st.g)
  {
    FineAt(h, 0);
    forall s: Seat ensures !h.st.threads[s].pc.Parse? {
      if h.st.threads[s].pc.Parse? { ParsingInTurn(h, s); }
    }
    hide HallOk, PlaysLeft, Reachable;
  }

  lemma {:induction false} SameFile(st: State, actions: seq<Action>)
    requires Typed(st) && IsRun(st, actions)
    ensures RunOf(st, actions).g.file == st.g.file
    decreases |actions|
  {
    if actions != [] {
      FileStays(st, actions[0]);
      hide Next, Enabled1;
      SameFile(Next(st, actions[0]), actions[1..]);
    }
  }

  lemma FileStays(st: State, a: Action)
    requires Typed(st) && Enabled1(st, a)
    ensures Next(st, a).g.file == st.g.file
  {
    hide Takes;
  }
}
