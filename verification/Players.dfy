/** Automatic clients at the concurrent server: whatever came before, the first time a client is asked for a card of a
    trick it answers with a legal one; and how often it can be asked before its answer breaks the grammar. */
module Players {
  import opened Cards
  import opened GameModel
  import opened Client
  import opened Match
  import opened Protocol
  import opened Control
  import opened ControlSeat
  import opened Safety
  import opened Logs
  import opened Agreement
  import opened Text
  import opened Messages
  import opened Codec
  import opened Acceptance
  import opened Wire
  import Delivery

  // ---- The first copy of a TRICK ---------------------------------------------------------------------------

  /** Where a log whose clean form ends in TRICK first has it; from there on it holds copies of it and WRONG only. */
  lemma FirstCopy(log: seq<ServerMessage>, told: seq<ServerMessage>, m: ServerMessage) returns (i: nat)
    requires m.TrickMsg? && Clean(log) == told + [m]
    ensures i < |log| && log[i] == m && Clean(log[..i]) == told
    ensures forall j | i < j < |log| :: log[j] == m || log[j].WrongMsg?
  {
    var n := |log| - 1;
    var front := Clean(log[..n]);
    assert Clean(log) == Push(front, log[n]);
    if Push(front, log[n]) == front {
      i := FirstCopy(log[..n], told, m);
      assert log[..n][..i] == log[..i];
      forall j | i < j < |log| ensures log[j] == m || log[j].WrongMsg? {
        if j < n { assert log[j] == log[..n][j]; }
      }
    } else {
      i := n;
      assert front == (front + [log[n]])[..|front|];
    }
  }

  /** A TRICK that is accepted leaves a card pending, unless the client holds none at all. */
  lemma AskedHolds(v: View, m: ServerMessage)
    requires m.TrickMsg? && Accepts(v, m) && Receive(v, m).0.played == []
    ensures Held(v) == multiset{} && Receive(v, m).0 == v
  {
  }

  /** What is true of a clean view and the view of the whole log, beyond `Alike`. */
  predicate PendingToo(v: View, w: View) {
    w.played == [] ==> v.played == []
  }

  lemma NothingHeld(v: View, w: View, m: ServerMessage)
    requires Alike(v, w) && Held(w) == multiset{} && m.TrickMsg?
    ensures v.played == [] && Receive(v, m).0.played == []
  {
    EmptyHeld(v);
  }

  lemma NextPending(v: View, w: View, m: ServerMessage)
    requires Alike(v, w) && PendingToo(v, w) && !m.DealMsg?
    ensures PendingToo(Receive(v, m).0, Receive(w, m).0)
  {
    if m.TrickMsg? && Accepts(w, m) && Receive(w, m).0.played == [] {
      AskedHolds(w, m);
      NothingHeld(v, w, m);
    }
    hide Alike, Held, Answer, EraseEach;
  }

  /** A TRICK repeated to the whole log only. */
  lemma RepeatPending(v: View, w0: View, m: ServerMessage)
    requires m.TrickMsg? && Alike(v, Receive(w0, m).0) && PendingToo(v, Receive(w0, m).0)
    ensures PendingToo(Receive(v, m).0, Receive(w0, m).0)
  {
    var w := Receive(w0, m).0;
    if w.played == [] {
      if Accepts(w0, m) {
        AskedHolds(w0, m);
        NothingHeld(v, w, m);
      } else {
        assert v.trickNumber == w0.trickNumber;
      }
    }
    hide Held, Answer;
  }

  /** If nothing is pending by the clean log, nothing is. */
  lemma {:induction false} PendingByLog(v: View, log: seq<ServerMessage>)
    requires forall i | 0 < i < |Clean(log)| :: !Clean(log)[i].DealMsg?
    ensures PendingToo(ReceiveAll(v, log), ReceiveAll(v, Clean(log)))
  {
    hide Receive, Alike, PendingToo;
    if log == [] {
      SamePending(v);
    } else {
      var n := |log| - 1;
      var front, m := log[..n], log[n];
      assert Clean(log) == Push(Clean(front), m) && Clean(front) <= Clean(log);
      assert m.DealMsg? ==> Clean(log)[|Clean(front)|] == m;
      PendingByLog(v, front);
      CleanSuffices(v, front);
      PushPending(v, ReceiveAll(v, front), Clean(front), m);
      hide Clean;
    }
  }

  lemma SamePending(v: View)
    ensures PendingToo(v, v)
  {
  }

  lemma PushPending(v: View, a: View, clean: seq<ServerMessage>, m: ServerMessage)
    requires Alike(a, ReceiveAll(v, clean)) && PendingToo(a, ReceiveAll(v, clean))
    requires (m.DealMsg? ==> clean == []) && (clean == [] ==> a == v)
    ensures PendingToo(Receive(a, m).0, ReceiveAll(v, Push(clean, m)))
  {
    hide Receive, Alike, PendingToo;
    if m.WrongMsg? {
      IgnoresWrong(a, m);
    } else if Push(clean, m) == clean {
      var n := |clean| - 1;
      assert clean == clean[..n] + [m];
      ReceiveLast(v, clean[..n], m);
      RepeatPending(a, ReceiveAll(v, clean[..n]), m);
    } else {
      ReceiveLast(v, clean, m);
      if m.DealMsg? {
        ReceiveNone(v);
        SamePending(Receive(v, m).0);
      } else {
        NextPending(a, ReceiveAll(v, clean), m);
      }
    }
  }

  // ---- A seat that is asked ------------------------------------------------------------------------------------

  /** What the seat in turn was told: the recorded tricks, and TRICK. */
  lemma ToldInTurn(st: State, s: Seat)
    requires Reachable(st) && Typed(st) && st.threads[s].destined && !st.threads[s].pc.Notify?
    ensures FileOk(st.g.file) && Valid(st.g) && st.g.next > 0 && st.g.phase == Trick && |st.g.table| < 4
    ensures Turn(st.g) == s && |st.g.deal| == 4 && |st.g.tricks| == |st.g.takers| && st.g.trickNumber == |st.g.tricks| + 1
    ensures st.threads[s].current == st.g.trickNumber
    ensures Clean(st.threads[s].log) == Upto(st.g, s, |st.g.tricks|) + [Asking(st.g)]
  {
    ReachableInv(st);
    ReachableLog(st, s);
    hide Reachable, Inv, Valid, FileOk, Clean, LogAt;
    RepeatReads(st, s);
    ThreadOf(st, s);
    PartsOf(st);
    FactsOf(st.g);
    AskedSees(st.main, st.g, s);
    AskedStage(st, s);
    WaitingGame(st.main, st.g, s);
    hide MainOk, Facts, ThreadOk, StageAt, Awaited;
    AskedLog(st.g, s, |st.g.tricks|);
  }

  /** The TRICK of the running trick, as the seat in turn gets it. */
  function Asking(g: Game): ServerMessage {
    TrickMsg(g.trickNumber, g.table)
  }

  lemma AskedStage(st: State, s: Seat)
    requires Typed(st) && Awaited(st.main, s) && st.threads[s].destined
    requires MainOk(st.main, st.g) && ThreadOk(st.main, st.g, st.threads[s], s)
    ensures StageAt(st, s) == Asked(st.main.trick)
  {
    Destined(st.main, st.g, st.threads[s], s);
    hide Acted, ThreadOk;
  }

  lemma WaitingGame(m: Main, g: Game, s: Seat)
    requires MainOk(m, g) && Facts(g) && Awaited(m, s) && |g.table| == m.pc.i
    ensures g.next > 0 && g.phase == Trick && |g.table| < 4 && Turn(g) == s
    ensures |g.deal| == 4 && |g.tricks| == |g.takers| && g.trickNumber == |g.tricks| + 1
  {
    hide Leaders, Rounds;
  }

  lemma AskedLog(g: Game, s: Seat, n: nat)
    requires StageFits(g, Asked(n))
    ensures LogAt(g, s, Asked(n)) == Upto(g, s, n) + [TrickOut(g, s, n)]
  {
    hide Upto, TrickOut;
  }

  /** What a client holds when it has been told about all recorded tricks, its turn being next. */
  lemma HoldsItsHand(g: Game, v: View)
    requires FileOk(g.file) && Valid(g) && g.next > 0 && g.phase == Trick && |g.table| < 4
    requires |g.deal| == |g.hands| == 4 && |g.tricks| == |g.takers| && v.seat == Turn(g) && v.played == []
    ensures var u := ReceiveAll(v, Upto(g, Turn(g), |g.tricks|));
            && multiset(u.my) == multiset(g.hands[Turn(g)]) && u.played == [] && u.trickNumber == |g.tricks| + 1
  {
    hide Valid, FileOk, Upto, ReceiveAll, Pile, TakenBy;
    var s := Turn(g);
    TricksOfFour(g);
    DealtHand(g, s);
    ToldAgrees(g, s, |g.tricks|, v);
    HandLeft(g, s);
    PlaceMod(g.lastTaker, |g.table|);
    assert Pending(g, s) == [];
    assert g.tricks[..|g.tricks|] == g.tricks;
  }

  lemma TricksOfFour(g: Game)
    requires Valid(g)
    ensures forall t | t in g.tricks :: |t| == 4
  {
    hide HandsConserved, PackConserved, Void, NoRevoke, Scored, Counters, StaleTable;
  }

  lemma {:induction false} NoEarlierTrick(g: Game, s: Seat, n: nat, m: ServerMessage)
    requires |g.deal| == 4 && n <= |g.tricks| == |g.takers| && m.TrickMsg? && m.number > n
    ensures m !in Upto(g, s, n)
  {
    if n > 0 {
      NoEarlierTrick(g, s, n - 1, m);
      hide Seen, Leaders;
    }
  }

  /** Where a seat is first asked for its card of the running trick, and what its client holds there. */
  lemma FirstAsked(st: State, s: Seat, v: View) returns (i: nat)
    requires Reachable(st) && Typed(st) && st.threads[s].destined && !st.threads[s].pc.Notify?
    requires v.seat == s && v.played == []
    ensures var log, m := st.threads[s].log, Asking(st.g);
            && i < |log| && log[i] == m && m !in log[..i]
            && (forall j | i < j < |log| :: log[j] == m || log[j].WrongMsg?)
            && var u := ReceiveAll(v, log[..i]);
               Accepts(u, m) && u.played == [] && multiset(u.my) == multiset(st.g.hands[s])
  {
    var g, log := st.g, st.threads[s].log;
    hide *;
    ToldInTurn(st, s);
    HandsOfTable(st);
    ThreadsTyped(st);
    OneDeal(st, s);
    var told := Upto(g, s, |g.tricks|);
    var m := Asking(g);
    IsTrick(g);
    i := FirstCopy(log, told, m);
    NoEarlierTrick(g, s, |g.tricks|, m);
    NotBefore(log, i, m);
    HoldsItsHand(g, v);
    assert told == Clean(log)[..|told|];
    CleanSuffices(v, log[..i]);
    PendingByLog(v, log[..i]);
    SameHolding(ReceiveAll(v, log[..i]), ReceiveAll(v, told), m);
  }

  lemma IsTrick(g: Game)
    ensures Asking(g).TrickMsg? && Asking(g).number == g.trickNumber && Asking(g).table == g.table
  {
  }

  lemma NotBefore(log: seq<ServerMessage>, i: nat, m: ServerMessage)
    requires i <= |log| && m.TrickMsg? && m !in Clean(log[..i])
    ensures m !in log[..i]
  {
    if m in log[..i] {
      var k :| 0 <= k < i && log[..i][k] == m;
      Delivery.CleanKeeps(log[..i], k);
      assert false;
    }
  }

  lemma SameHolding(u: View, w: View, m: ServerMessage)
    requires Alike(u, w) && PendingToo(u, w) && w.played == []
    requires m.TrickMsg? && m.number == w.trickNumber && |m.table| < 4
    ensures Accepts(u, m) && u.played == [] && multiset(u.my) == multiset(w.my)
  {
    HeldAll(u);
    HeldAll(w);
    hide Held;
  }

  lemma HandsOfTable(st: State)
    requires Typed(st)
    ensures |st.g.hands| == 4
  {
  }

  /** Whenever the server waits for a card of seat `s`, the client's reply to the first copy of the running TRICK is a
      legal card, whatever was repeated before and since. */
  lemma ClientAnswers(st: State, s: Seat, v: View) returns (i: nat, c: Card)
    requires Reachable(st) && Typed(st) && st.threads[s].destined && !st.threads[s].pc.Notify?
    requires v.seat == s && v.played == []
    ensures var log, m := st.threads[s].log, Asking(st.g);
            && i < |log| && log[i] == m && m !in log[..i]
            && Receive(ReceiveAll(v, log[..i]), m).1 == Some(c)
    ensures Legal(st.g.hands[s], st.g.table, c)
  {
    hide *;
    i := FirstAsked(st, s, v);
    ToldInTurn(st, s);
    HandsOfTable(st);
    ThreadsTyped(st);
    TurnHasCards(st.g);
    c := FirstAnswer(st.g, ReceiveAll(v, st.threads[s].log[..i]));
  }

  lemma FirstAnswer(g: Game, u: View) returns (c: Card)
    requires |g.hands| == 4 && |g.table| < 4 && g.hands[Turn(g)] != []
    requires Accepts(u, Asking(g)) && multiset(u.my) == multiset(g.hands[Turn(g)])
    ensures Legal(g.hands[Turn(g)], g.table, c) && Receive(u, Asking(g)).1 == Some(c)
  {
    AnswerLegal(u, g.hands[Turn(g)], g.table);
    c := Receive(u, Asking(g)).1.value;
    hide Answer, Legal, Erase, Place;
  }

  /** That reply is read, parsed and taken up in the next two steps of the thread. */
  lemma AnswerTakenUp(st: State, s: Seat, v: View) returns (i: nat, c: Card)
    requires Reachable(st) && Typed(st) && WaitsForClient(st, s) && v.seat == s && v.played == []
    ensures var log, m := st.threads[s].log, Asking(st.g);
            && i < |log| && log[i] == m && m !in log[..i]
            && Receive(ReceiveAll(v, log[..i]), m).1 == Some(c)
    ensures var a, b := SeatStep(s, FromClient(Input(st.g.trickNumber, c))), SeatStep(s, Go);
            Enabled1(st, a) && Enabled1(Next(st, a), b) && Next(Next(st, a), b).g == DoPlay(st.g, s, c)
  {
    InTurn(st, s);
    hide *;
    i, c := ClientAnswers(st, s, v);
    WaitingAnswered(st, s, c);
  }

  lemma InTurn(st: State, s: Seat)
    requires Typed(st) && WaitsForClient(st, s)
    ensures st.threads[s].destined && !st.threads[s].pc.Notify?
  {
    assert Resting(st.threads[s]);
  }

  // ---- A client that is asked again and again ----------------------------------------------------------------

  lemma OneCardLess(v: View, m: ServerMessage)
    requires m.TrickMsg? && Accepts(v, m)
    ensures var u := Receive(v, m).0;
            Accepts(u, m) && |u.my| == if v.my == [] then 0 else |v.my| - 1
  {
  }

  /** How often `m` was sent within the first `k` messages. */
  function Times(log: seq<ServerMessage>, m: ServerMessage, k: nat): nat
    requires k <= |log|
  {
    if k == 0 then 0 else Times(log, m, k - 1) + if log[k - 1] == m then 1 else 0
  }

  lemma {:induction false} NoTimes(log: seq<ServerMessage>, m: ServerMessage, k: nat)
    requires k <= |log| && m !in log[..k]
    ensures Times(log, m, k) == 0
  {
    if k > 0 {
      assert log[k - 1] == log[..k][k - 1];
      assert log[..k - 1] == log[..k][..k - 1];
      NoTimes(log, m, k - 1);
    }
  }

  /** From its first copy on, each copy of a TRICK takes another card out of the hand, until there is none. */
  lemma {:induction false} CopiesUseCards(v: View, log: seq<ServerMessage>, m: ServerMessage, i: nat, k: nat)
    requires m.TrickMsg? && i <= k <= |log| && m !in log[..i] && Accepts(ReceiveAll(v, log[..i]), m)
    requires forall j | i <= j < k :: log[j] == m || log[j].WrongMsg?
    ensures var n, r := |ReceiveAll(v, log[..i]).my|, Times(log, m, k);
            Accepts(ReceiveAll(v, log[..k]), m) && |ReceiveAll(v, log[..k]).my| == if r <= n then n - r else 0
    decreases k
  {
    hide Receive, Accepts;
    if k == i {
      NoTimes(log, m, i);
    } else {
      CopiesUseCards(v, log, m, i, k - 1);
      assert log[..k] == log[..k - 1] + [log[k - 1]];
      ReceiveLast(v, log[..k - 1], log[k - 1]);
      if log[k - 1] == m {
        OneCardLess(ReceiveAll(v, log[..k - 1]), m);
      } else {
        IgnoresWrong(ReceiveAll(v, log[..k - 1]), log[k - 1]);
      }
      hide ReceiveAll;
    }
  }

  /** A TRICK without a card is too short for the grammar of client messages. */
  lemma NoCardRefused(n: nat)
    requires 1 <= n <= 13
    ensures !TrickClientCheck(TrickText(n, []))
  {
    TrickNumbers(n);
    ShortTrick(n, []);
  }

  /** An automatic client's reply to a TRICK keeps to the grammar if and only if its hand is not empty; with an
      empty hand it sends a TRICK without a card, and the server closes the connection. */
  lemma ReplyConforms(v: View, m: ServerMessage)
    requires m.TrickMsg? && Accepts(v, m) && 1 <= m.number <= 13
    ensures TrickClientCheck(Answered(v, m)) <==> v.my != []
  {
    var card := Receive(v, m).1;
    assert card == None <==> v.my == [];
    if card == None {
      NoCardRefused(m.number);
    } else {
      PrintedChecks(m.number, card.value);
    }
    hide TrickClientCheck, TrickText, Answer;
  }

  /** In trick `n` the client in turn can be asked 14 - n times, and no oftener, before its reply breaks the grammar:
      of the copies of TRICK that the thread has sent, the `k`-th message of its log among them, just the first 14 - n
      are answered within it.  In the last trick the first repetition is one too many. */
  lemma AskedTooOften(st: State, s: Seat, v: View, k: nat)
    requires Reachable(st) && Typed(st) && st.threads[s].destined && !st.threads[s].pc.Notify?
    requires v.seat == s && v.played == []
    requires k < |st.threads[s].log| && st.threads[s].log[k] == Asking(st.g)
    ensures var log, m := st.threads[s].log, Asking(st.g);
            TrickClientCheck(Answered(ReceiveAll(v, log[..k]), m)) <==> Times(log, m, k + 1) <= 14 - st.g.trickNumber
  {
    var g, log, m := st.g, st.threads[s].log, Asking(st.g);
    assert Times(log, m, k + 1) == Times(log, m, k) + 1;
    hide *;
    ToldInTurn(st, s);
    HandsOfTable(st);
    TurnHandSize(g);
    var i := FirstAsked(st, s, v);
    IsTrick(g);
    CopiesUseCards(v, log, m, i, k);
    var u := ReceiveAll(v, log[..i]);
    assert |multiset(u.my)| == |u.my| && |multiset(g.hands[s])| == |g.hands[s]|;
    ReplyConforms(ReceiveAll(v, log[..k]), m);
  }
}
