/** Steps of the main thread keep the protocol invariant. */
module ControlMain {
  import opened Cards
  import opened Points
  import opened GameModel
  import opened Conduct
  import opened Client
  import opened Protocol
  import opened Control
  import opened ControlSeat

  // ---- One thread, when the main thread moves on ------------------------------------------------------

  /** Nothing is written to the seat. */
  lemma KeepThread(m: Main, g: Game, t: Thread, m': Main, g': Game, t': Thread, s: Seat)
    requires ThreadOk(m, g, t, s) && m'.round == m.round && Sent(m', s) == Sent(m, s)
    requires Awaited(m', s) == Awaited(m, s) && t' == t.(log := t'.log)
    requires InTrick(m) && Acted(m, t, s) > PlayAt(m.round) ==> g'.trickNumber == g.trickNumber
    requires InBarrier(m) ==> InBarrier(m')
    ensures ThreadOk(m', g', t', s)
  {
    assert Queue(t') == Queue(t);
    hide Sent, Script, PlayAt, InBarrier, Awaited;
  }

  /** The next token of the script is written to the seat. */
  lemma SendThread(m: Main, g: Game, t: Thread, m': Main, t': Thread, s: Seat, token: Token)
    requires ThreadOk(m, g, t, s) && m'.round == m.round && Sent(m', s) == Sent(m, s) + 1
    requires Sent(m', s) <= |Script(m.round)| && token == Script(m.round)[Sent(m, s)]
    requires t' == t.(inbox := t.inbox + [token])
    requires token != CardPlay ==> Awaited(m', s) == Awaited(m, s)
    requires token == CardPlay ==> Awaited(m', s) && !Awaited(m, s)
    requires InBarrier(m) ==> InBarrier(m')
    ensures ThreadOk(m', g, t', s)
  {
    hide Sent, Script, InBarrier, Awaited, PlayAt;
    var a, n := Acted(m, t, s), Sent(m, s);
    assert Queue(t') == Queue(t) + [token];
    SliceMore(Script(m.round), a, n);
  }

  lemma SliceMore(script: seq<Token>, a: nat, n: nat)
    requires a <= n < |script|
    ensures script[a..n + 1] == script[a..n] + [script[n]]
  {
  }

  // ---- Steps that write or read no pipe --------------------------------------------------------------

  predicate QuietPc(pc: MainPc) {
    pc.NextDeal? || pc.OpenDeal? || pc.TrickTop? || pc.GiveTurn? || pc.ScoreTrick? || pc.ScoreDeal? || pc.BarrierTop?
  }

  lemma QuietSent(st: State, from: Seat, s: Seat)
    requires Typed(st) && MainOk(st.main, st.g) && QuietPc(st.main.pc)
    requires Counters(st.g) && st.g.next <= |st.g.file|
    ensures var st' := MainNext(st, from);
            && |st'.threads| == 4 && st'.threads[s] == st.threads[s].(log := st'.threads[s].log)
            && st'.main.round == st.main.round && Sent(st'.main, s) == Sent(st.main, s)
            && !Awaited(st.main, s) && !Awaited(st'.main, s) && !InBarrier(st.main)
            && (Sent(st.main, s) > PlayAt(st.main.round) ==> st'.g.trickNumber == st.g.trickNumber)
            && (InBarrier(st'.main) ==> Sent(st'.main, s) < |Script(st'.main.round)| && st'.occupied == 0)
            && (st'.ongoing <==> st.ongoing || InBarrier(st'.main)) && !st'.main.pc.BarrierCheck?
  {
    OnlyLog(st, from, s);
    hide Taker, TrickPoints, NewLogs;
  }

  lemma OnlyLog(st: State, from: Seat, s: Seat)
    requires Typed(st) && MainEnabled(st, from) && QuietPc(st.main.pc)
    ensures var st' := MainNext(st, from);
            |st'.threads| == 4 && st'.threads[s] == st.threads[s].(log := st'.threads[s].log)
  {
    ThreadsStep(st, from);
    hide MainNext;
  }

  lemma QuietThreads(st: State, from: Seat)
    requires Inv(st) && QuietPc(st.main.pc)
    ensures var st' := MainNext(st, from);
            && |st'.threads| == 4 && (forall s: Seat :: ThreadOk(st'.main, st'.g, st'.threads[s], s))
            && BarrierOk(st')
  {
    hide Valid, FileOk, Inv, TableOk;
    PartsOf(st);
    CountersOf(st);
    QuietBarrier(st, from);
    var st' := MainNext(st, from);
    hide BarrierOk, MainNext;
    forall s: Seat ensures |st'.threads| == 4 && ThreadOk(st'.main, st'.g, st'.threads[s], s) {
      ThreadOf(st, s);
      QuietSent(st, from, s);
      hide MainOk, ThreadOk, Typed;
      KeepThread(st.main, st.g, st.threads[s], st'.main, st'.g, st'.threads[s], s);
    }
  }

  lemma CountersOf(st: State)
    requires Inv(st)
    ensures Counters(st.g) && st.g.next <= |st.g.file|
  {
    hide FileOk, MainOk, TableOk, BarrierOk, ThreadOk, HandsConserved, PackConserved, Void, NoRevoke, Scored;
  }

  lemma QuietBarrier(st: State, from: Seat)
    requires Inv(st) && QuietPc(st.main.pc)
    ensures |MainNext(st, from).threads| == 4 && BarrierOk(MainNext(st, from))
  {
    hide Valid, FileOk, Inv, TableOk;
    PartsOf(st);
    CountersOf(st);
    var st' := MainNext(st, from);
    forall s: Seat ensures
      && |st'.threads| == 4 && Waking(st'.threads[s]) == Waking(st.threads[s])
      && (InBarrier(st'.main) ==> st'.occupied == 0 && !HasArrived(st'.main, st'.threads[s], s))
      && (st'.ongoing <==> st.ongoing || InBarrier(st'.main))
      && !InBarrier(st.main) && !st'.main.pc.BarrierCheck?
    {
      QuietSent(st, from, s);
    }
    hide MainOk, MainNext, Counters, Waking, HasArrived, InBarrier, Typed;
  }

  // ---- Steps that write a token ----------------------------------------------------------------------

  /** How a write moves the main thread along the script. */
  predicate Writes(m: Main, m': Main, to: Seat, token: Token) {
    && m'.round == m.round && InBarrier(m') == InBarrier(m) && !m.pc.BarrierCheck? && !m'.pc.BarrierCheck?
    && Sent(m, to) < |Script(m.round)| && token == Script(m.round)[Sent(m, to)]
    && forall s: Seat ::
         && Sent(m', s) == Sent(m, s) + (if s == to then 1 else 0)
         && !Awaited(m, s) && (Awaited(m', s) <==> s == to && token == CardPlay)
  }

  lemma TellWrites(m: Main, g: Game, m': Main)
    requires MainOk(m, g) && m.pc.Tell?
    requires m' == m.(pc := if m.pc.to < 3 then Tell(m.pc.token, m.pc.to + 1) else AfterTell(m.pc.token, m.round))
    ensures Writes(m, m', m.pc.to, m.pc.token)
  {
  }

  lemma CallWrites(m: Main, g: Game, m': Main)
    requires MainOk(m, g) && m.pc.CallTurn? && m' == m.(pc := AwaitCard(m.pc.i))
    ensures Writes(m, m', Place(m.beginning, m.pc.i), CardPlay)
  {
  }

  lemma WriteThreads(st: State, m': Main, to: Seat, token: Token)
    requires Inv(st) && Writes(st.main, m', to, token)
    ensures Typed(st)
    ensures var st' := st.(threads := Send(st.threads, to, token), main := m');
            && (forall s: Seat :: ThreadOk(st'.main, st'.g, st'.threads[s], s))
            && BarrierOk(st')
  {
    hide Valid, FileOk, Inv, TableOk;
    PartsOf(st);
    var st' := st.(threads := Send(st.threads, to, token), main := m');
    forall s: Seat ensures
      && ThreadOk(st'.main, st'.g, st'.threads[s], s)
      && Waking(st'.threads[s]) == Waking(st.threads[s])
      && HasArrived(st'.main, st'.threads[s], s) == HasArrived(st.main, st.threads[s], s)
    {
      ThreadOf(st, s);
      WriteOne(st.main, st.g, st.threads[s], m', st'.threads[s], s, to, token);
    }
    hide MainOk, Waking, HasArrived, InBarrier, Send, ThreadOk, Awaited, Sent;
  }

  lemma WriteOne(m: Main, g: Game, t: Thread, m': Main, t': Thread, s: Seat, to: Seat, token: Token)
    requires ThreadOk(m, g, t, s) && Writes(m, m', to, token)
    requires t' == if s == to then t.(inbox := t.inbox + [token]) else t
    ensures ThreadOk(m', g, t', s) && Waking(t') == Waking(t)
    ensures HasArrived(m', t', s) == HasArrived(m, t, s)
  {
    assert Sent(m', s) == Sent(m, s) + if s == to then 1 else 0;
    assert Awaited(m', s) <==> s == to && token == CardPlay;
    assert |Queue(t')| == |Queue(t)| + if s == to then 1 else 0;
    if s == to {
      SendLength(m, g, t, s);
      hide ThreadOk, Sent, Script, InBarrier, Awaited, Waking, Queue;
      SendThread(m, g, t, m', t', s, token);
    } else {
      hide ThreadOk, Sent, Script, InBarrier, Awaited, Waking, Queue;
      KeepThread(m, g, t, m', g, t', s);
    }
  }

  lemma SendLength(m: Main, g: Game, t: Thread, s: Seat)
    requires ThreadOk(m, g, t, s)
    ensures InOrder(m, t, s)
  {
  }

  // ---- Steps that read a notice ----------------------------------------------------------------------

  /** While a card is awaited only its seat has anything to say, and it says CARD_PLAY. */
  lemma ReadsPlay(st: State, from: Seat)
    requires Inv(st) && st.main.pc.AwaitCard? && st.threads[from].outbox != []
    ensures st.threads[from].outbox == [Played] && from == Place(st.main.beginning, st.main.pc.i)
    ensures |st.g.table| == st.main.pc.i + 1 && HasPlayed(st.threads[from])
  {
    hide Valid, FileOk, Inv, BarrierOk;
    PartsOf(st);
    ThreadOf(st, from);
    hide MainOk, InOrder;
  }

  lemma PlayedThread(m: Main, g: Game, t: Thread, m': Main, s: Seat)
    requires MainOk(m, g) && m.pc.AwaitCard? && ThreadOk(m, g, t, s)
    requires m' == m.(pc := if m.pc.i < 3 then GiveTurn(m.pc.i + 1) else ScoreTrick)
    requires Awaited(m, s) ==> t.outbox == [Played]
    ensures ThreadOk(m', g, if Awaited(m, s) then t.(outbox := []) else t, s)
  {
    var t' := if Awaited(m, s) then t.(outbox := []) else t;
    assert Queue(t') == Queue(t);
    assert Sent(m', s) == Sent(m, s) && !Awaited(m', s) && !InBarrier(m);
    hide Sent, Script, InBarrier, PlayAt, Awaited;
  }

  lemma AwaitThreads(st: State, from: Seat)
    requires Inv(st) && st.main.pc.AwaitCard? && st.threads[from].outbox != []
    ensures var st' := MainNext(st, from);
            && |st'.threads| == 4 && (forall s: Seat :: ThreadOk(st'.main, st'.g, st'.threads[s], s))
            && BarrierOk(st')
  {
    hide Valid, FileOk, Inv, TableOk, BarrierOk, ThreadOk, MainOk;
    PartsOf(st);
    OngoingOf(st);
    ReadsPlay(st, from);
    var st' := MainNext(st, from);
    forall s: Seat ensures ThreadOk(st'.main, st'.g, st'.threads[s], s) && !Waking(st'.threads[s]) {
      ThreadOf(st, s);
      PlayedThread(st.main, st.g, st.threads[s], st'.main, s);
      if Waking(st'.threads[s]) { WakingInBarrier(st'.main, st'.g, st'.threads[s], s); }
    }
    IdleBarrier(st');
  }

  lemma WakingInBarrier(m: Main, g: Game, t: Thread, s: Seat)
    requires ThreadOk(m, g, t, s) && Waking(t)
    ensures InBarrier(m)
  {
  }

  /** At the barrier the only notice is the wake-up of the thread that arrived last. */
  lemma ReadsWake(st: State, from: Seat)
    requires Inv(st) && st.main.pc.BarrierWait? && st.threads[from].outbox != []
    ensures st.threads[from].outbox == [Arrived] && st.occupied == 4
    ensures forall s: Seat :: Waking(st.threads[s]) <==> s == from
  {
    hide Valid, FileOk, Inv, TableOk;
    PartsOf(st);
    ThreadOf(st, from);
    hide MainOk, InOrder, ArrivedCount;
    OneWaking(st, from);
  }

  lemma OneWaking(st: State, from: Seat)
    requires |st.threads| == 4 && Waking(st.threads[from])
    ensures WakeCount(st) >= 1
    ensures WakeCount(st) == 1 ==> forall s: Seat :: Waking(st.threads[s]) <==> s == from
  {
    hide Waking;
    match from {
      case 0 => case 1 => case 2 => case _ =>
    }
  }

  lemma WokenThread(m: Main, g: Game, t: Thread, m': Main, t': Thread, s: Seat)
    requires MainOk(m, g) && m.pc.BarrierWait? && ThreadOk(m, g, t, s) && m' == m.(pc := BarrierCheck)
    requires t' == t || (t' == t.(outbox := []) && t.outbox == [Arrived])
    ensures ThreadOk(m', g, t', s) && HasArrived(m', t', s) == HasArrived(m, t, s)
    ensures t' != t ==> !Waking(t')
  {
    assert Queue(t') == Queue(t);
    assert Sent(m', s) == Sent(m, s) && !Awaited(m', s) && !Awaited(m, s);
    assert InBarrier(m) && InBarrier(m');
    hide MainOk, Sent, Script, InBarrier, PlayAt, Awaited;
  }

  lemma WakeThreads(st: State, from: Seat)
    requires Inv(st) && st.main.pc.BarrierWait? && st.threads[from].outbox != []
    ensures var st' := MainNext(st, from);
            && |st'.threads| == 4 && (forall s: Seat :: ThreadOk(st'.main, st'.g, st'.threads[s], s))
            && BarrierOk(st') && st'.main.pc.BarrierCheck?
  {
    hide Valid, FileOk, Inv, TableOk, MainOk, ThreadOk, HasArrived, Waking;
    PartsOf(st);
    ReadsWake(st, from);
    var st' := MainNext(st, from);
    forall s: Seat ensures ThreadOk(st'.main, st'.g, st'.threads[s], s) && !Waking(st'.threads[s])
                           && HasArrived(st'.main, st'.threads[s], s) == HasArrived(st.main, st.threads[s], s)
    {
      ThreadOf(st, s);
      WokenThread(st.main, st.g, st.threads[s], st'.main, st'.threads[s], s);
    }
  }

  // ---- The end of a round ----------------------------------------------------------------------------

  lemma AllArrived(st: State, s: Seat)
    requires Inv(st) && st.main.pc.BarrierCheck?
    ensures st.occupied == 4 && HasArrived(st.main, st.threads[s], s) && !Waking(st.threads[s])
    ensures Queue(st.threads[s]) == []
  {
    hide Valid, FileOk, Inv, TableOk;
    PartsOf(st);
    ThreadOf(st, s);
    hide MainOk, Waking, Sent, Script;
    match s {
      case 0 => case 1 => case 2 => case _ =>
    }
  }

  lemma CheckThreads(st: State, from: Seat)
    requires Inv(st) && st.main.pc.BarrierCheck?
    ensures var st' := MainNext(st, from);
            && |st'.threads| == 4 && (forall s: Seat :: ThreadOk(st'.main, st'.g, st'.threads[s], s))
            && BarrierOk(st') && !st'.ongoing
  {
    hide Valid, FileOk, Inv, TableOk, BarrierOk, MainOk;
    PartsOf(st);
    AllArrived(st, 0);
    var st' := MainNext(st, from);
    assert st'.main.pc == Tell(BarrierEnd, 0);
    forall s: Seat ensures ThreadOk(st'.main, st'.g, st'.threads[s], s) && !Waking(st'.threads[s]) {
      ThreadOf(st, s);
      AllArrived(st, s);
      assert Sent(st'.main, s) == 0 && st'.threads[s] == st.threads[s];
      hide HasArrived;
    }
    hide ThreadOk;
    IdleBarrier(st');
  }

  lemma IdleBarrier(st: State)
    requires |st.threads| == 4 && !InBarrier(st.main) && !st.ongoing && forall s: Seat :: !Waking(st.threads[s])
    ensures BarrierOk(st)
  {
  }

  // ---- The step within the whole state ----------------------------------------------------------------

  /** The move of the sequential game that a step of the main thread makes, if any. */
  function MainMove(st: State): Option<Move> {
    match st.main.pc
    case NextDeal => if st.g.next < |st.g.file| then Some(Load) else None
    case OpenDeal => Some(Open)
    case TrickTop => Some(Begin)
    case ScoreTrick => Some(CloseTrick)
    case ScoreDeal => Some(CloseDeal)
    case _ => None
  }

  /** The main thread's steps are moves of the sequential game, or leave it alone. */
  lemma MainRefines(st: State, from: Seat)
    requires Inv(st) && MainEnabled(st, from)
    ensures match MainMove(st)
            case None => MainNext(st, from).g == st.g
            case Some(m) => Enabled(st.g, m) && MainNext(st, from).g == Apply(st.g, m)
  {
    hide Valid, FileOk, TableOk, BarrierOk, ThreadOk;
    CountersOf(st);
    hide Taker, Inv;
    PartsOf(st);
  }

  lemma MainGame(st: State, from: Seat)
    requires Inv(st) && MainEnabled(st, from)
    ensures FileOk(MainNext(st, from).g.file) && Valid(MainNext(st, from).g)
  {
    hide Valid, FileOk, Inv, MainNext;
    PartsOf(st);
    MainRefines(st, from);
    if MainMove(st).Some? {
      MoveValid(st.g, MainMove(st).value);
    }
    hide MainOk, TableOk, BarrierOk, Enabled, Apply;
  }

  lemma MainPlace(st: State, from: Seat)
    requires Inv(st) && MainEnabled(st, from)
    ensures MainOk(MainNext(st, from).main, MainNext(st, from).g)
  {
    hide Valid, FileOk, Inv, TableOk, BarrierOk, ThreadOk;
    PartsOf(st);
    CountersOf(st);
    match st.main.pc {
      case AwaitCard(_) => ReadsPlay(st, from);
      case BarrierWait => ReadsWake(st, from);
      case BarrierCheck => AllArrived(st, 0);
      case _ =>
    }
    hide Taker;
  }

  lemma MainTable(st: State, from: Seat)
    requires Inv(st) && MainEnabled(st, from)
    ensures |MainNext(st, from).threads| == 4 && TableOk(MainNext(st, from))
  {
    hide Valid, FileOk, Inv, BarrierOk, MainNext, TableOk, MainOk;
    PartsOf(st);
    if st.main.pc.CallTurn? {
      CallTable(st, from);
    } else {
      OtherTable(st, from);
    }
  }

  lemma CallTable(st: State, from: Seat)
    requires Inv(st) && st.main.pc.CallTurn?
    ensures |MainNext(st, from).threads| == 4 && TableOk(MainNext(st, from))
  {
    hide Valid, FileOk, Inv, BarrierOk;
    PartsOf(st);
    var s := Place(st.main.beginning, st.main.pc.i);
    ThreadOf(st, s);
    assert !Awaited(st.main, s);
    hide InOrder;
  }

  /** After any other step no card is awaited that was not called for. */
  lemma OtherTable(st: State, from: Seat)
    requires Typed(st) && MainEnabled(st, from) && !st.main.pc.CallTurn?
    ensures |MainNext(st, from).threads| == 4 && TableOk(MainNext(st, from))
  {
    hide DoLoad, DoOpen, DoBegin, DoCloseTrick, DoCloseDeal;
  }

  lemma MainThreads(st: State, from: Seat)
    requires Inv(st) && MainEnabled(st, from)
    ensures var st' := MainNext(st, from);
            && |st'.threads| == 4 && (forall s: Seat :: ThreadOk(st'.main, st'.g, st'.threads[s], s))
            && BarrierOk(st')
  {
    hide Valid, FileOk, Inv, TableOk, BarrierOk, ThreadOk;
    PartsOf(st);
    match st.main.pc {
      case Tell(token, to) =>
        TellWrites(st.main, st.g, MainNext(st, from).main);
        hide MainOk, Writes;
        WriteThreads(st, MainNext(st, from).main, to, token);
      case CallTurn(i) =>
        CallWrites(st.main, st.g, MainNext(st, from).main);
        hide MainOk, Writes;
        WriteThreads(st, MainNext(st, from).main, Place(st.main.beginning, i), CardPlay);
      case AwaitCard(_) => AwaitThreads(st, from);
      case BarrierWait => WakeThreads(st, from);
      case BarrierCheck => CheckThreads(st, from);
      case _ => QuietThreads(st, from);
    }
  }

  /** A step of the main thread keeps the invariant. */
  lemma MainKeeps(st: State, from: Seat)
    requires Inv(st) && MainEnabled(st, from)
    ensures Inv(Next(st, MainStep(from)))
  {
    assert Typed(Next(st, MainStep(from)));
    assert Next(st, MainStep(from)) == MainNext(st, from);
    hide *;
    MainGame(st, from);
    MainPlace(st, from);
    MainThreads(st, from);
    MainTable(st, from);
    InvFromParts(MainNext(st, from));
  }
}
