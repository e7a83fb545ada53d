/** One turn of a seat thread's loop: what the client hears when time runs out or when it breaks the rules, and that
    its messages wait while its thread is held at a barrier. */
module Turns {
  import opened Cards
  import opened GameModel
  import opened Client
  import opened Protocol
  import opened Control
  import opened ControlSeat
  import opened ControlMain
  import opened Safety
  import opened Logs
  import opened LogSteps
  import Deferral

  // ---- The seat in turn ---------------------------------------------------------------------------------------

  /** A seat in turn is not held at a barrier, has nothing else to do, and knows the running trick. */
  lemma AskedIsFree(st: State, s: Seat)
    requires Reachable(st) && Typed(st) && st.threads[s].destined && !st.threads[s].pc.Notify?
    ensures !st.threads[s].barrier && st.threads[s].current == st.g.trickNumber && st.threads[s].inbox == []
  {
    hide *;
    ReachableInv(st);
    RepeatReads(st, s);
    ThreadOf(st, s);
    NothingWaits(st.main, st.threads[s], s);
    NotHeld(st.main, st.g, st.threads[s], s);
  }

  lemma NothingWaits(m: Main, t: Thread, s: Seat)
    requires Awaited(m, s) && Acted(m, t, s) == PlayAt(m.round) + 1
    ensures t.inbox == []
  {
  }

  lemma NotHeld(m: Main, g: Game, t: Thread, s: Seat)
    requires ThreadOk(m, g, t, s) && Awaited(m, s) && Acted(m, t, s) == PlayAt(m.round) + 1
    ensures !t.barrier
  {
    hide InOrder, TurnMarks, Acted;
  }

  lemma TwoSteps(st: State, a: Action, b: Action)
    requires Typed(st) && Enabled1(st, a) && Enabled1(Next(st, a), b)
    ensures IsRun(st, [a, b]) && RunOf(st, [a, b]) == Next(Next(st, a), b)
  {
    hide Next, Enabled1, Typed;
    RunCons(Next(st, a), b, []);
    RunCons(st, a, [b] + []);
    assert [a, b] == [a] + ([b] + []);
  }

  /** When time runs out for the seat in turn its client is sent TRICK again, with the number and the table of the
      moment, and nothing else changes; whether its pipe is empty decides which of the two branches does it. */
  lemma AsksAgain(st: State, s: Seat, choice: Choice)
    requires Reachable(st) && Typed(st) && st.threads[s].destined && st.threads[s].pc.Poll?
    requires choice.Timeout? || choice.Resend?
    ensures ThreadEnabled(st.threads[s], Timeout)
    ensures ThreadEnabled(st.threads[s], choice) ==>
              var t, turn := st.threads[s], [SeatStep(s, choice), SeatStep(s, Go)];
              IsRun(st, turn) && RunOf(st, turn)
                == With(st, s, t.(log := t.log + [TrickMsg(st.g.trickNumber, st.g.table)],
                                  pc := if choice.Timeout? then Top else Serve))
  {
    AskedIsFree(st, s);
    hide Reachable;
    var t, a, b := st.threads[s], SeatStep(s, choice), SeatStep(s, Go);
    if ThreadEnabled(t, choice) {
      assert Next(st, a) == With(st, s, t.(pc := Repeat(if choice.Timeout? then ToTop else ToServe)));
      TwoSteps(st, a, b);
    }
  }

  /** The thread of a seat after it has read a message, and parsed it. */
  function Heard(t: Thread, m: Input): Thread {
    t.(received := t.received + [m], parsed := t.parsed + [m])
  }

  /** The client of the seat in turn answers.  A legal card of the running trick leaves its hand for the table and
      the main thread is told; any other message is answered with WRONG and the running number, and the seat is
      still in turn. */
  lemma AnswerInTurn(st: State, s: Seat, m: Input)
    requires Reachable(st) && Typed(st) && st.threads[s].destined && st.threads[s].pc.Poll?
    ensures var t, read, go := st.threads[s], SeatStep(s, FromClient(m)), SeatStep(s, Go);
            if m.number == st.g.trickNumber && Legal(st.g.hands[s], st.g.table, m.card) then
              && IsRun(st, [read, go, go])
              && RunOf(st, [read, go, go])
                 == With(st, s, Heard(t, m).(destined := false, outbox := t.outbox + [Played], pc := Top))
                    .(g := DoPlay(st.g, s, m.card), turn := None)
            else
              && IsRun(st, [read, go])
              && RunOf(st, [read, go])
                 == With(st, s, Heard(t, m).(log := t.log + [WrongMsg(st.g.trickNumber)], pc := Top))
  {
    AskedIsFree(st, s);
    hide Reachable, Legal;
    var t, read, go := st.threads[s], SeatStep(s, FromClient(m)), SeatStep(s, Go);
    var st1 := With(st, s, t.(received := t.received + [m], pc := Parse(m, ToTop)));
    assert Next(st, read) == st1;
    if m.number == st.g.trickNumber && Legal(st.g.hands[s], st.g.table, m.card) {
      TakesUp(st1, s);
      ThreeSteps(st, read, go, go);
    } else {
      Refuses(st1, s);
      TwoSteps(st, read, go);
    }
    hide Next, Enabled1, IsRun, RunOf, DoPlay;
  }

  lemma TakesUp(st: State, s: Seat)
    requires Typed(st) && TakesCard(st.g, s, st.threads[s]) && st.threads[s].pc.after == ToTop
    ensures var t, go := st.threads[s], SeatStep(s, Go);
            && Enabled1(st, go) && Enabled1(Next(st, go), go)
            && Next(Next(st, go), go)
               == With(st, s, t.(parsed := t.parsed + [t.pc.m], destined := false, outbox := t.outbox + [Played], pc := Top))
                  .(g := DoPlay(st.g, s, t.pc.m.card), turn := None)
  {
    var t, go := st.threads[s], SeatStep(s, Go);
    assert Next(st, go) == With(st, s, t.(parsed := t.parsed + [t.pc.m], pc := Notify(ToTop)))
                             .(g := DoPlay(st.g, s, t.pc.m.card), turn := None);
    hide Takes, DoPlay;
  }

  lemma Refuses(st: State, s: Seat)
    requires Typed(st) && st.threads[s].pc.Parse? && !TakesCard(st.g, s, st.threads[s])
    ensures var t, go := st.threads[s], SeatStep(s, Go);
            && Enabled1(st, go)
            && Next(st, go) == With(st, s, t.(parsed := t.parsed + [t.pc.m], log := t.log + [WrongMsg(t.current)],
                                              pc := Return(t.pc.after)))
  {
    hide Takes;
  }

  lemma ThreeSteps(st: State, a: Action, b: Action, c: Action)
    requires Typed(st) && Enabled1(st, a) && Enabled1(Next(st, a), b) && Enabled1(Next(Next(st, a), b), c)
    ensures IsRun(st, [a, b, c]) && RunOf(st, [a, b, c]) == Next(Next(Next(st, a), b), c)
  {
    hide Next, Enabled1, Typed;
    TwoSteps(Next(st, a), b, c);
    RunCons(st, a, [b, c]);
    assert [a, b, c] == [a] + [b, c];
  }

  /** A seat that is not in turn, nor at a barrier, has any message answered with WRONG; if a token waits in its
      pipe it is read in the same turn of the loop. */
  lemma RefusedOutOfTurn(st: State, s: Seat, m: Input)
    requires Typed(st) && !st.threads[s].destined && !st.threads[s].barrier && st.threads[s].pc.Poll?
    ensures var t, turn := st.threads[s], [SeatStep(s, FromClient(m)), SeatStep(s, Go)];
            IsRun(st, turn) && RunOf(st, turn)
              == With(st, s, Heard(t, m).(log := t.log + [WrongMsg(t.current)], pc := if t.inbox == [] then Top else Serve))
  {
    var t, read := st.threads[s], SeatStep(s, FromClient(m));
    var st1 := With(st, s, t.(received := t.received + [m], pc := Parse(m, if t.inbox == [] then ToTop else ToServe)));
    assert Next(st, read) == st1;
    TwoSteps(st, read, SeatStep(s, Go));
  }

  /** A thread that starts a turn while a barrier is running puts the message that comes aside, even if it has not
      been asked to the barrier yet; if a token waits in its pipe it is read in the same turn. */
  lemma PutAside(st: State, s: Seat, m: Input)
    requires Typed(st) && st.ongoing && st.threads[s].pc.Top?
    ensures var t, turn := st.threads[s], [SeatStep(s, Go), SeatStep(s, Go), SeatStep(s, FromClient(m))];
            IsRun(st, turn) && RunOf(st, turn)
              == With(st, s, t.(current := st.g.trickNumber, barrier := true, received := t.received + [m],
                                deferred := t.deferred + [m], pc := if t.inbox == [] then Top else Serve))
  {
    var t, go, read := st.threads[s], SeatStep(s, Go), SeatStep(s, FromClient(m));
    var st1 := With(st, s, t.(current := st.g.trickNumber, barrier := true, pc := DrainTop));
    var st2 := With(st, s, st1.threads[s].(pc := Poll));
    assert Next(st, go) == st1;
    assert st2.threads == st1.threads[s := st2.threads[s]] && Next(st1, go) == st2;
    assert With(st, s, Next(st2, read).threads[s]) == Next(st2, read);
    ThreeSteps(st, go, go, read);
  }

  // ---- Held at a barrier ----------------------------------------------------------------------------------------

  /** From acting on the token that asks it to the barrier until acting on the one that lets it go. */
  predicate Held(m: Main, t: Thread, s: Seat) {
    HasArrived(m, t, s) || (m.round != Joining && Acted(m, t, s) == 0)
  }

  predicate Waits(t: Thread) {
    t.barrier && (t.pc.Top? || t.pc.DrainTop? || t.pc.Poll? || t.pc.Serve? || t.pc.Handle? || t.pc.Wake?)
  }

  ghost predicate HeldInv(st: State) {
    Inv(st) && Typed(st) && forall s: Seat :: Held(st.main, st.threads[s], s) ==> Waits(st.threads[s])
  }

  lemma HeldAt(st: State, s: Seat)
    requires HeldInv(st)
    ensures Inv(st) && Typed(st) && |st.threads| == 4
    ensures Held(st.main, st.threads[s], s) ==> Waits(st.threads[s])
  {
    hide Inv, Held, Waits;
  }

  /** A thread that waits acts on nothing but a token. */
  lemma WaitingThread(g: Game, ongoing: bool, occupied: int, s: Seat, t: Thread, choice: Choice)
    requires |g.hands| == 4 && ThreadEnabled(t, choice) && Waits(t) && !t.destined
    ensures var u := ThreadNext(g, ongoing, occupied, s, t, choice);
            && u.parsed == t.parsed && (!t.pc.Handle? ==> u.log == t.log && Waits(u))
            && (choice.FromClient? ==> u.deferred == t.deferred + [choice.m])
            && (!choice.FromClient? ==> u.deferred == t.deferred)
  {
    hide Takes;
  }

  /** Acting on the token that asks to a barrier makes a thread wait. */
  lemma StartsWaiting(g: Game, ongoing: bool, occupied: int, s: Seat, t: Thread)
    requires |g.hands| == 4 && t.pc == Handle(BarrierAsk)
    ensures Waits(ThreadNext(g, ongoing, occupied, s, t, Go))
  {
  }

  /** A seat in turn is not held. */
  lemma HeldNotAsked(m: Main, g: Game, t: Thread, s: Seat)
    requires MainOk(m, g) && ThreadOk(m, g, t, s) && Held(m, t, s)
    ensures !t.destined
  {
    hide MainOk, ThreadOk, Acted;
    if t.destined { Destined(m, g, t, s); }
  }

  /** The only token a held thread can act on is the one that lets it go. */
  lemma HeldHandles(m: Main, g: Game, t: Thread, s: Seat)
    requires MainOk(m, g) && ThreadOk(m, g, t, s) && Held(m, t, s) && t.pc.Handle?
    ensures t.pc.token == BarrierEnd
  {
    hide MainOk, ThreadOk, Acted, Sent;
    ActsOn(m, g, t, s);
  }

  lemma SelfHeld(st: State, s: Seat, choice: Choice)
    requires HeldInv(st) && ThreadEnabled(st.threads[s], choice)
    ensures var u := ThreadNext(st.g, st.ongoing, st.occupied, s, st.threads[s], choice);
            Held(st.main, u, s) ==> Waits(u)
  {
    hide HeldInv, Inv, Held, Waits, ThreadOk, MainOk, ThreadNext, Queue, ThreadEnabled;
    HeldAt(st, s);
    PartsOf(st);
    ThreadOf(st, s);
    OngoingOf(st);
    var t := st.threads[s];
    var u := ThreadNext(st.g, st.ongoing, st.occupied, s, t, choice);
    if t.pc.Handle? {
      HandlesHeld(st, s, choice);
    } else {
      SelfQuiet(st, s, choice);
      SameHeld(st.main, st.main, t, u, s);
      if Held(st.main, t, s) {
        HeldNotAsked(st.main, st.g, t, s);
        WaitingThread(st.g, st.ongoing, st.occupied, s, t, choice);
      }
    }
  }

  lemma HandlesHeld(st: State, s: Seat, choice: Choice)
    requires Typed(st) && MainOk(st.main, st.g) && ThreadOk(st.main, st.g, st.threads[s], s)
    requires st.threads[s].pc.Handle? && ThreadEnabled(st.threads[s], choice)
    ensures var u := ThreadNext(st.g, st.ongoing, st.occupied, s, st.threads[s], choice);
            Held(st.main, u, s) ==> Waits(u)
  {
    var t := st.threads[s];
    assert choice == Go;
    var u := ThreadNext(st.g, st.ongoing, st.occupied, s, t, Go);
    hide MainOk, ThreadOk, ThreadNext, Waits, Acted, InOrder;
    HandleStep(st.g, st.ongoing, st.occupied, t, s);
    HandleQueue(st.main, st.g, t, s, u);
    assert 0 <= Acted(st.main, t, s) by { ActedIsNat(st.main, st.g, t, s); }
    if t.pc.token == BarrierAsk {
      StartsWaiting(st.g, st.ongoing, st.occupied, s, t);
    }
  }

  lemma ActedIsNat(m: Main, g: Game, t: Thread, s: Seat)
    requires ThreadOk(m, g, t, s)
    ensures 0 <= Acted(m, t, s)
  {
    hide Acted;
  }

  lemma SameHeld(m: Main, m': Main, t: Thread, u: Thread, s: Seat)
    requires m'.round == m.round && ((Queue(u) == Queue(t) && m' == m) || Acted(m', u, s) == Acted(m, t, s))
    ensures Held(m', u, s) <==> Held(m, t, s)
  {
    hide Sent, Queue, Script;
  }

  lemma SeatHeld(st: State, s: Seat, choice: Choice)
    requires HeldInv(st) && Typed(st) && ThreadEnabled(st.threads[s], choice)
    ensures HeldInv(SeatNext(st, s, choice))
  {
    assert Next(st, SeatStep(s, choice)) == SeatNext(st, s, choice);
    hide HeldInv, Inv, Held, Waits, SeatNext, Next, ThreadEnabled;
    HeldAt(st, s);
    SeatKeeps(st, s, choice);
    forall u: Seat { SeatHeldAt(st, s, choice, u); }
    HeldWhole(SeatNext(st, s, choice));
  }

  lemma SeatHeldAt(st: State, s: Seat, choice: Choice, u: Seat)
    requires HeldInv(st) && Typed(st) && ThreadEnabled(st.threads[s], choice)
    ensures var st' := SeatNext(st, s, choice);
            |st'.threads| == 4 && (Held(st'.main, st'.threads[u], u) ==> Waits(st'.threads[u]))
  {
    hide HeldInv, Inv, Held, Waits, ThreadNext, SeatNext, ThreadEnabled;
    HeldAt(st, u);
    NextThread(st, s, choice);
    SelfHeld(st, s, choice);
  }

  lemma HeldWhole(st: State)
    requires Inv(st) && |st.threads| == 4 && forall u: Seat :: Held(st.main, st.threads[u], u) ==> Waits(st.threads[u])
    ensures HeldInv(st)
  {
    TypedOf(st);
    hide Inv, Typed, Held, Waits;
  }

  lemma MainHeldAt(st: State, from: Seat, s: Seat)
    requires HeldInv(st) && Typed(st) && MainEnabled(st, from)
    ensures var st' := MainNext(st, from);
            |st'.threads| == 4 && (Held(st'.main, st'.threads[s], s) ==> Waits(st'.threads[s]))
  {
    hide HeldInv, Inv, Held, MainNext, MainEnabled;
    HeldAt(st, s);
    Deferral.MainLeavesMessages(st, from, s);
    var st' := MainNext(st, from);
    if st.main.pc.BarrierCheck? {
      AllArrived(st, s);
      ArrivedIsHeld(st.main, st.threads[s], s);
    } else {
      MainActed(st, from, s);
      MainUnloaded(st, from);
      SameHeld(st.main, st'.main, st.threads[s], st'.threads[s], s);
    }
  }

  lemma ArrivedIsHeld(m: Main, t: Thread, s: Seat)
    requires HasArrived(m, t, s)
    ensures Held(m, t, s)
  {
  }

  lemma MainHeld(st: State, from: Seat)
    requires HeldInv(st) && Typed(st) && MainEnabled(st, from)
    ensures HeldInv(MainNext(st, from))
  {
    assert Next(st, MainStep(from)) == MainNext(st, from);
    HeldAt(st, 0);
    hide HeldInv, Inv, Held, Waits, MainNext, Next, MainEnabled;
    MainKeeps(st, from);
    forall u: Seat { MainHeldAt(st, from, u); }
    HeldWhole(MainNext(st, from));
  }

  lemma {:induction false} RunHeld(st: State, actions: seq<Action>)
    requires HeldInv(st) && Typed(st) && IsRun(st, actions)
    ensures HeldInv(RunOf(st, actions))
    decreases |actions|
  {
    if actions != [] {
      NextHeld(st, actions[0]);
      hide HeldInv, Next, Enabled1;
      RunHeld(Next(st, actions[0]), actions[1..]);
    }
  }

  lemma NextHeld(st: State, a: Action)
    requires HeldInv(st) && Typed(st) && Enabled1(st, a)
    ensures HeldInv(Next(st, a))
  {
    hide HeldInv, MainNext, SeatNext, MainEnabled, ThreadEnabled;
    match a
    case MainStep(from) => MainHeld(st, from);
    case SeatStep(s, choice) => SeatHeld(st, s, choice);
  }

  lemma StartHeld(st: State)
    requires Initial(st)
    ensures HeldInv(st)
  {
    InitialInv(st);
    forall s: Seat ensures !Held(st.main, st.threads[s], s) {
      assert Idling(st.threads[s]);
    }
    hide Inv, Held, Waits, Initial;
    HeldWhole(st);
  }

  lemma ReachableHeld(st: State)
    requires Reachable(st)
    ensures HeldInv(st)
  {
    var st0, actions :| Initial(st0) && Typed(st0) && IsRun(st0, actions) && RunOf(st0, actions) == st;
    hide Initial, HeldInv, IsRun, RunOf;
    StartHeld(st0);
    RunHeld(st0, actions);
  }

  /** From the moment a thread has acted on the token that asks it to the barrier until it acts on the one that
      lets it go, no step of it parses a message or writes to the client; a message that comes is put aside. */
  lemma HeldBack(st: State, s: Seat, choice: Choice)
    requires Reachable(st) && Typed(st) && Held(st.main, st.threads[s], s) && ThreadEnabled(st.threads[s], choice)
    ensures var t, r := st.threads[s], Next(st, SeatStep(s, choice));
            var u := r.threads[s];
            && r.g == st.g && u.parsed == t.parsed && u.log == t.log
            && u.deferred == t.deferred + if choice.FromClient? then [choice.m] else []
  {
    var t := st.threads[s];
    hide *;
    ReachableHeld(st);
    HeldAt(st, s);
    PartsOf(st);
    ThreadOf(st, s);
    HeldNotAsked(st.main, st.g, t, s);
    if t.pc.Handle? {
      HeldHandles(st.main, st.g, t, s);
    }
    WaitingStep(st, s, choice);
  }

  lemma WaitingStep(st: State, s: Seat, choice: Choice)
    requires Typed(st) && ThreadEnabled(st.threads[s], choice) && Waits(st.threads[s]) && !st.threads[s].destined
    requires st.threads[s].pc.Handle? ==> st.threads[s].pc.token == BarrierEnd
    ensures var t, r := st.threads[s], Next(st, SeatStep(s, choice));
            var u := r.threads[s];
            && r.g == st.g && u.parsed == t.parsed && u.log == t.log
            && u.deferred == t.deferred + if choice.FromClient? then [choice.m] else []
  {
    var t := st.threads[s];
    assert Next(st, SeatStep(s, choice)) == SeatNext(st, s, choice);
    hide SeatNext, ThreadNext;
    NextThread(st, s, choice);
    WaitingThread(st.g, st.ongoing, st.occupied, s, t, choice);
    if t.pc.Handle? {
      GoOnly(t, choice);
      HandleWrites(st.g, st.ongoing, st.occupied, t, s);
    }
    hide ThreadEnabled;
  }

  lemma GoOnly(t: Thread, choice: Choice)
    requires t.pc.Handle? && ThreadEnabled(t, choice)
    ensures choice == Go
  {
  }
}
